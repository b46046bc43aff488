/** The identifier pass is a canonical renaming: it keeps and reflects equality, forgets the input's
    own names, and is idempotent. */
module Renaming {
  import opened Json
  import opened Numbering
  import opened Prelude
  import opened Sanitize

  function Look(m: Names, x: string): string {
    if x in m then m[x] else x
  }

  function MapSeq(m: Names, xs: seq<string>): (r: seq<string>)
    ensures |r| == |xs|
  {
    seq(|xs|, i requires 0 <= i < |xs| => Look(m, xs[i]))
  }

  // A plain renaming of a tree's identifiers, without any dictionary being built.

  function SlotsBy(fields: seq<Field>, g: Ids): Slots {
    var s, t := SessionSlot(fields), StringAt(fields, "terminal_id");
    Slots(if s.Some? then Some(Look(g.sessions, s.value)) else None,
          if t.Some? then Some(Look(g.terminals, t.value)) else None)
  }

  /** `own` replaces the value field, as in Sanitize.ScrubIds. */
  function MapIds(v: Json, own: Option<string>, g: Ids): Json
    decreases v
  {
    match v
    case Arr(items) => Arr(MapItems(items, g))
    case Obj(fields) => Obj(MapFields(fields, own, SlotsBy(fields, g), g))
    case _ => v
  }

  function MapItems(items: seq<Json>, g: Ids): (r: seq<Json>)
    ensures |r| == |items|
    decreases items
  {
    if items == [] then []
    else
      var n := |items| - 1;
      MapItems(items[..n], g) + [MapIds(items[n], None, g)]
  }

  function MapField(f: Field, own: Option<string>, slots: Slots, g: Ids): Json
    decreases f
  {
    if own.Some? && f.key == "value" then Str(own.value)
    else if slots.terminal.Some? && f.key == "terminal_id" then Str(slots.terminal.value)
    else MapIds(f.value, if f.key == "agent_session" then slots.session else None, g)
  }

  function MapFields(fields: seq<Field>, own: Option<string>, slots: Slots, g: Ids): (r: seq<Field>)
    ensures |r| == |fields| && forall i | 0 <= i < |fields| :: r[i].key == fields[i].key
    decreases fields
  {
    if fields == [] then []
    else
      var n := |fields| - 1;
      MapFields(fields[..n], own, slots, g) + [Field(fields[n].key, MapField(fields[n], own, slots, g))]
  }

  // The identifiers of a tree, in the order the pass meets them.

  function OwnId(kind: Kind, fields: seq<Field>): seq<string> {
    var id := if kind.Session? then SessionSlot(fields) else StringAt(fields, "terminal_id");
    if id.Some? then [id.value] else []
  }

  function IdList(kind: Kind, v: Json): seq<string>
    decreases v
  {
    match v
    case Arr(items) => ItemIds(kind, items)
    case Obj(fields) => OwnId(kind, fields) + FieldIds(kind, fields)
    case _ => []
  }

  function ItemIds(kind: Kind, items: seq<Json>): seq<string>
    decreases items
  {
    if items == [] then []
    else ItemIds(kind, items[..|items| - 1]) + IdList(kind, items[|items| - 1])
  }

  function FieldIds(kind: Kind, fields: seq<Field>): seq<string>
    decreases fields
  {
    if fields == [] then []
    else FieldIds(kind, fields[..|fields| - 1]) + IdList(kind, fields[|fields| - 1].value)
  }

  // Lookups in well-formed objects.

  lemma GetOf(fields: seq<Field>, i: nat)
    requires DistinctKeys(fields) && i < |fields|
    ensures Get(fields, fields[i].key) == Some(fields[i].value)
  {
    var j := Find(fields, fields[i].key);
    assert fields[i] in fields;
  }

  /** The object given to the pass can take the replacement: its value field is a string. */
  predicate Takes(fields: seq<Field>, own: Option<string>) {
    own.Some? ==> StringAt(fields, "value").Some?
  }

  /** The replaced fields are strings, so nothing below them is renamed. */
  lemma ReplacedIsString(fields: seq<Field>, i: nat, own: Option<string>, slots: Slots)
    requires DistinctKeys(fields) && i < |fields| && Takes(fields, own)
    requires slots.terminal.Some? ==> StringAt(fields, "terminal_id").Some?
    ensures own.Some? && fields[i].key == "value" ==> fields[i].value.Str?
    ensures slots.terminal.Some? && fields[i].key == "terminal_id" ==> fields[i].value.Str?
  {
    GetOf(fields, i);
  }

  /** The session object of an object with a session slot takes the slot's replacement. */
  lemma SessionTakes(fields: seq<Field>, i: nat, slots: Slots)
    requires DistinctKeys(fields) && i < |fields|
    requires slots.session.Some? ==> SessionSlot(fields).Some?
    ensures var own := if fields[i].key == "agent_session" then slots.session else None;
            own.Some? ==> fields[i].value.Obj? && Takes(fields[i].value.fields, own)
  {
    GetOf(fields, i);
  }

  // The pass numbers the listed identifiers and renames by the final dictionary.

  lemma {:induction false} NumberAppend(kind: Kind, seen: Names, a: seq<string>, b: seq<string>)
    ensures NumberAll(kind, seen, a + b) == NumberAll(kind, NumberAll(kind, seen, a), b)
  {
    if b == [] {
      assert a + b == a;
    } else {
      var n := |b| - 1;
      assert (a + b)[..|a + b| - 1] == a + b[..n];
      NumberAppend(kind, seen, a, b[..n]);
    }
  }

  function NumberIds(ids: Ids, sessions: seq<string>, terminals: seq<string>): Ids {
    Ids(NumberAll(Session, ids.sessions, sessions), NumberAll(Terminal, ids.terminals, terminals))
  }

  lemma NumberIdsAppend(ids: Ids, s1: seq<string>, t1: seq<string>, s2: seq<string>, t2: seq<string>)
    ensures NumberIds(ids, s1 + s2, t1 + t2) == NumberIds(NumberIds(ids, s1, t1), s2, t2)
  {
    NumberAppend(Session, ids.sessions, s1, s2);
    NumberAppend(Terminal, ids.terminals, t1, t2);
  }

  predicate ExtendsIds(a: Ids, b: Ids) {
    Extends(a.sessions, b.sessions) && Extends(a.terminals, b.terminals)
  }

  lemma {:induction false} NumberExtends(kind: Kind, seen: Names, values: seq<string>)
    ensures Extends(seen, NumberAll(kind, seen, values))
  {
    if values != [] {
      NumberExtends(kind, seen, values[..|values| - 1]);
    }
  }

  lemma NumberIdsExtends(ids: Ids, s: seq<string>, t: seq<string>, g: Ids)
    ensures ExtendsIds(NumberIds(ids, s, t), g) ==> ExtendsIds(ids, g)
  {
    NumberExtends(Session, ids.sessions, s);
    NumberExtends(Terminal, ids.terminals, t);
  }

  lemma AssignNumbers(fields: seq<Field>, ids: Ids)
    ensures Assign(fields, ids).1 == NumberIds(ids, OwnId(Session, fields), OwnId(Terminal, fields))
  {
    if SessionSlot(fields).Some? {
      NumberOne(Session, ids.sessions, SessionSlot(fields).value);
    }
    if StringAt(fields, "terminal_id").Some? {
      NumberOne(Terminal, ids.terminals, StringAt(fields, "terminal_id").value);
    }
  }

  lemma NumberOne(kind: Kind, seen: Names, value: string)
    ensures NumberAll(kind, seen, [value]) == Next(kind, seen, value)
  {
    assert [value][..0] == [];
  }

  lemma {:induction false} ScrubIsMap(v: Json, own: Option<string>, ids: Ids, g: Ids)
    requires WellFormed(v) && (own.Some? ==> v.Obj? && Takes(v.fields, own))
    ensures ScrubIds(v, own, ids).1 == NumberIds(ids, IdList(Session, v), IdList(Terminal, v))
    ensures ExtendsIds(ScrubIds(v, own, ids).1, g) ==> ScrubIds(v, own, ids).0 == MapIds(v, own, g)
    decreases v, 2
  {
    match v
    case Arr(items) => ScrubItemsIsMap(items, ids, g);
    case Obj(fields) =>
      var (slots, some) := Assign(fields, ids);
      AssignNumbers(fields, ids);
      ScrubFieldsIsMap(fields, fields, own, slots, some, g);
      NumberIdsAppend(ids, OwnId(Session, fields), OwnId(Terminal, fields),
                      FieldIds(Session, fields), FieldIds(Terminal, fields));
      NumberIdsExtends(some, FieldIds(Session, fields), FieldIds(Terminal, fields), g);
    case _ =>
  }

  lemma {:induction false} ScrubItemsIsMap(items: seq<Json>, ids: Ids, g: Ids)
    requires forall x | x in items :: WellFormed(x)
    ensures ScrubItems(items, ids).1 == NumberIds(ids, ItemIds(Session, items), ItemIds(Terminal, items))
    ensures ExtendsIds(ScrubItems(items, ids).1, g) ==> ScrubItems(items, ids).0 == MapItems(items, g)
    decreases items, 1
  {
    if items != [] {
      var n := |items| - 1;
      var more := ScrubItems(items[..n], ids).1;
      ScrubItemsIsMap(items[..n], ids, g);
      ScrubIsMap(items[n], None, more, g);
      NumberIdsAppend(ids, ItemIds(Session, items[..n]), ItemIds(Terminal, items[..n]),
                      IdList(Session, items[n]), IdList(Terminal, items[n]));
      NumberIdsExtends(more, IdList(Session, items[n]), IdList(Terminal, items[n]), g);
    }
  }

  lemma {:induction false} ScrubFieldIsMap(all: seq<Field>, n: nat, own: Option<string>, slots: Slots, ids: Ids, g: Ids)
    requires n < |all| && DistinctKeys(all) && Takes(all, own) && WellFormed(all[n].value)
    requires slots.terminal.Some? ==> StringAt(all, "terminal_id").Some?
    requires slots.session.Some? ==> SessionSlot(all).Some?
    ensures ScrubField(all[n], own, slots, ids).1
         == NumberIds(ids, IdList(Session, all[n].value), IdList(Terminal, all[n].value))
    ensures ExtendsIds(ScrubField(all[n], own, slots, ids).1, g) ==>
              ScrubField(all[n], own, slots, ids).0 == MapField(all[n], own, slots, g)
    decreases all[n], 0
  {
    ReplacedIsString(all, n, own, slots);
    SessionTakes(all, n, slots);
    ScrubIsMap(all[n].value, if all[n].key == "agent_session" then slots.session else None, ids, g);
  }

  /** `fields` is a prefix of the object's fields `all`. */
  lemma {:induction false} ScrubFieldsIsMap(
      all: seq<Field>, fields: seq<Field>, own: Option<string>, slots: Slots, ids: Ids, g: Ids)
    requires fields <= all && DistinctKeys(all) && Takes(all, own)
    requires forall f | f in fields :: WellFormed(f.value)
    requires slots.terminal.Some? ==> StringAt(all, "terminal_id").Some?
    requires slots.session.Some? ==> SessionSlot(all).Some?
    ensures ScrubFields(fields, own, slots, ids).1
         == NumberIds(ids, FieldIds(Session, fields), FieldIds(Terminal, fields))
    ensures ExtendsIds(ScrubFields(fields, own, slots, ids).1, g) ==>
              ScrubFields(fields, own, slots, ids).0 == MapFields(fields, own, slots, g)
    decreases fields, 1
  {
    if fields != [] {
      var n := |fields| - 1;
      var f, more := fields[n], ScrubFields(fields[..n], own, slots, ids).1;
      assert f == all[n] && f in fields;
      ScrubFieldsIsMap(all, fields[..n], own, slots, ids, g);
      ScrubFieldIsMap(all, n, own, slots, more, g);
      NumberIdsAppend(ids, FieldIds(Session, fields[..n]), FieldIds(Terminal, fields[..n]),
                      IdList(Session, f.value), IdList(Terminal, f.value));
      NumberIdsExtends(more, IdList(Session, f.value), IdList(Terminal, f.value), g);
    }
  }

  // What a plain renaming does to the list of identifiers, and how renamings compose.

  lemma {:induction false} MapFieldsAt(fields: seq<Field>, own: Option<string>, slots: Slots, g: Ids, i: nat)
    requires i < |fields|
    ensures MapFields(fields, own, slots, g)[i] == Field(fields[i].key, MapField(fields[i], own, slots, g))
  {
    if i < |fields| - 1 {
      MapFieldsAt(fields[..|fields| - 1], own, slots, g, i);
    }
  }

  lemma {:induction false} MapItemsAt(items: seq<Json>, g: Ids, i: nat)
    requires i < |items|
    ensures MapItems(items, g)[i] == MapIds(items[i], None, g)
  {
    if i < |items| - 1 {
      MapItemsAt(items[..|items| - 1], g, i);
    }
  }

  lemma {:induction false} FieldIdsHave(kind: Kind, fields: seq<Field>, i: nat)
    requires i < |fields|
    ensures forall x | x in IdList(kind, fields[i].value) :: x in FieldIds(kind, fields)
  {
    if i < |fields| - 1 {
      FieldIdsHave(kind, fields[..|fields| - 1], i);
    }
  }

  lemma {:induction false} ItemIdsHave(kind: Kind, items: seq<Json>, i: nat)
    requires i < |items|
    ensures forall x | x in IdList(kind, items[i]) :: x in ItemIds(kind, items)
  {
    if i < |items| - 1 {
      ItemIdsHave(kind, items[..|items| - 1], i);
    }
  }

  lemma MapKeepsKeys(fields: seq<Field>, own: Option<string>, slots: Slots, g: Ids)
    ensures Keys(MapFields(fields, own, slots, g)) == Keys(fields)
    ensures DistinctKeys(fields) ==> DistinctKeys(MapFields(fields, own, slots, g))
  {
    var r := MapFields(fields, own, slots, g);
    forall k
      ensures k in Keys(r) <==> k in Keys(fields)
    {
      if i :| 0 <= i < |fields| && fields[i].key == k {
        assert r[i] in r && fields[i] in fields;
      }
      if i :| 0 <= i < |r| && r[i].key == k {
        assert r[i] in r && fields[i] in fields;
      }
    }
  }

  lemma MapGet(fields: seq<Field>, own: Option<string>, slots: Slots, g: Ids, key: string)
    requires DistinctKeys(fields)
    ensures var old', now := Get(fields, key), Get(MapFields(fields, own, slots, g), key);
            && (old'.Some? <==> now.Some?)
            && (old'.Some? ==> now.value == MapField(Field(key, old'.value), own, slots, g))
  {
    MapKeepsKeys(fields, own, slots, g);
    var i := Find(fields, key);
    if i < |fields| {
      MapFieldsAt(fields, own, slots, g, i);
      GetOf(MapFields(fields, own, slots, g), i);
    }
  }

  function Part(kind: Kind, g: Ids): Names {
    if kind.Session? then g.sessions else g.terminals
  }

  lemma MapSeqAppend(m: Names, a: seq<string>, b: seq<string>)
    ensures MapSeq(m, a + b) == MapSeq(m, a) + MapSeq(m, b)
  {
  }

  /** Only strings become strings, unless a slot replaces the field. */
  lemma MapKeepsShape(v: Json, own: Option<string>, g: Ids)
    ensures MapIds(v, own, g).Obj? <==> v.Obj?
    ensures MapIds(v, own, g).Str? <==> v.Str?
    ensures v.Str? ==> MapIds(v, own, g) == v
  {
  }

  lemma MapOwnTerminal(fields: seq<Field>, own: Option<string>, g: Ids)
    requires DistinctKeys(fields)
    ensures var now := StringAt(MapFields(fields, own, SlotsBy(fields, g), g), "terminal_id");
            now == SlotsBy(fields, g).terminal
  {
    assert "terminal_id" != "value" && "terminal_id" != "agent_session" by {
      assert |"terminal_id"| == 11 && |"value"| == 5 && |"agent_session"| == 13;
    }
    MapGet(fields, own, SlotsBy(fields, g), g, "terminal_id");
    var v := Get(fields, "terminal_id");
    if v.Some? {
      MapKeepsShape(v.value, None, g);
    }
  }

  lemma MapValueField(fields: seq<Field>, own: Option<string>, g: Ids)
    requires DistinctKeys(fields)
    ensures var now := StringAt(MapFields(fields, own, SlotsBy(fields, g), g), "value");
            if Takes(fields, own) && own.Some? then now == own else own.None? ==> now == StringAt(fields, "value")
  {
    assert "value" != "terminal_id" && "value" != "agent_session" by {
      assert |"terminal_id"| == 11 && |"value"| == 5 && |"agent_session"| == 13;
    }
    MapGet(fields, own, SlotsBy(fields, g), g, "value");
    var v := Get(fields, "value");
    if v.Some? {
      MapKeepsShape(v.value, None, g);
    }
  }

  lemma MapOwnSession(fields: seq<Field>, own: Option<string>, g: Ids)
    requires DistinctKeys(fields) && forall f | f in fields :: WellFormed(f.value)
    ensures SessionSlot(MapFields(fields, own, SlotsBy(fields, g), g)) == SlotsBy(fields, g).session
  {
    var slots := SlotsBy(fields, g);
    SessionKeyApart();
    MapGet(fields, own, slots, g, "agent_session");
    var v := Get(fields, "agent_session");
    if v.Some? {
      assert fields[Find(fields, "agent_session")] in fields;
      MapSessionValue(v.value, slots.session, g);
    }
  }

  lemma SessionKeyApart()
    ensures "agent_session" != "value" && "agent_session" != "terminal_id"
  {
    assert |"agent_session"| == 13 && |"value"| == 5 && |"terminal_id"| == 11;
  }

  /** The value inside a session object, before and after. */
  function ValueIn(session: Json): Option<string> {
    if session.Obj? then StringAt(session.fields, "value") else None
  }

  lemma MapSessionValue(session: Json, own: Option<string>, g: Ids)
    requires WellFormed(session)
    requires own.Some? <==> ValueIn(session).Some?
    ensures ValueIn(MapIds(session, own, g)) == own
  {
    MapKeepsShape(session, own, g);
    if session.Obj? {
      MapValueField(session.fields, own, g);
    }
  }

  lemma ItemIdsAppend(kind: Kind, items: seq<Json>, x: Json)
    ensures ItemIds(kind, items + [x]) == ItemIds(kind, items) + IdList(kind, x)
  {
    assert (items + [x])[..|items|] == items;
  }

  lemma FieldIdsAppend(kind: Kind, fields: seq<Field>, f: Field)
    ensures FieldIds(kind, fields + [f]) == FieldIds(kind, fields) + IdList(kind, f.value)
  {
    assert (fields + [f])[..|fields|] == fields;
  }

  lemma {:induction false} MapListed(kind: Kind, v: Json, own: Option<string>, g: Ids)
    requires WellFormed(v) && (own.Some? ==> v.Obj? && Takes(v.fields, own)) && !kind.Project?
    ensures IdList(kind, MapIds(v, own, g)) == MapSeq(Part(kind, g), IdList(kind, v))
    decreases v, 2
  {
    match v
    case Arr(items) => MapItemsListed(kind, items, g);
    case Obj(fields) =>
      MapOwnListed(kind, fields, own, g);
      MapFieldsListed(kind, fields, fields, own, SlotsBy(fields, g), g);
      MapSeqAppend(Part(kind, g), OwnId(kind, fields), FieldIds(kind, fields));
    case _ =>
  }

  lemma MapOwnListed(kind: Kind, fields: seq<Field>, own: Option<string>, g: Ids)
    requires DistinctKeys(fields) && (forall f | f in fields :: WellFormed(f.value)) && !kind.Project?
    ensures OwnId(kind, MapFields(fields, own, SlotsBy(fields, g), g)) == MapSeq(Part(kind, g), OwnId(kind, fields))
  {
    MapOwnTerminal(fields, own, g);
    MapOwnSession(fields, own, g);
  }

  lemma {:induction false} MapItemsListed(kind: Kind, items: seq<Json>, g: Ids)
    requires (forall x | x in items :: WellFormed(x)) && !kind.Project?
    ensures ItemIds(kind, MapItems(items, g)) == MapSeq(Part(kind, g), ItemIds(kind, items))
    decreases items, 1
  {
    if items != [] {
      var n := |items| - 1;
      MapItemsListed(kind, items[..n], g);
      MapListed(kind, items[n], None, g);
      ItemIdsAppend(kind, MapItems(items[..n], g), MapIds(items[n], None, g));
      MapSeqAppend(Part(kind, g), ItemIds(kind, items[..n]), IdList(kind, items[n]));
    }
  }

  lemma {:induction false} MapFieldListed(
      kind: Kind, all: seq<Field>, n: nat, own: Option<string>, slots: Slots, g: Ids)
    requires n < |all| && DistinctKeys(all) && Takes(all, own) && WellFormed(all[n].value) && !kind.Project?
    requires slots == SlotsBy(all, g)
    ensures IdList(kind, MapField(all[n], own, slots, g)) == MapSeq(Part(kind, g), IdList(kind, all[n].value))
    decreases all[n], 0
  {
    ReplacedIsString(all, n, own, slots);
    SessionTakes(all, n, slots);
    MapListed(kind, all[n].value, if all[n].key == "agent_session" then slots.session else None, g);
  }

  lemma {:induction false} MapFieldsListed(
      kind: Kind, all: seq<Field>, fields: seq<Field>, own: Option<string>, slots: Slots, g: Ids)
    requires fields <= all && DistinctKeys(all) && Takes(all, own) && slots == SlotsBy(all, g) && !kind.Project?
    requires forall f | f in fields :: WellFormed(f.value)
    ensures FieldIds(kind, MapFields(fields, own, slots, g)) == MapSeq(Part(kind, g), FieldIds(kind, fields))
    decreases fields, 1
  {
    if fields != [] {
      var n := |fields| - 1;
      assert fields[n] == all[n] && fields[n] in fields;
      MapFieldsListed(kind, all, fields[..n], own, slots, g);
      MapFieldListed(kind, all, n, own, slots, g);
      var f := Field(fields[n].key, MapField(fields[n], own, slots, g));
      FieldIdsAppend(kind, MapFields(fields[..n], own, slots, g), f);
      MapSeqAppend(Part(kind, g), FieldIds(kind, fields[..n]), IdList(kind, fields[n].value));
    }
  }

  /** On the listed identifiers, h does what g followed by d does. */
  ghost predicate Through(h: Names, g: Names, d: Names, listed: seq<string>) {
    forall x | x in listed :: Look(h, x) == Look(d, Look(g, x))
  }

  ghost predicate ThroughIds(h: Ids, g: Ids, d: Ids, sessions: seq<string>, terminals: seq<string>) {
    Through(h.sessions, g.sessions, d.sessions, sessions) && Through(h.terminals, g.terminals, d.terminals, terminals)
  }

  lemma SlotsCompose(fields: seq<Field>, own: Option<string>, h: Ids, g: Ids, d: Ids)
    requires DistinctKeys(fields) && forall f | f in fields :: WellFormed(f.value)
    requires ThroughIds(h, g, d, OwnId(Session, fields), OwnId(Terminal, fields))
    ensures SlotsBy(MapFields(fields, own, SlotsBy(fields, g), g), d) == SlotsBy(fields, h)
  {
    MapOwnTerminal(fields, own, g);
    MapOwnSession(fields, own, g);
    var s, t := SessionSlot(fields), StringAt(fields, "terminal_id");
    assert s.Some? ==> s.value in OwnId(Session, fields);
    assert t.Some? ==> t.value in OwnId(Terminal, fields);
  }

  /** Renaming twice is renaming once. */
  lemma {:induction false} MapCompose(v: Json, o1: Option<string>, o2: Option<string>, h: Ids, g: Ids, d: Ids)
    requires WellFormed(v) && (o1.Some? ==> v.Obj? && Takes(v.fields, o1)) && (o1.Some? <==> o2.Some?)
    requires ThroughIds(h, g, d, IdList(Session, v), IdList(Terminal, v))
    ensures MapIds(MapIds(v, o1, g), o2, d) == MapIds(v, o2, h)
    decreases v, 2
  {
    match v
    case Arr(items) => MapItemsCompose(items, h, g, d);
    case Obj(fields) =>
      SlotsCompose(fields, o1, h, g, d);
      MapFieldsCompose(fields, fields, o1, o2, SlotsBy(fields, g), SlotsBy(fields, h), h, g, d);
    case _ =>
  }

  lemma {:induction false} MapItemsCompose(items: seq<Json>, h: Ids, g: Ids, d: Ids)
    requires forall x | x in items :: WellFormed(x)
    requires ThroughIds(h, g, d, ItemIds(Session, items), ItemIds(Terminal, items))
    ensures MapItems(MapItems(items, g), d) == MapItems(items, h)
    decreases items, 1
  {
    if items != [] {
      var n := |items| - 1;
      MapItemsCompose(items[..n], h, g, d);
      MapCompose(items[n], None, None, h, g, d);
      assert MapItems(items, g)[..n] == MapItems(items[..n], g);
    }
  }

  lemma {:induction false} MapFieldCompose(
      all: seq<Field>, n: nat, o1: Option<string>, o2: Option<string>, s1: Slots, s2: Slots, h: Ids, g: Ids, d: Ids)
    requires n < |all| && DistinctKeys(all) && Takes(all, o1) && WellFormed(all[n].value) && (o1.Some? <==> o2.Some?)
    requires s1 == SlotsBy(all, g) && s2 == SlotsBy(all, h)
    requires ThroughIds(h, g, d, IdList(Session, all[n].value), IdList(Terminal, all[n].value))
    ensures MapField(Field(all[n].key, MapField(all[n], o1, s1, g)), o2, s2, d) == MapField(all[n], o2, s2, h)
    decreases all[n], 0
  {
    SessionTakes(all, n, s1);
    var f := all[n];
    var o := if f.key == "agent_session" then s1.session else None;
    var o' := if f.key == "agent_session" then s2.session else None;
    MapCompose(f.value, o, o', h, g, d);
    FieldComposed(f, MapIds(f.value, o, g), o1, o2, s1, s2, h, g, d);
  }

  lemma FieldComposed(
      f: Field, inner: Json, o1: Option<string>, o2: Option<string>, s1: Slots, s2: Slots, h: Ids, g: Ids, d: Ids)
    requires (o1.Some? <==> o2.Some?) && (s1.terminal.Some? <==> s2.terminal.Some?)
    requires inner == MapIds(f.value, if f.key == "agent_session" then s1.session else None, g)
    requires var o := if f.key == "agent_session" then s2.session else None;
             MapIds(inner, o, d) == MapIds(f.value, o, h)
    ensures MapField(Field(f.key, MapField(f, o1, s1, g)), o2, s2, d) == MapField(f, o2, s2, h)
  {
  }

  lemma {:induction false} MapFieldsCompose(
      all: seq<Field>, fields: seq<Field>, o1: Option<string>, o2: Option<string>, s1: Slots, s2: Slots, h: Ids,
      g: Ids, d: Ids)
    requires fields <= all && DistinctKeys(all) && Takes(all, o1) && (o1.Some? <==> o2.Some?)
    requires s1 == SlotsBy(all, g) && s2 == SlotsBy(all, h)
    requires forall f | f in fields :: WellFormed(f.value)
    requires ThroughIds(h, g, d, FieldIds(Session, fields), FieldIds(Terminal, fields))
    ensures MapFields(MapFields(fields, o1, s1, g), o2, s2, d) == MapFields(fields, o2, s2, h)
    decreases fields, 1
  {
    if fields != [] {
      var n := |fields| - 1;
      assert fields[n] == all[n] && fields[n] in fields;
      MapFieldsCompose(all, fields[..n], o1, o2, s1, s2, h, g, d);
      MapFieldCompose(all, n, o1, o2, s1, s2, h, g, d);
      assert MapFields(fields, o1, s1, g)[..n] == MapFields(fields[..n], o1, s1, g);
    }
  }

  // Numbering does not see the names.

  predicate InjectiveOn(m: Names, values: seq<string>) {
    forall i, j | 0 <= i < |values| && 0 <= j < |values| && Look(m, values[i]) == Look(m, values[j]) ::
      values[i] == values[j]
  }

  lemma {:induction false} NumberRenamed(kind: Kind, m: Names, values: seq<string>)
    requires InjectiveOn(m, values)
    ensures |NumberAll(kind, map[], MapSeq(m, values))| == |NumberAll(kind, map[], values)|
    ensures Through(NumberAll(kind, map[], values), m, NumberAll(kind, map[], MapSeq(m, values)), values)
  {
    if values != [] {
      var n := |values| - 1;
      var before, x := values[..n], values[n];
      assert InjectiveOn(m, before);
      NumberRenamed(kind, m, before);
      Correspond(kind, m, values);
      NextRenamed(kind, m, NumberAll(kind, map[], before), NumberAll(kind, map[], MapSeq(m, before)), before, x);
      NumberLast(kind, values);
      MapSeqLast(m, values);
      NumberLast(kind, MapSeq(m, values));
    }
  }

  lemma NumberLast(kind: Kind, values: seq<string>)
    requires values != []
    ensures var n := |values| - 1;
            values == values[..n] + [values[n]]
            && NumberAll(kind, map[], values) == Next(kind, NumberAll(kind, map[], values[..n]), values[n])
  {
  }

  lemma MapSeqLast(m: Names, values: seq<string>)
    requires values != []
    ensures var n := |values| - 1;
            MapSeq(m, values)[..n] == MapSeq(m, values[..n]) && MapSeq(m, values)[n] == Look(m, values[n])
  {
  }

  /** The two dictionaries so far know corresponding values. */
  lemma Correspond(kind: Kind, m: Names, values: seq<string>)
    requires values != [] && InjectiveOn(m, values)
    ensures var before, x := values[..|values| - 1], values[|values| - 1];
            var a, b := NumberAll(kind, map[], before), NumberAll(kind, map[], MapSeq(m, before));
            && a.Keys == Distinct(before) && (x in a <==> Look(m, x) in b)
            && forall v | v in before :: Look(m, v) in b
  {
    var n := |values| - 1;
    var before := values[..n];
    NumberedKeys(kind, before);
    NumberedKeys(kind, MapSeq(m, before));
    SeenAlike(m, values, n);
    assert MapSeq(m, values)[..n] == MapSeq(m, before);
    forall v | v in before
      ensures Look(m, v) in MapSeq(m, before)
    {
      var i :| 0 <= i < n && before[i] == v;
      assert MapSeq(m, before)[i] == Look(m, v);
    }
  }

  lemma SeenAlike(m: Names, values: seq<string>, n: nat)
    requires n < |values| && InjectiveOn(m, values)
    ensures MapSeq(m, values)[n] in MapSeq(m, values)[..n] <==> values[n] in values[..n]
  {
    var renamed := MapSeq(m, values);
    if i :| 0 <= i < n && values[i] == values[n] {
      assert renamed[..n][i] == renamed[n];
    }
    if i :| 0 <= i < n && renamed[i] == renamed[n] {
      assert values[..n][i] == values[n];
    }
  }

  /** One more value keeps two corresponding dictionaries corresponding. */
  lemma NextRenamed(kind: Kind, m: Names, a: Names, b: Names, before: seq<string>, x: string)
    requires |a| == |b| && Through(a, m, b, before)
    requires a.Keys == Distinct(before) && (x in a <==> Look(m, x) in b)
    requires forall v | v in before :: Look(m, v) in b
    ensures |Next(kind, a, x)| == |Next(kind, b, Look(m, x))|
    ensures Through(Next(kind, a, x), m, Next(kind, b, Look(m, x)), before + [x])
  {
    forall v | v in before + [x]
      ensures Look(Next(kind, a, x), v) == Look(Next(kind, b, Look(m, x)), Look(m, v))
    {
      if v in before {
        assert Look(a, v) == Look(b, Look(m, v));
      }
    }
  }

  // The theorems.

  const NONE := Ids(map[], map[])

  function Scrubbed(v: Json): Json {
    ScrubIds(v, None, NONE).0
  }

  /** The dictionaries the pass ends with: the tree's identifiers numbered by first occurrence. */
  function Dictionary(v: Json): Ids {
    NumberIds(NONE, IdList(Session, v), IdList(Terminal, v))
  }

  /** The pass renames by its own final dictionaries, and by nothing else: everything that is not a terminal id
      or a session value stays as it is. */
  lemma ScrubbedByDictionary(v: Json)
    requires WellFormed(v)
    ensures ScrubIds(v, None, NONE).1 == Dictionary(v)
    ensures Scrubbed(v) == MapIds(v, None, Dictionary(v))
  {
    ScrubIsMap(v, None, NONE, Dictionary(v));
  }

  lemma DictionaryInjective(kind: Kind, values: seq<string>)
    ensures InjectiveOn(NumberAll(kind, map[], values), values)
  {
    NumberedAll(kind, map[], values);
    NumberedKeys(kind, values);
  }

  /** Between any two places of the tree that hold an identifier of one kind, the pass keeps and
      reflects equality. */
  lemma EqualityKept(v: Json, kind: Kind, i: nat, j: nat)
    requires WellFormed(v) && !kind.Project? && i < |IdList(kind, v)| && j < |IdList(kind, v)|
    ensures |IdList(kind, Scrubbed(v))| == |IdList(kind, v)|
    ensures IdList(kind, Scrubbed(v))[i] == IdList(kind, Scrubbed(v))[j] <==> IdList(kind, v)[i] == IdList(kind, v)[j]
  {
    ScrubbedByDictionary(v);
    MapListed(kind, v, None, Dictionary(v));
    DictionaryInjective(kind, IdList(kind, v));
  }

  /** The result does not depend on what the identifiers were: any injective renaming of the input's ids
      gives the same sanitized tree. */
  lemma NamesForgotten(v: Json, g: Ids)
    requires WellFormed(v)
    requires InjectiveOn(g.sessions, IdList(Session, v)) && InjectiveOn(g.terminals, IdList(Terminal, v))
    ensures WellFormed(MapIds(v, None, g))
    ensures Scrubbed(MapIds(v, None, g)) == Scrubbed(v)
  {
    MapWellFormed(v, None, g);
    var w := MapIds(v, None, g);
    ScrubbedByDictionary(v);
    ScrubbedByDictionary(w);
    MapListed(Session, v, None, g);
    MapListed(Terminal, v, None, g);
    NumberRenamed(Session, g.sessions, IdList(Session, v));
    NumberRenamed(Terminal, g.terminals, IdList(Terminal, v));
    MapCompose(v, None, None, Dictionary(v), g, Dictionary(w));
  }

  /** Applying the pass again changes nothing. */
  lemma ScrubTwice(v: Json)
    requires WellFormed(v)
    ensures Scrubbed(Scrubbed(v)) == Scrubbed(v)
  {
    ScrubbedByDictionary(v);
    DictionaryInjective(Session, IdList(Session, v));
    DictionaryInjective(Terminal, IdList(Terminal, v));
    NamesForgotten(v, Dictionary(v));
  }

  lemma {:induction false} MapWellFormed(v: Json, own: Option<string>, g: Ids)
    requires WellFormed(v)
    ensures WellFormed(MapIds(v, own, g))
    decreases v, 2
  {
    match v
    case Arr(items) => MapItemsWellFormed(items, g);
    case Obj(fields) =>
      var slots := SlotsBy(fields, g);
      MapKeepsKeys(fields, own, slots, g);
      MapFieldsWellFormed(fields, own, slots, g);
    case _ =>
  }

  lemma {:induction false} MapItemsWellFormed(items: seq<Json>, g: Ids)
    requires forall x | x in items :: WellFormed(x)
    ensures forall x | x in MapItems(items, g) :: WellFormed(x)
    decreases items, 1
  {
    if items != [] {
      MapItemsWellFormed(items[..|items| - 1], g);
      MapWellFormed(items[|items| - 1], None, g);
    }
  }

  lemma {:induction false} MapFieldsWellFormed(fields: seq<Field>, own: Option<string>, slots: Slots, g: Ids)
    requires forall f | f in fields :: WellFormed(f.value)
    ensures forall f | f in MapFields(fields, own, slots, g) :: WellFormed(f.value)
    decreases fields, 1
  {
    if fields != [] {
      var n := |fields| - 1;
      MapFieldsWellFormed(fields[..n], own, slots, g);
      MapWellFormed(fields[n].value, if fields[n].key == "agent_session" then slots.session else None, g);
    }
  }
}
