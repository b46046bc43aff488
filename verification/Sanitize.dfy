/** The fixture sanitizer (scripts/sanitize.py), from the decoded tree on: paths, identifiers,
    titles and labels. The functions say what each pass computes; the class does it step by step. */
module Sanitize {
  import opened Decimal
  import opened Json
  import opened Numbering
  import opened Patterns
  import opened Prelude

  // Paths.

  const HOME := "/Users/"
  const TILDE := "~/"
  const PROJECTS := "/Users/user/projects/"
  const TILDE_PLACEHOLDER := "~/projects/app"

  /** The string without its trailing slashes. */
  function StripSlashes(s: string): (r: string)
    ensures r <= s && (r != "" ==> r[|r| - 1] != '/')
    ensures forall i | |r| <= i < |s| :: s[i] == '/'
  {
    if s != "" && s[|s| - 1] == '/' then StripSlashes(s[..|s| - 1]) else s
  }

  /** The longest suffix without a slash. */
  function LastSegment(s: string): (r: string)
    ensures |r| <= |s| && s[|s| - |r|..] == r && '/' !in r
    ensures |r| < |s| ==> s[|s| - |r| - 1] == '/'
  {
    if s == "" || s[|s| - 1] == '/' then "" else LastSegment(s[..|s| - 1]) + [s[|s| - 1]]
  }

  /** The last segment of the path without its trailing slashes, or "root" if there is none. */
  function Base(path: string): (name: string)
    ensures name != "" && '/' !in name
    ensures var p := StripSlashes(path);
            if p == "" then name == "root"
            else name == p[|p| - Min(|p|, |name|)..] && (|name| < |p| ==> p[|p| - |name| - 1] == '/')
  {
    var segment := LastSegment(StripSlashes(path));
    if segment == "" then "root" else segment
  }

  type Names = map<string, string>

  /** A string below /Users/ becomes a numbered project path, one below ~/ a fixed path. */
  function ScrubbedPath(s: string, names: Names): (string, Names) {
    if Prefixed(s, HOME) then
      var more := Next(Project, names, Base(s));
      (PROJECTS + more[Base(s)], more)
    else if Prefixed(s, TILDE) then (TILDE_PLACEHOLDER, names)
    else (s, names)
  }

  function Paths(v: Json, names: Names): (Json, Names)
    decreases v
  {
    match v
    case Str(s) =>
      var (r, more) := ScrubbedPath(s, names);
      (Str(r), more)
    case Arr(items) =>
      var (r, more) := PathsItems(items, names);
      (Arr(r), more)
    case Obj(fields) =>
      var (r, more) := PathsFields(fields, names);
      (Obj(r), more)
    case _ => (v, names)
  }

  function PathsItems(items: seq<Json>, names: Names): (r: (seq<Json>, Names))
    ensures |r.0| == |items|
    decreases items
  {
    if items == [] then ([], names)
    else
      var n := |items| - 1;
      var (before, more) := PathsItems(items[..n], names);
      var (last, most) := Paths(items[n], more);
      (before + [last], most)
  }

  function PathsFields(fields: seq<Field>, names: Names): (r: (seq<Field>, Names))
    ensures |r.0| == |fields| && forall i | 0 <= i < |fields| :: r.0[i].key == fields[i].key
    decreases fields
  {
    if fields == [] then ([], names)
    else
      var n := |fields| - 1;
      var (before, more) := PathsFields(fields[..n], names);
      var (last, most) := Paths(fields[n].value, more);
      (before + [Field(fields[n].key, last)], most)
  }

  // Identifiers.

  datatype Ids = Ids(sessions: Names, terminals: Names)

  /** The string value inside the object's agent_session, if it has one. */
  function SessionSlot(fields: seq<Field>): Option<string> {
    var session := Get(fields, "agent_session");
    if session.Some? && session.value.Obj? then StringAt(session.value.fields, "value") else None
  }

  function StringAt(fields: seq<Field>, key: string): Option<string> {
    var v := Get(fields, key);
    if v.Some? && v.value.Str? then Some(v.value.s) else None
  }

  /** What an object's own identifiers become: its session's value first, then its terminal id. */
  datatype Slots = Slots(session: Option<string>, terminal: Option<string>)

  function Assign(fields: seq<Field>, ids: Ids): (Slots, Ids) {
    var s, t := SessionSlot(fields), StringAt(fields, "terminal_id");
    var sessions := if s.Some? then Next(Session, ids.sessions, s.value) else ids.sessions;
    var terminals := if t.Some? then Next(Terminal, ids.terminals, t.value) else ids.terminals;
    (Slots(if s.Some? then Some(sessions[s.value]) else None,
           if t.Some? then Some(terminals[t.value]) else None),
     Ids(sessions, terminals))
  }

  /** `own` is the replacement for the value field of an agent_session that the enclosing object has
      already renamed. */
  function ScrubIds(v: Json, own: Option<string>, ids: Ids): (Json, Ids)
    decreases v
  {
    match v
    case Arr(items) =>
      var (r, more) := ScrubItems(items, ids);
      (Arr(r), more)
    case Obj(fields) =>
      var (slots, some) := Assign(fields, ids);
      var (r, more) := ScrubFields(fields, own, slots, some);
      (Obj(r), more)
    case _ => (v, ids)
  }

  function ScrubItems(items: seq<Json>, ids: Ids): (r: (seq<Json>, Ids))
    ensures |r.0| == |items|
    decreases items
  {
    if items == [] then ([], ids)
    else
      var n := |items| - 1;
      var (before, more) := ScrubItems(items[..n], ids);
      var (last, most) := ScrubIds(items[n], None, more);
      (before + [last], most)
  }

  function ScrubField(f: Field, own: Option<string>, slots: Slots, ids: Ids): (Json, Ids)
    decreases f
  {
    if own.Some? && f.key == "value" then (Str(own.value), ids)
    else if slots.terminal.Some? && f.key == "terminal_id" then (Str(slots.terminal.value), ids)
    else ScrubIds(f.value, if f.key == "agent_session" then slots.session else None, ids)
  }

  function ScrubFields(fields: seq<Field>, own: Option<string>, slots: Slots, ids: Ids): (r: (seq<Field>, Ids))
    ensures |r.0| == |fields| && forall i | 0 <= i < |fields| :: r.0[i].key == fields[i].key
    decreases fields
  {
    if fields == [] then ([], ids)
    else
      var n := |fields| - 1;
      var (before, more) := ScrubFields(fields[..n], own, slots, ids);
      var (last, most) := ScrubField(fields[n], own, slots, more);
      (before + [Field(fields[n].key, last)], most)
  }

  // Titles and labels.

  function SetField(fields: seq<Field>, key: string, v: Json): seq<Field> {
    var i := Find(fields, key);
    if i < |fields| then fields[i := Field(key, v)] else fields + [Field(key, v)]
  }

  function SetIfPresent(fields: seq<Field>, key: string, v: Json): seq<Field> {
    if key in Keys(fields) then SetField(fields, key, v) else fields
  }

  function Retitled(fields: seq<Field>, generic: string): seq<Field> {
    SetIfPresent(SetIfPresent(fields, "terminal_title", Str(generic)), "terminal_title_stripped", Str(generic))
  }

  /** chr(ord('a') + i): a letter up to 25, something else after that. */
  function Letter(i: nat): (c: char)
    ensures Lower(c) <==> i < 26
    ensures i < 50_000 ==> c as int == 'a' as int + i
  {
    if i < 26 then 'a' + i as char else if i < 50_000 then (97 + i) as char else '?'
  }

  datatype Edit = Titles(generic: string) | SpaceLabel | TabLabel

  function Edited(edit: Edit, i: nat, fields: seq<Field>): seq<Field> {
    match edit
    case Titles(generic) => Retitled(fields, generic)
    case SpaceLabel => SetField(fields, "label", Str("space-" + [Letter(i)]))
    case TabLabel => SetField(fields, "label", Str("tab-" + Itoa(i + 1)))
  }

  function EditedItem(edit: Edit, i: nat, v: Json): Json {
    if v.Obj? then Obj(Edited(edit, i, v.fields)) else v
  }

  function EditedItems(edit: Edit, items: seq<Json>): (r: seq<Json>)
    ensures |r| == |items|
  {
    seq(|items|, i requires 0 <= i < |items| => EditedItem(edit, i, items[i]))
  }

  /** One loop of the script: edit every record of one collection of the snapshot, if it is there. */
  function EditCollection(snapshot: seq<Field>, name: string, edit: Edit): seq<Field> {
    var coll := Get(snapshot, name);
    if coll.Some? && coll.value.Arr? then SetField(snapshot, name, Arr(EditedItems(edit, coll.value.items)))
    else snapshot
  }

  /** The five loops, in the script's order. */
  const EDITS: seq<(string, Edit)> := [
    ("panes", Titles("shell")), ("agents", Titles("agent")), ("tabs", Titles("shell")),
    ("workspaces", SpaceLabel), ("tabs", TabLabel)]

  function EditAll(snapshot: seq<Field>, edits: seq<(string, Edit)>): seq<Field> {
    if edits == [] then snapshot
    else
      var n := |edits| - 1;
      EditCollection(EditAll(snapshot, edits[..n]), edits[n].0, edits[n].1)
  }

  function Relabelled(result: Json): Json {
    if result.Obj? && Get(result.fields, "snapshot").Some? && Get(result.fields, "snapshot").value.Obj? then
      Obj(SetField(result.fields, "snapshot", Obj(EditAll(Get(result.fields, "snapshot").value.fields, EDITS))))
    else result
  }

  /** The whole script after decoding. */
  function Sanitized(result: Json): Json {
    Relabelled(ScrubIds(Paths(result, map[]).0, None, Ids(map[], map[])).0)
  }

  // The script's own way.

  class Sanitizer {
    var names: Names
    var sessionIds: Names
    var terminalIds: Names

    constructor ()
      ensures names == sessionIds == terminalIds == map[]
    {
      names, sessionIds, terminalIds := map[], map[], map[];
    }

    ghost function IdState(): Ids
      reads this
    {
      Ids(sessionIds, terminalIds)
    }

    method Project(path: string) returns (name: string)
      modifies this`names
      ensures names == Next(Numbering.Project, old(names), Base(path)) && name == names[Base(path)]
    {
      var base := LastSegment(StripSlashes(path));
      if base == "" {
        base := "root";
      }
      if base !in names {
        names := names[base := Placeholder(Numbering.Project, |names| + 1)];
      }
      name := names[base];
    }

    method ScrubPaths(node: Json) returns (r: Json)
      modifies this`names
      ensures (r, names) == Paths(node, old(names))
      decreases node
    {
      match node {
        case Obj(fields) =>
          var done: seq<Field> := [];
          for i := 0 to |fields|
            invariant (done, names) == PathsFields(fields[..i], old(names))
          {
            assert fields[..i + 1][..i] == fields[..i];
            var v := ScrubPaths(fields[i].value);
            done := done + [Field(fields[i].key, v)];
          }
          assert fields[..|fields|] == fields;
          r := Obj(done);
        case Arr(items) =>
          var done: seq<Json> := [];
          for i := 0 to |items|
            invariant (done, names) == PathsItems(items[..i], old(names))
          {
            assert items[..i + 1][..i] == items[..i];
            var v := ScrubPaths(items[i]);
            done := done + [v];
          }
          assert items[..|items|] == items;
          r := Arr(done);
        case Str(s) =>
          if Prefixed(s, HOME) {
            var name := Project(s);
            r := Str(PROJECTS + name);
          } else if Prefixed(s, TILDE) {
            r := Str(TILDE_PLACEHOLDER);
          } else {
            r := node;
          }
        case _ =>
          r := node;
      }
    }

    method NextTerminalId(value: string) returns (id: string)
      modifies this`terminalIds
      ensures terminalIds == Next(Terminal, old(terminalIds), value) && id == terminalIds[value]
    {
      if value !in terminalIds {
        terminalIds := terminalIds[value := Placeholder(Terminal, |terminalIds| + 1)];
      }
      id := terminalIds[value];
    }

    method NextSessionUuid(value: string) returns (id: string)
      modifies this`sessionIds
      ensures sessionIds == Next(Session, old(sessionIds), value) && id == sessionIds[value]
    {
      if value !in sessionIds {
        sessionIds := sessionIds[value := Placeholder(Session, |sessionIds| + 1)];
      }
      id := sessionIds[value];
    }

    method ScrubNode(node: Json, own: Option<string>) returns (r: Json)
      modifies this`sessionIds, this`terminalIds
      ensures (r, IdState()) == ScrubIds(node, own, old(IdState()))
      decreases node, 1
    {
      match node {
        case Obj(fields) =>
          var slots := Slots(None, None);
          if SessionSlot(fields).Some? {
            var id := NextSessionUuid(SessionSlot(fields).value);
            slots := slots.(session := Some(id));
          }
          if StringAt(fields, "terminal_id").Some? {
            var id := NextTerminalId(StringAt(fields, "terminal_id").value);
            slots := slots.(terminal := Some(id));
          }
          assert (slots, IdState()) == Assign(fields, old(IdState()));
          var done := ScrubEach(fields, own, slots);
          r := Obj(done);
        case Arr(items) =>
          var done: seq<Json> := [];
          for i := 0 to |items|
            invariant (done, IdState()) == ScrubItems(items[..i], old(IdState()))
          {
            assert items[..i + 1][..i] == items[..i];
            var v := ScrubNode(items[i], None);
            done := done + [v];
          }
          assert items[..|items|] == items;
          r := Arr(done);
        case _ =>
          r := node;
      }
    }

    method ScrubEach(fields: seq<Field>, own: Option<string>, slots: Slots) returns (done: seq<Field>)
      modifies this`sessionIds, this`terminalIds
      ensures (done, IdState()) == ScrubFields(fields, own, slots, old(IdState()))
      decreases fields, 0
    {
      done := [];
      for i := 0 to |fields|
        invariant (done, IdState()) == ScrubFields(fields[..i], own, slots, old(IdState()))
      {
        assert fields[..i + 1][..i] == fields[..i];
        var f := fields[i];
        var v: Json;
        if own.Some? && f.key == "value" {
          v := Str(own.value);
        } else if slots.terminal.Some? && f.key == "terminal_id" {
          v := Str(slots.terminal.value);
        } else {
          v := ScrubNode(f.value, if f.key == "agent_session" then slots.session else None);
        }
        done := done + [Field(f.key, v)];
      }
      assert fields[..|fields|] == fields;
    }

    method Relabel(result: Json) returns (r: Json)
      ensures r == Relabelled(result)
    {
      if !(result.Obj? && Get(result.fields, "snapshot").Some? && Get(result.fields, "snapshot").value.Obj?) {
        return result;
      }
      var snapshot := Get(result.fields, "snapshot").value.fields;
      ghost var start := snapshot;
      for e := 0 to |EDITS|
        invariant snapshot == EditAll(start, EDITS[..e])
      {
        assert EDITS[..e + 1][..e] == EDITS[..e];
        snapshot := EditLoop(snapshot, EDITS[e].0, EDITS[e].1);
      }
      assert EDITS[..|EDITS|] == EDITS;
      r := Obj(SetField(result.fields, "snapshot", Obj(snapshot)));
    }

    method EditLoop(snapshot: seq<Field>, name: string, edit: Edit) returns (r: seq<Field>)
      ensures r == EditCollection(snapshot, name, edit)
    {
      var coll := Get(snapshot, name);
      if coll.None? || !coll.value.Arr? {
        return snapshot;
      }
      var items := coll.value.items;
      for i := 0 to |items|
        invariant |items| == |coll.value.items|
        invariant forall j | 0 <= j < |items| ::
                    items[j] == if j < i then EditedItem(edit, j, coll.value.items[j]) else coll.value.items[j]
      {
        items := items[i := EditedItem(edit, i, items[i])];
      }
      assert items == EditedItems(edit, coll.value.items);
      r := SetField(snapshot, name, Arr(items));
    }

    method Run(result: Json) returns (r: Json)
      requires names == sessionIds == terminalIds == map[]
      modifies this
      ensures r == Sanitized(result)
    {
      var scrubbed := ScrubPaths(result);
      var renamed := ScrubNode(scrubbed, None);
      r := Relabel(renamed);
    }
  }
}
