/** Workspaces and their tokens through the first two passes: neither pass can make tokens conform or keep them
    from conforming. */
module TokenPasses {
  import opened FixtureSchema
  import opened Json
  import opened PathRenaming
  import opened Patterns
  import opened Prelude
  import opened Relabelling
  import opened Renaming
  import opened Sanitize
  import opened Stages
  import opened Validator

  // The workspaces of a document, and what they hold under "tokens".

  /** The items of a collection, none if it is absent. */
  function ItemsOf(fields: seq<Field>, name: string): seq<Json> {
    var v := Get(fields, name);
    if v.Some? && v.value.Arr? then v.value.items else []
  }

  function SpacesOf(doc: Json): seq<Json> {
    if doc.Obj? then SpacesIn(Get(doc.fields, "snapshot")) else []
  }

  function SpacesIn(snapshot: Option<Json>): seq<Json> {
    if snapshot.Some? && snapshot.value.Obj? then ItemsOf(snapshot.value.fields, "workspaces") else []
  }

  function TokensOf(space: Json): Option<Json> {
    if space.Obj? then Get(space.fields, "tokens") else None
  }

  ghost predicate TokensFine(space: Json) {
    TokensOf(space).Some? ==> Conforms(Checker.Tokens(TOKEN_RULES), TokensOf(space).value)
  }

  /** The tokens of every workspace satisfy the schema. */
  ghost predicate TokensAccepted(doc: Json) {
    forall x | x in SpacesOf(doc) :: TokensFine(x)
  }

  // Token rules look at strings that no pass changes.

  predicate TokenRule(c: Checker) {
    c == StatusOrLabel || c == Match(DecimalCount)
  }

  predicate TokenRules(rules: map<string, Checker>) {
    && (forall k | k in rules :: TokenRule(rules[k]))
    && "terminal_id" !in rules && "agent_session" !in rules
  }

  lemma FixtureTokenRules()
    ensures TokenRules(TOKEN_RULES)
  {
    assert |"terminal_id"| == 11 && |"agent_session"| == 13;
    assert |"att_blocked"| == 11 && "att_blocked"[0] != "terminal_id"[0];
    assert forall k | k in TOKEN_RULES :: |k| < 11 || k == "att_blocked";
  }

  lemma PathyIsNoToken(c: Checker, s: string)
    requires TokenRule(c) && Pathy(s)
    ensures !Conforms(c, Str(s))
  {
    PathyStart(s);
    if Matches(Label, s) {
      LabelStart(s);
    }
    assert forall w | w in STATUS_WORDS :: w[0] != '/' && w[0] != '~';
  }

  lemma LabelStart(s: string)
    requires Matches(Label, s)
    ensures s != "" && (s[0] == 's' || s[0] == 't')
  {
    if Prefixed(s, SPACE_PREFIX) {
      assert s[0] == s[..|SPACE_PREFIX|][0];
    } else if Prefixed(s, "space-x-") {
      assert s[0] == s[..8][0];
    } else {
      assert s[0] == s[..|TAB_PREFIX|][0];
    }
  }

  lemma TokenThroughPaths(c: Checker, v: Json, g: Names)
    requires TokenRule(c)
    ensures Conforms(c, MapPaths(v, g)) <==> Conforms(c, v)
  {
    if v.Str? {
      MapPathIsPathy(v.s, g);
      if Pathy(v.s) {
        PathyIsNoToken(c, v.s);
        PathyIsNoToken(c, MapPath(v.s, g));
      }
    }
  }

  lemma TokenThroughIds(c: Checker, v: Json, g: Ids)
    requires TokenRule(c)
    ensures Conforms(c, MapIds(v, None, g)) <==> Conforms(c, v)
  {
    MapKeepsShape(v, None, g);
  }

  /** Field by field, two token objects are accepted or refused alike. */
  ghost predicate Alike(rules: map<string, Checker>, a: Field, b: Field) {
    a.key == b.key && (a.key in rules ==> (Conforms(rules[a.key], a.value) <==> Conforms(rules[b.key], b.value)))
  }

  lemma AlikeTokens(rules: map<string, Checker>, a: seq<Field>, b: seq<Field>)
    requires |a| == |b| && forall i | 0 <= i < |a| :: Alike(rules, a[i], b[i])
    ensures Conforms(Checker.Tokens(rules), Obj(a)) <==> Conforms(Checker.Tokens(rules), Obj(b))
  {
    if Conforms(Checker.Tokens(rules), Obj(a)) {
      forall g | g in b
        ensures g.key in rules && Conforms(rules[g.key], g.value)
      {
        var i :| 0 <= i < |b| && b[i] == g;
        assert Alike(rules, a[i], b[i]) && a[i] in a;
      }
    }
    if Conforms(Checker.Tokens(rules), Obj(b)) {
      forall f | f in a
        ensures f.key in rules && Conforms(rules[f.key], f.value)
      {
        var i :| 0 <= i < |a| && a[i] == f;
        assert Alike(rules, a[i], b[i]) && b[i] in b;
      }
    }
  }

  lemma MapPathsShape(v: Json, g: Names)
    ensures (MapPaths(v, g).Obj? <==> v.Obj?) && (MapPaths(v, g).Null? <==> v.Null?)
    ensures v.Obj? ==> MapPaths(v, g) == Obj(MapPathFields(v.fields, g))
  {
  }

  lemma FieldThroughPaths(rules: map<string, Checker>, fields: seq<Field>, g: Names, i: nat)
    requires TokenRules(rules) && i < |fields|
    ensures Alike(rules, MapPathFields(fields, g)[i], fields[i])
  {
    MapPathFieldsAt(fields, g, i);
    if fields[i].key in rules {
      TokenThroughPaths(rules[fields[i].key], fields[i].value, g);
    }
  }

  lemma TokensThroughPaths(rules: map<string, Checker>, v: Json, g: Names)
    requires TokenRules(rules)
    ensures Conforms(Checker.Tokens(rules), MapPaths(v, g)) <==> Conforms(Checker.Tokens(rules), v)
  {
    MapPathsShape(v, g);
    if v.Obj? {
      forall i | 0 <= i < |v.fields|
        ensures Alike(rules, MapPathFields(v.fields, g)[i], v.fields[i])
      {
        FieldThroughPaths(rules, v.fields, g, i);
      }
      AlikeTokens(rules, MapPathFields(v.fields, g), v.fields);
    }
  }

  lemma TokensThroughIds(rules: map<string, Checker>, v: Json, g: Ids)
    requires TokenRules(rules)
    ensures Conforms(Checker.Tokens(rules), MapIds(v, None, g)) <==> Conforms(Checker.Tokens(rules), v)
  {
    if v.Obj? {
      var slots := SlotsBy(v.fields, g);
      forall i | 0 <= i < |v.fields|
        ensures Alike(rules, MapFields(v.fields, None, slots, g)[i], v.fields[i])
      {
        MapFieldsAt(v.fields, None, slots, g, i);
        if v.fields[i].key in rules {
          TokenThroughIds(rules[v.fields[i].key], v.fields[i].value, g);
        }
      }
      AlikeTokens(rules, MapFields(v.fields, None, slots, g), v.fields);
    }
  }

  // The workspaces after a pass are the workspaces before it, each through the pass.

  lemma MapPathsGet(fields: seq<Field>, g: Names, key: string)
    requires DistinctKeys(fields)
    ensures var was, now := Get(fields, key), Get(MapPathFields(fields, g), key);
            (was.Some? <==> now.Some?) && (was.Some? ==> now.value == MapPaths(was.value, g))
  {
    var after := MapPathFields(fields, g);
    SameKeys(fields, after);
    var i := Find(fields, key);
    if i < |fields| {
      MapPathFieldsAt(fields, g, i);
      GetOf(after, i);
    }
  }

  lemma ItemsThroughPaths(fields: seq<Field>, g: Names, name: string)
    requires DistinctKeys(fields)
    ensures ItemsOf(MapPathFields(fields, g), name) == MapPathItems(ItemsOf(fields, name), g)
  {
    MapPathsGet(fields, g, name);
  }

  lemma SpacesThroughPaths(doc: Json, g: Names)
    requires WellFormed(doc)
    ensures SpacesOf(MapPaths(doc, g)) == MapPathItems(SpacesOf(doc), g)
  {
    if doc.Obj? {
      MapPathsGet(doc.fields, g, "snapshot");
      var was := Get(doc.fields, "snapshot");
      if was.Some? && was.value.Obj? {
        GetField(doc.fields, "snapshot");
        assert WellFormed(was.value);
        ItemsThroughPaths(was.value.fields, g, "workspaces");
      }
    }
  }

  lemma NamesApartFromIds()
    ensures {"snapshot", "workspaces", "tokens"} !! {"terminal_id", "agent_session", "value"}
  {
    assert |"snapshot"| == 8 && |"workspaces"| == 10 && |"tokens"| == 6;
    assert |"terminal_id"| == 11 && |"agent_session"| == 13 && |"value"| == 5;
  }

  lemma ItemsThroughIds(fields: seq<Field>, g: Ids, name: string)
    requires DistinctKeys(fields) && name !in {"terminal_id", "agent_session", "value"}
    ensures ItemsOf(MapFields(fields, None, SlotsBy(fields, g), g), name) == MapItems(ItemsOf(fields, name), g)
  {
    MapGet(fields, None, SlotsBy(fields, g), g, name);
  }

  lemma SpacesThroughIds(doc: Json, g: Ids)
    requires WellFormed(doc)
    ensures SpacesOf(MapIds(doc, None, g)) == MapItems(SpacesOf(doc), g)
  {
    if doc.Obj? {
      NamesApartFromIds();
      MapGet(doc.fields, None, SlotsBy(doc.fields, g), g, "snapshot");
      var was := Get(doc.fields, "snapshot");
      if was.Some? && was.value.Obj? {
        GetField(doc.fields, "snapshot");
        assert WellFormed(was.value);
        ItemsThroughIds(was.value.fields, g, "workspaces");
      }
    }
  }

  lemma SpaceThroughPaths(space: Json, g: Names)
    requires WellFormed(space)
    ensures TokensFine(MapPaths(space, g)) <==> TokensFine(space)
  {
    if space.Obj? {
      MapPathsGet(space.fields, g, "tokens");
      if TokensOf(space).Some? {
        FixtureTokenRules();
        TokensThroughPaths(TOKEN_RULES, TokensOf(space).value, g);
      }
    }
  }

  lemma SpaceThroughIds(space: Json, g: Ids)
    requires WellFormed(space)
    ensures TokensFine(MapIds(space, None, g)) <==> TokensFine(space)
  {
    if space.Obj? {
      NamesApartFromIds();
      MapGet(space.fields, None, SlotsBy(space.fields, g), g, "tokens");
      if TokensOf(space).Some? {
        FixtureTokenRules();
        TokensThroughIds(TOKEN_RULES, TokensOf(space).value, g);
      }
    }
  }

  lemma SpacesWellFormed(doc: Json)
    requires WellFormed(doc)
    ensures forall x | x in SpacesOf(doc) :: WellFormed(x)
  {
    if doc.Obj? && Get(doc.fields, "snapshot").Some? {
      GetField(doc.fields, "snapshot");
      var snapshot := Get(doc.fields, "snapshot").value;
      if snapshot.Obj? && Get(snapshot.fields, "workspaces").Some? {
        GetField(snapshot.fields, "workspaces");
        assert WellFormed(Get(snapshot.fields, "workspaces").value);
      }
    }
  }

  /** The path pass keeps the number of workspaces, and whether all their tokens conform. */
  lemma PathsKeepTokens(doc: Json, g: Names)
    requires WellFormed(doc)
    ensures |SpacesOf(MapPaths(doc, g))| == |SpacesOf(doc)|
    ensures TokensAccepted(MapPaths(doc, g)) <==> TokensAccepted(doc)
  {
    SpacesThroughPaths(doc, g);
    SpacesWellFormed(doc);
    var was, now := SpacesOf(doc), SpacesOf(MapPaths(doc, g));
    forall i | 0 <= i < |was|
      ensures TokensFine(now[i]) <==> TokensFine(was[i])
    {
      MapPathItemsAt(was, g, i);
      SpaceThroughPaths(was[i], g);
    }
    AllFine(was, now);
  }

  /** So does the identifier pass. */
  lemma IdsKeepTokens(doc: Json, g: Ids)
    requires WellFormed(doc)
    ensures |SpacesOf(MapIds(doc, None, g))| == |SpacesOf(doc)|
    ensures TokensAccepted(MapIds(doc, None, g)) <==> TokensAccepted(doc)
  {
    SpacesThroughIds(doc, g);
    SpacesWellFormed(doc);
    var was, now := SpacesOf(doc), SpacesOf(MapIds(doc, None, g));
    forall i | 0 <= i < |was|
      ensures TokensFine(now[i]) <==> TokensFine(was[i])
    {
      MapItemsAt(was, g, i);
      SpaceThroughIds(was[i], g);
    }
    AllFine(was, now);
  }

  lemma AllFine(was: seq<Json>, now: seq<Json>)
    requires |was| == |now| && forall i | 0 <= i < |was| :: TokensFine(now[i]) <==> TokensFine(was[i])
    ensures (forall x | x in now :: TokensFine(x)) <==> forall x | x in was :: TokensFine(x)
  {
    if forall x | x in was :: TokensFine(x) {
      forall x | x in now ensures TokensFine(x) {
        var i :| 0 <= i < |now| && now[i] == x;
        assert was[i] in was;
      }
    }
    if forall x | x in now :: TokensFine(x) {
      forall x | x in was ensures TokensFine(x) {
        var i :| 0 <= i < |was| && was[i] == x;
        assert now[i] in now;
      }
    }
  }
}
