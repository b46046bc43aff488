/** What the leaf checkers and the patterns accept, checker by checker and piece by piece. */
module Leaves {
  import opened Decimal
  import opened Json
  import opened Patterns
  import opened Validator

  /** The meaning of every leaf checker of the fixture schema. */
  lemma LeavesExactly(v: Json, s: string, words: set<string>, p: Pattern)
    ensures Conforms(AnyNumber, v) <==> v.Num?
    ensures Conforms(AnyBool, v) <==> v.Bool?
    ensures Conforms(AnyString, v) <==> v.Str?
    ensures Conforms(Literal(s), v) <==> v == Str(s)
    ensures Conforms(OneOf(words), v) <==> exists w :: w in words && v == Str(w)
    ensures Conforms(NullOrOneOf(words), v) <==> v == Null || exists w :: w in words && v == Str(w)
    ensures Conforms(Match(p), v) <==> v.Str? && Matches(p, v.s)
    ensures Conforms(StatusOrLabel, v)
       <==> v.Str? && (Matches(Label, v.s) || v.s in {"working", "blocked", "done", "idle", "unknown", "none"})
  {
  }

  /** What a leaf checker reports: nothing for a value that conforms; otherwise one violation at the value's own path,
      of the wrong type if the value is of another kind and of the wrong value if not. */
  lemma LeafReport(c: Checker, path: Path, v: Json)
    requires IsLeaf(c)
    ensures Conforms(c, v) ==> Check(c, path, v) == multiset{}
    ensures !Conforms(c, v) ==>
              var kindFits := match c
                              case AnyNumber => v.Num?
                              case AnyBool => v.Bool?
                              case NullOrOneOf(_) => v.Str?
                              case _ => v.Str?;
              Check(c, path, v) == multiset{Violation(path, if kindFits then WrongValue(c) else WrongType(c))}
    ensures c.AnyNumber? || c.AnyBool? || c.AnyString? ==> Violation(path, WrongValue(c)) !in Check(c, path, v)
  {
    LeafComplaint(c, v);
  }

  // The patterns, as concatenations.

  /** At least one decimal digit, and nothing else. */
  predicate Number(d: string) {
    d != "" && forall i | 0 <= i < |d| :: '0' <= d[i] <= '9'
  }

  /** At least one capital letter or decimal digit, and nothing else. */
  predicate Suffixed(x: string) {
    x != "" && forall i | 0 <= i < |x| :: ('A' <= x[i] <= 'Z') || ('0' <= x[i] <= '9')
  }

  /** At least one small letter, and nothing else. */
  predicate Small(x: string) {
    x != "" && forall i | 0 <= i < |x| :: 'a' <= x[i] <= 'z'
  }

  lemma PrefixSplits(s: string, prefix: string)
    requires Prefixed(s, prefix)
    ensures s == prefix + s[|prefix|..]
  {
  }

  lemma PrefixJoins(prefix: string, rest: string)
    ensures Prefixed(prefix + rest, prefix) && (prefix + rest)[|prefix|..] == rest
  {
  }

  lemma CountPattern(s: string)
    ensures Matches(DecimalCount, s) <==> Number(s)
  {
  }

  lemma WorkspaceIdPattern(s: string)
    ensures Matches(WorkspaceId, s) <==> exists d :: Number(d) && s == "w" + d
  {
    if Matches(WorkspaceId, s) {
      assert s == "w" + s[1..] && Number(s[1..]);
    }
    if d :| Number(d) && s == "w" + d {
      assert s[1..] == d;
    }
  }

  lemma ScopedSplits(s: string, kind: char)
    requires Scoped(s, kind)
    ensures exists d, x :: Number(d) && Suffixed(x) && s == "w" + d + ":" + [kind] + x
  {
    var i :| 2 <= i < |s| - 2
      && s[0] == 'w' && AllDigits(s[1..i]) && s[i] == ':' && s[i + 1] == kind && AllSuffix(s[i + 2..]);
    var d, x := s[1..i], s[i + 2..];
    assert s == "w" + d + ":" + [kind] + x;
    assert Number(d) && Suffixed(x);
  }

  lemma ScopedJoins(d: string, x: string, kind: char)
    requires Number(d) && Suffixed(x)
    ensures Scoped("w" + d + ":" + [kind] + x, kind)
  {
    var s, i := "w" + d + ":" + [kind] + x, |d| + 1;
    assert s[1..i] == d && s[i + 2..] == x;
    assert s[0] == 'w' && s[i] == ':' && s[i + 1] == kind;
  }

  lemma TabIdPattern(s: string)
    ensures Matches(TabId, s) <==> exists d, x :: Number(d) && Suffixed(x) && s == "w" + d + ":" + ['t'] + x
  {
    if Matches(TabId, s) {
      ScopedSplits(s, 't');
    }
    if d, x :| Number(d) && Suffixed(x) && s == "w" + d + ":" + ['t'] + x {
      ScopedJoins(d, x, 't');
    }
  }

  lemma PaneIdPattern(s: string)
    ensures Matches(PaneId, s) <==> exists d, x :: Number(d) && Suffixed(x) && s == "w" + d + ":" + ['p'] + x
  {
    if Matches(PaneId, s) {
      ScopedSplits(s, 'p');
    }
    if d, x :| Number(d) && Suffixed(x) && s == "w" + d + ":" + ['p'] + x {
      ScopedJoins(d, x, 'p');
    }
  }

  lemma ProjectPathPattern(s: string)
    ensures Matches(ProjectPath, s) <==> exists d :: Number(d) && s == "/Users/user/projects/proj" + d
  {
    if Matches(ProjectPath, s) {
      PrefixSplits(s, "/Users/user/projects/proj");
      assert Number(s[|PROJECT_PREFIX|..]);
    }
    if d :| Number(d) && s == "/Users/user/projects/proj" + d {
      PrefixJoins("/Users/user/projects/proj", d);
    }
  }

  lemma TerminalIdPattern(s: string)
    ensures Matches(TerminalId, s) <==> exists d :: Number(d) && |d| == 12 && s == "term_" + d
  {
    if Matches(TerminalId, s) {
      PrefixSplits(s, "term_");
      assert Number(s[|TERMINAL_PREFIX|..]);
    }
    if d :| Number(d) && |d| == 12 && s == "term_" + d {
      PrefixJoins("term_", d);
    }
  }

  lemma SessionUuidPattern(s: string)
    ensures Matches(SessionUuid, s) <==> exists d :: Number(d) && |d| == 12 && s == "00000000-0000-4000-8000-" + d
  {
    if Matches(SessionUuid, s) {
      PrefixSplits(s, "00000000-0000-4000-8000-");
      assert Number(s[|SESSION_PREFIX|..]);
    }
    if d :| Number(d) && |d| == 12 && s == "00000000-0000-4000-8000-" + d {
      PrefixJoins("00000000-0000-4000-8000-", d);
    }
  }

  lemma LabelPattern(s: string)
    ensures Matches(Label, s)
       <==> || (exists x :: Small(x) && s == "space-" + x)
            || (exists x :: Small(x) && s == "space-x-" + x)
            || (exists d :: Number(d) && s == "tab-" + d)
  {
    SpacePart(s);
    SpaceXPart(s);
    TabPart(s);
  }

  lemma SpacePart(s: string)
    ensures Prefixed(s, SPACE_PREFIX) && |s| > 6 && AllLower(s[6..]) <==> exists x :: Small(x) && s == "space-" + x
  {
    if Prefixed(s, SPACE_PREFIX) && |s| > 6 && AllLower(s[6..]) {
      PrefixSplits(s, "space-");
      assert Small(s[6..]);
    }
    if x :| Small(x) && s == "space-" + x {
      PrefixJoins("space-", x);
    }
  }

  lemma SpaceXPart(s: string)
    ensures Prefixed(s, "space-x-") && |s| > 8 && AllLower(s[8..]) <==> exists x :: Small(x) && s == "space-x-" + x
  {
    if Prefixed(s, "space-x-") && |s| > 8 && AllLower(s[8..]) {
      PrefixSplits(s, "space-x-");
      assert Small(s[8..]);
    }
    if x :| Small(x) && s == "space-x-" + x {
      PrefixJoins("space-x-", x);
    }
  }

  lemma TabPart(s: string)
    ensures Prefixed(s, TAB_PREFIX) && Digits(s[4..]) <==> exists d :: Number(d) && s == "tab-" + d
  {
    if Prefixed(s, TAB_PREFIX) && Digits(s[4..]) {
      PrefixSplits(s, "tab-");
      assert Number(s[4..]);
    }
    if d :| Number(d) && s == "tab-" + d {
      PrefixJoins("tab-", d);
    }
  }

  // Containers and missing fields.

  /** A value of the wrong container kind is one violation at its own path. */
  lemma ContainerReport(path: Path, v: Json, schema: Schema, rules: map<string, Checker>)
    ensures !v.Obj? ==> Check(Object(schema), path, v) == multiset{Violation(path, WrongType(Object(schema)))}
    ensures !v.Arr? ==> Check(ArrayOf(schema), path, v) == multiset{Violation(path, WrongType(ArrayOf(schema)))}
    ensures !v.Obj? && v != Null ==>
              Check(Checker.Tokens(rules), path, v) == multiset{Violation(path, WrongType(Checker.Tokens(rules)))}
    ensures Check(Checker.Tokens(rules), path, Null) == multiset{}
  {
  }

  lemma {:induction false} MissingBelow(c: Checker, path: Path, v: Json, x: Violation)
    requires x in Check(c, path, v) && x.reason == RequiredMissing
    ensures |path| < |x.path|
    decreases v
  {
    match c
    case Object(schema) =>
      if v.Obj? && x in Fields(schema, path, v.fields) {
        MissingBelowFields(schema, path, v.fields, x);
      }
    case ArrayOf(schema) =>
      if v.Arr? {
        MissingBelowItems(schema, path, v.items, x);
      }
    case Tokens(rules) =>
      if v.Obj? {
        MissingBelowTokens(rules, path, v.fields, x);
      }
    case _ =>
  }

  lemma {:induction false} MissingBelowFields(schema: Schema, path: Path, fields: seq<Field>, x: Violation)
    requires x in Fields(schema, path, fields) && x.reason == RequiredMissing
    ensures |path| + 1 < |x.path|
    decreases fields
  {
    var f := fields[0];
    if x in OneField(schema, path, f) {
      MissingBelow(schema.specs[f.key].check, path + [Key(f.key)], f.value, x);
    } else {
      MissingBelowFields(schema, path, fields[1..], x);
    }
  }

  lemma {:induction false} MissingBelowTokens(rules: map<string, Checker>, path: Path, fields: seq<Field>, x: Violation)
    requires x in TokenFields(rules, path, fields) && x.reason == RequiredMissing
    ensures |path| + 1 < |x.path|
    decreases fields
  {
    var f := fields[0];
    if x in OneToken(rules, path, f) {
      MissingBelow(rules[f.key], path + [Key(f.key)], f.value, x);
    } else {
      MissingBelowTokens(rules, path, fields[1..], x);
    }
  }

  lemma {:induction false} MissingBelowItems(schema: Schema, path: Path, items: seq<Json>, x: Violation)
    requires x in Items(schema, path, items) && x.reason == RequiredMissing
    ensures |path| + 1 < |x.path|
    decreases items
  {
    var n := |items| - 1;
    if x in Check(Object(schema), path + [Index(n)], items[n]) {
      MissingBelow(Object(schema), path + [Index(n)], items[n], x);
    } else {
      MissingBelowItems(schema, path, items[..n], x);
    }
  }

  /** A missing name is reported once, under that name, exactly if the schema requires it and the object lacks it. */
  lemma MissingReport(schema: Schema, path: Path, fields: seq<Field>, name: string)
    ensures Check(Object(schema), path, Obj(fields))[Violation(path + [Key(name)], RequiredMissing)]
         == if name in schema.specs && schema.specs[name].required && forall f | f in fields :: f.key != name
            then 1 else 0
  {
    var x := Violation(path + [Key(name)], RequiredMissing);
    if x in Fields(schema, path, fields) {
      MissingBelowFields(schema, path, fields, x);
    }
    assert x in MissingAt(path, MissingNames(schema, fields)) <==> name in MissingNames(schema, fields) by {
      forall other | path + [Key(other)] == path + [Key(name)]
        ensures other == name
      {
        assert (path + [Key(other)])[|path|] == (path + [Key(name)])[|path|];
      }
    }
    assert name in Keys(fields) <==> exists f :: f in fields && f.key == name;
  }
}
