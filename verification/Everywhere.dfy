/** What the path and identifier passes do at every place of a document, however deep. */
module Everywhere {
  import opened Decimal
  import opened Json
  import opened Locality
  import opened Numbering
  import opened PathRenaming
  import opened Patterns
  import opened Prelude
  import opened Relabelling
  import opened Renaming
  import opened Sanitize
  import opened TokenPasses
  import opened Validator

  // Paths.

  /** The path pass works place by place. */
  lemma {:induction false} PathsAt(v: Json, g: Names, p: Path)
    requires WellFormed(v) && Reaches(v, p)
    ensures Reaches(MapPaths(v, g), p) && ValueAt(MapPaths(v, g), p) == MapPaths(ValueAt(v, p), g)
    decreases p
  {
    if p != [] {
      PathsAtChild(v, g, p[0]);
      PathsAt(Child(v, p[0]).value, g, p[1..]);
    }
  }

  lemma PathsAtChild(v: Json, g: Names, part: Part)
    requires WellFormed(v) && Child(v, part).Some?
    ensures WellFormed(Child(v, part).value)
    ensures Child(MapPaths(v, g), part) == Some(MapPaths(Child(v, part).value, g))
  {
    match part
    case Key(k) =>
      GetField(v.fields, k);
      MapPathsGet(v.fields, g, k);
    case Index(i) =>
      assert v.items[i] in v.items;
      MapPathItemsAt(v.items, g, i);
  }

  /** Every string of a document after the path pass: below /Users/ it is a numbered project path, below ~/ the fixed
      placeholder, and anything else is as it was. */
  lemma PathEverywhere(v: Json, p: Path)
    requires WellFormed(v) && Reaches(v, p) && ValueAt(v, p).Str?
    ensures Reaches(Paths(v, map[]).0, p) && ValueAt(Paths(v, map[]).0, p).Str?
    ensures var was, now := ValueAt(v, p).s, ValueAt(Paths(v, map[]).0, p).s;
            && (Prefixed(was, "/Users/") ==> now == "/Users/user/projects/" + Look(PathDictionary(v), Base(was)))
            && (Prefixed(was, "~/") ==> now == "~/projects/app")
            && (!Prefixed(was, "/Users/") && !Prefixed(was, "~/") ==> now == was)
  {
    PathsByDictionary(v);
    PathsAt(v, PathDictionary(v), p);
    PathKinds(ValueAt(v, p).s, PathDictionary(v));
  }

  lemma PathKinds(s: string, g: Names)
    ensures Prefixed(s, "/Users/") ==> MapPath(s, g) == "/Users/user/projects/" + Look(g, Base(s))
    ensures Prefixed(s, "~/") ==> MapPath(s, g) == "~/projects/app"
    ensures !Prefixed(s, "/Users/") && !Prefixed(s, "~/") ==> MapPath(s, g) == s
  {
    FirstOfPrefix(s, "~/");
    FirstOfPrefix(s, "/Users/");
  }

  lemma FirstOfPrefix(s: string, prefix: string)
    requires prefix != ""
    ensures Prefixed(s, prefix) ==> s != "" && s[0] == prefix[0]
  {
    if Prefixed(s, prefix) {
      assert s[..|prefix|][0] == s[0];
    }
  }

  /** The number in a project path is one more than the number of different last segments before its first
      occurrence. */
  lemma ProjectNumber(v: Json, i: nat) returns (d: string)
    requires i < |HomePaths(v)| && Base(HomePaths(v)[i]) !in Bases(HomePaths(v)[..i])
    ensures |HomePaths(Paths(v, map[]).0)| == |HomePaths(v)|
    ensures HomePaths(Paths(v, map[]).0)[i] == "/Users/user/projects/" + ("proj" + d)
    ensures AllDigits(d) && ParseNat(d) == |Distinct(Bases(HomePaths(v)[..i]))| + 1
  {
    d := NumberOfBase(HomePaths(v), i);
    HomeAt(v, i);
    HomeGetsNumber(HomePaths(v)[i], PathDictionary(v), d);
  }

  lemma NumberOfBase(paths: seq<string>, i: nat) returns (d: string)
    requires i < |paths| && Base(paths[i]) !in Bases(paths[..i])
    ensures Look(NumberAll(Project, map[], Bases(paths)), Base(paths[i])) == "proj" + d
    ensures AllDigits(d) && ParseNat(d) == |Distinct(Bases(paths[..i]))| + 1
  {
    BasesUpTo(paths, i);
    d := NumberOf(Project, Bases(paths), i);
  }

  lemma HomeAt(v: Json, i: nat)
    requires i < |HomePaths(v)|
    ensures |HomePaths(Paths(v, map[]).0)| == |HomePaths(v)| && Prefixed(HomePaths(v)[i], HOME)
    ensures HomePaths(Paths(v, map[]).0)[i] == MapPath(HomePaths(v)[i], PathDictionary(v))
  {
    PathsByDictionary(v);
    DictionaryIsPlain(Bases(HomePaths(v)));
    MapPathsListed(v, PathDictionary(v));
    AllHome(v, i);
  }

  lemma BasesUpTo(paths: seq<string>, i: nat)
    requires i < |paths|
    ensures Bases(paths)[..i] == Bases(paths[..i]) && Bases(paths)[i] == Base(paths[i])
  {
    EachUpTo(Base, paths, i);
  }

  lemma EachUpTo(f: string -> string, xs: seq<string>, i: nat)
    requires i < |xs|
    ensures Each(f, xs)[..i] == Each(f, xs[..i]) && Each(f, xs)[i] == f(xs[i])
  {
  }

  lemma HomeGetsNumber(s: string, g: Names, d: string)
    requires Prefixed(s, HOME) && Look(g, Base(s)) == "proj" + d
    ensures MapPath(s, g) == "/Users/user/projects/" + ("proj" + d)
  {
  }

  /** The digits in the placeholder of a value that occurs for the first time. */
  lemma NumberOf(kind: Kind, values: seq<string>, i: nat) returns (d: string)
    requires i < |values| && values[i] !in values[..i]
    ensures Look(NumberAll(kind, map[], values), values[i]) == Prefix(kind) + d
    ensures AllDigits(d) && ParseNat(d) == |Distinct(values[..i])| + 1 && (kind.Project? || |d| >= 12)
  {
    var n := |Distinct(values[..i])| + 1;
    d := if kind.Project? then Itoa(n) else Pad12(n);
    ParseItoa(n);
    Pad12Exact(n);
    FirstOccurrence(kind, values, i);
  }

  // Identifiers.

  /** The identifier pass works place by place: an object stays where it is, with its own identifiers replaced. */
  lemma {:induction false} IdsAt(v: Json, own: Option<string>, g: Ids, p: Path) returns (taken: Option<string>)
    requires WellFormed(v) && (own.Some? ==> v.Obj? && Takes(v.fields, own))
    requires Reaches(v, p) && ValueAt(v, p).Obj?
    ensures Reaches(MapIds(v, own, g), p) && ValueAt(MapIds(v, own, g), p) == MapIds(ValueAt(v, p), taken, g)
    ensures WellFormed(ValueAt(v, p)) && (taken.Some? ==> Takes(ValueAt(v, p).fields, taken))
    decreases p
  {
    taken := own;
    if p != [] {
      var child := Child(v, p[0]).value;
      var given := IdsAtChild(v, own, g, p[0], p[1..]);
      taken := IdsAt(child, given, g, p[1..]);
    }
  }

  lemma IdsAtChild(v: Json, own: Option<string>, g: Ids, part: Part, rest: Path) returns (given: Option<string>)
    requires WellFormed(v) && (own.Some? ==> v.Obj? && Takes(v.fields, own))
    requires Child(v, part).Some? && Reaches(Child(v, part).value, rest) && ValueAt(Child(v, part).value, rest).Obj?
    ensures WellFormed(Child(v, part).value)
    ensures Child(MapIds(v, own, g), part) == Some(MapIds(Child(v, part).value, given, g))
    ensures given.Some? ==> Child(v, part).value.Obj? && Takes(Child(v, part).value.fields, given)
  {
    NoStringOnTheWay(Child(v, part).value, rest);
    match part
    case Key(k) =>
      var i := Find(v.fields, k);
      assert v.fields[i] in v.fields;
      var slots := SlotsBy(v.fields, g);
      GetOf(v.fields, i);
      MapGet(v.fields, own, slots, g, k);
      given := if k == "agent_session" then slots.session else None;
      ReplacedIsString(v.fields, i, own, slots);
      SessionTakes(v.fields, i, slots);
    case Index(i) =>
      assert v.items[i] in v.items;
      MapItemsAt(v.items, g, i);
      given := None;
  }

  lemma NoStringOnTheWay(v: Json, p: Path)
    requires Reaches(v, p) && ValueAt(v, p).Obj?
    ensures !v.Str?
  {
  }

  /** The terminal id of every object, at any depth, is replaced by the one its dictionary has for it. */
  lemma TerminalEverywhere(v: Json, p: Path)
    requires WellFormed(v) && Reaches(v, p) && ValueAt(v, p).Obj?
    ensures Reaches(Scrubbed(v), p) && ValueAt(Scrubbed(v), p).Obj?
    ensures var was, now := ValueAt(v, p).fields, ValueAt(Scrubbed(v), p).fields;
            StringAt(was, "terminal_id").Some? ==>
              StringAt(now, "terminal_id") == Some(Look(Dictionary(v).terminals, StringAt(was, "terminal_id").value))
  {
    ScrubbedByDictionary(v);
    var taken := IdsAt(v, None, Dictionary(v), p);
    MapOwnTerminal(ValueAt(v, p).fields, taken, Dictionary(v));
  }

  /** So is the value of every object's session. */
  lemma SessionEverywhere(v: Json, p: Path)
    requires WellFormed(v) && Reaches(v, p) && ValueAt(v, p).Obj?
    ensures Reaches(Scrubbed(v), p) && ValueAt(Scrubbed(v), p).Obj?
    ensures var was, now := ValueAt(v, p).fields, ValueAt(Scrubbed(v), p).fields;
            SessionSlot(was).Some? ==> SessionSlot(now) == Some(Look(Dictionary(v).sessions, SessionSlot(was).value))
  {
    ScrubbedByDictionary(v);
    var taken := IdsAt(v, None, Dictionary(v), p);
    MapOwnSession(ValueAt(v, p).fields, taken, Dictionary(v));
  }

  /** Every other plain field of every object is as it was. */
  lemma OthersEverywhere(v: Json, p: Path, key: string)
    requires WellFormed(v) && Reaches(v, p) && ValueAt(v, p).Obj? && key !in {"terminal_id", "value", "agent_session"}
    requires Get(ValueAt(v, p).fields, key).Some?
    requires var w := Get(ValueAt(v, p).fields, key).value; !w.Arr? && !w.Obj?
    ensures Reaches(Scrubbed(v), p) && ValueAt(Scrubbed(v), p).Obj?
    ensures Get(ValueAt(Scrubbed(v), p).fields, key) == Get(ValueAt(v, p).fields, key)
  {
    ScrubbedByDictionary(v);
    var taken := IdsAt(v, None, Dictionary(v), p);
    var fields := ValueAt(v, p).fields;
    MapGet(fields, taken, SlotsBy(fields, Dictionary(v)), Dictionary(v), key);
  }

  /** The number in a terminal placeholder is one more than the number of different terminal ids before its first
      occurrence, in at least twelve digits. */
  lemma TerminalNumber(v: Json, i: nat) returns (d: string)
    requires WellFormed(v) && i < |IdList(Terminal, v)| && IdList(Terminal, v)[i] !in IdList(Terminal, v)[..i]
    ensures |IdList(Terminal, Scrubbed(v))| == |IdList(Terminal, v)|
    ensures IdList(Terminal, Scrubbed(v))[i] == "term_" + d
    ensures AllDigits(d) && |d| >= 12 && ParseNat(d) == |Distinct(IdList(Terminal, v)[..i])| + 1
  {
    d := NumberOf(Terminal, IdList(Terminal, v), i);
    ScrubbedByDictionary(v);
    MapListed(Terminal, v, None, Dictionary(v));
  }

  /** The same for sessions. */
  lemma SessionNumber(v: Json, i: nat) returns (d: string)
    requires WellFormed(v) && i < |IdList(Session, v)| && IdList(Session, v)[i] !in IdList(Session, v)[..i]
    ensures |IdList(Session, Scrubbed(v))| == |IdList(Session, v)|
    ensures IdList(Session, Scrubbed(v))[i] == "00000000-0000-4000-8000-" + d
    ensures AllDigits(d) && |d| >= 12 && ParseNat(d) == |Distinct(IdList(Session, v)[..i])| + 1
  {
    d := NumberOf(Session, IdList(Session, v), i);
    ScrubbedByDictionary(v);
    MapListed(Session, v, None, Dictionary(v));
  }
}
