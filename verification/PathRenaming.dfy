/** The path pass: paths below /Users/ are renamed by their last segment, consistently over the whole tree,
    and a second pass changes nothing. */
module PathRenaming {
  import opened Json
  import opened Numbering
  import opened Patterns
  import opened Renaming
  import opened Sanitize

  // The paths of a tree in the order the pass meets them, and a renaming without a dictionary being built.

  function HomePaths(v: Json): seq<string>
    decreases v
  {
    match v
    case Str(s) => if Prefixed(s, HOME) then [s] else []
    case Arr(items) => ItemPaths(items)
    case Obj(fields) => FieldPaths(fields)
    case _ => []
  }

  function ItemPaths(items: seq<Json>): seq<string>
    decreases items
  {
    if items == [] then [] else ItemPaths(items[..|items| - 1]) + HomePaths(items[|items| - 1])
  }

  function FieldPaths(fields: seq<Field>): seq<string>
    decreases fields
  {
    if fields == [] then [] else FieldPaths(fields[..|fields| - 1]) + HomePaths(fields[|fields| - 1].value)
  }

  function Each(f: string -> string, xs: seq<string>): (r: seq<string>)
    ensures |r| == |xs| && forall i | 0 <= i < |xs| :: r[i] == f(xs[i])
  {
    seq(|xs|, i requires 0 <= i < |xs| => f(xs[i]))
  }

  function Bases(paths: seq<string>): (r: seq<string>)
    ensures |r| == |paths|
  {
    Each(Base, paths)
  }

  function MapPath(s: string, g: Names): string {
    if Prefixed(s, HOME) then PROJECTS + Look(g, Base(s))
    else if Prefixed(s, TILDE) then TILDE_PLACEHOLDER
    else s
  }

  function Mapper(g: Names): string -> string {
    s => MapPath(s, g)
  }

  function MapPathSeq(paths: seq<string>, g: Names): (r: seq<string>)
    ensures |r| == |paths|
  {
    Each(Mapper(g), paths)
  }

  function MapPaths(v: Json, g: Names): Json
    decreases v
  {
    match v
    case Str(s) => Str(MapPath(s, g))
    case Arr(items) => Arr(MapPathItems(items, g))
    case Obj(fields) => Obj(MapPathFields(fields, g))
    case _ => v
  }

  function MapPathItems(items: seq<Json>, g: Names): (r: seq<Json>)
    ensures |r| == |items|
    decreases items
  {
    if items == [] then []
    else MapPathItems(items[..|items| - 1], g) + [MapPaths(items[|items| - 1], g)]
  }

  function MapPathFields(fields: seq<Field>, g: Names): (r: seq<Field>)
    ensures |r| == |fields| && forall i | 0 <= i < |fields| :: r[i].key == fields[i].key
    decreases fields
  {
    if fields == [] then []
    else
      var f := fields[|fields| - 1];
      MapPathFields(fields[..|fields| - 1], g) + [Field(f.key, MapPaths(f.value, g))]
  }

  lemma {:induction false} MapPathFieldsAt(fields: seq<Field>, g: Names, i: nat)
    requires i < |fields|
    ensures MapPathFields(fields, g)[i] == Field(fields[i].key, MapPaths(fields[i].value, g))
  {
    if i < |fields| - 1 {
      MapPathFieldsAt(fields[..|fields| - 1], g, i);
    }
  }

  lemma {:induction false} MapPathItemsAt(items: seq<Json>, g: Names, i: nat)
    requires i < |items|
    ensures MapPathItems(items, g)[i] == MapPaths(items[i], g)
  {
    if i < |items| - 1 {
      MapPathItemsAt(items[..|items| - 1], g, i);
    }
  }

  lemma {:induction false} FieldPathsHave(fields: seq<Field>, i: nat)
    requires i < |fields|
    ensures forall s | s in HomePaths(fields[i].value) :: s in FieldPaths(fields)
  {
    if i < |fields| - 1 {
      FieldPathsHave(fields[..|fields| - 1], i);
    }
  }

  lemma {:induction false} ItemPathsHave(items: seq<Json>, i: nat)
    requires i < |items|
    ensures forall s | s in HomePaths(items[i]) :: s in ItemPaths(items)
  {
    if i < |items| - 1 {
      ItemPathsHave(items[..|items| - 1], i);
    }
  }

  // The pass numbers the listed paths' last segments and renames by the final dictionary.

  lemma BasesAppend(a: seq<string>, b: seq<string>)
    ensures Bases(a + b) == Bases(a) + Bases(b)
  {
    EachAppend(Base, a, b);
  }

  lemma EachAppend(f: string -> string, a: seq<string>, b: seq<string>)
    ensures Each(f, a + b) == Each(f, a) + Each(f, b)
  {
  }

  lemma NumberMore(names: Names, a: seq<string>, b: seq<string>)
    ensures NumberAll(Project, names, Bases(a + b)) == NumberAll(Project, NumberAll(Project, names, Bases(a)), Bases(b))
    ensures Extends(NumberAll(Project, names, Bases(a)), NumberAll(Project, names, Bases(a + b)))
  {
    BasesAppend(a, b);
    NumberAppend(Project, names, Bases(a), Bases(b));
    NumberExtends(Project, NumberAll(Project, names, Bases(a)), Bases(b));
  }

  lemma {:induction false} PathsIsMap(v: Json, names: Names, g: Names)
    ensures Paths(v, names).1 == NumberAll(Project, names, Bases(HomePaths(v)))
    ensures Extends(Paths(v, names).1, g) ==> Paths(v, names).0 == MapPaths(v, g)
    decreases v
  {
    match v
    case Arr(items) => PathItemsIsMap(items, names, g);
    case Obj(fields) => PathFieldsIsMap(fields, names, g);
    case _ => LeafPathsIsMap(v, names, g);
  }

  lemma LeafIsMap(s: string, names: Names, g: Names)
    ensures ScrubbedPath(s, names).1 == NumberAll(Project, names, Bases(HomePaths(Str(s))))
    ensures Extends(ScrubbedPath(s, names).1, g) ==> ScrubbedPath(s, names).0 == MapPath(s, g)
  {
    if Prefixed(s, HOME) {
      OneBase(s);
      NumberOne(Project, names, Base(s));
      NumberedOne(names, Base(s), g);
    }
  }

  lemma LeafPathsIsMap(v: Json, names: Names, g: Names)
    requires !v.Arr? && !v.Obj?
    ensures Paths(v, names).1 == NumberAll(Project, names, Bases(HomePaths(v)))
    ensures Extends(Paths(v, names).1, g) ==> Paths(v, names).0 == MapPaths(v, g)
  {
    if v.Str? {
      LeafIsMap(v.s, names, g);
      var (r, more) := ScrubbedPath(v.s, names);
      assert Paths(v, names) == (Str(r), more) && MapPaths(v, g) == Str(MapPath(v.s, g));
    }
  }

  lemma OneBase(s: string)
    requires Prefixed(s, HOME)
    ensures Bases(HomePaths(Str(s))) == [Base(s)]
  {
  }

  lemma NumberedOne(names: Names, base: string, g: Names)
    ensures Extends(Next(Project, names, base), g) ==> Next(Project, names, base)[base] == Look(g, base)
  {
    assert base in Next(Project, names, base);
  }

  lemma {:induction false} PathItemsIsMap(items: seq<Json>, names: Names, g: Names)
    ensures PathsItems(items, names).1 == NumberAll(Project, names, Bases(ItemPaths(items)))
    ensures Extends(PathsItems(items, names).1, g) ==> PathsItems(items, names).0 == MapPathItems(items, g)
    decreases items
  {
    if items != [] {
      var n := |items| - 1;
      PathItemsIsMap(items[..n], names, g);
      PathsIsMap(items[n], PathsItems(items[..n], names).1, g);
      NumberMore(names, ItemPaths(items[..n]), HomePaths(items[n]));
    }
  }

  lemma {:induction false} PathFieldsIsMap(fields: seq<Field>, names: Names, g: Names)
    ensures PathsFields(fields, names).1 == NumberAll(Project, names, Bases(FieldPaths(fields)))
    ensures Extends(PathsFields(fields, names).1, g) ==> PathsFields(fields, names).0 == MapPathFields(fields, g)
    decreases fields
  {
    if fields != [] {
      var n := |fields| - 1;
      PathFieldsIsMap(fields[..n], names, g);
      PathsIsMap(fields[n].value, PathsFields(fields[..n], names).1, g);
      NumberMore(names, FieldPaths(fields[..n]), HomePaths(fields[n].value));
    }
  }

  // Placeholders are paths whose last segment is the placeholder.

  lemma BaseOfProject(name: string)
    requires name != "" && '/' !in name
    ensures Base(PROJECTS + name) == name && Prefixed(PROJECTS + name, HOME)
  {
    assert PROJECTS[|PROJECTS| - 1] == '/' && PROJECTS[..|HOME|] == HOME;
    assert (PROJECTS + name)[..|HOME|] == PROJECTS[..|HOME|];
    SegmentAfter(PROJECTS, name);
  }

  lemma SegmentAfter(dir: string, name: string)
    requires dir != "" && dir[|dir| - 1] == '/' && name != "" && '/' !in name
    ensures Base(dir + name) == name
  {
    var p := dir + name;
    assert p[|p| - 1] == name[|name| - 1];
    assert StripSlashes(p) == p;
    LongestSuffix(dir, name, |p| - |LastSegment(p)|);
  }

  /** Only one suffix of a path is slash-free and cannot be made longer. */
  lemma LongestSuffix(dir: string, name: string, k: nat)
    requires dir != "" && dir[|dir| - 1] == '/' && '/' !in name && k <= |dir + name|
    requires '/' !in (dir + name)[k..] && (k > 0 ==> (dir + name)[k - 1] == '/')
    ensures (dir + name)[k..] == name
  {
    var p := dir + name;
    assert p[|dir| - 1] == '/';
    assert forall i | |dir| <= i < |p| :: p[i] == name[i - |dir|] != '/';
    assert forall i | k <= i < |p| :: p[i] == p[k..][i - k] != '/';
    assert k == |dir|;
  }

  /** A renaming that gives every listed segment a name a segment can have. */
  predicate Plain(g: Names, bases: seq<string>) {
    forall x | x in bases :: Look(g, x) != "" && '/' !in Look(g, x)
  }

  lemma MapPathListed(s: string, g: Names)
    requires Prefixed(s, HOME) ==> Plain(g, [Base(s)])
    ensures Prefixed(MapPath(s, g), HOME) <==> Prefixed(s, HOME)
    ensures Prefixed(s, HOME) ==> Base(MapPath(s, g)) == Look(g, Base(s))
  {
    if Prefixed(s, HOME) {
      assert Base(s) in [Base(s)];
      BaseOfProject(Look(g, Base(s)));
    } else if Prefixed(s, TILDE) {
      assert TILDE_PLACEHOLDER[..|HOME|][0] == '~' && HOME[0] == '/';
    }
  }

  lemma MapLeafListed(s: string, g: Names)
    requires Plain(g, Bases(HomePaths(Str(s))))
    ensures HomePaths(Str(MapPath(s, g))) == MapPathSeq(HomePaths(Str(s)), g)
  {
    if Prefixed(s, HOME) {
      assert Bases([s]) == [Base(s)];
    }
    MapPathListed(s, g);
  }

  lemma ListedBases(a: seq<string>, b: seq<string>)
    ensures forall x | x in Bases(a) || x in Bases(b) :: x in Bases(a + b)
  {
    BasesAppend(a, b);
  }

  lemma MapPathSeqAppend(a: seq<string>, b: seq<string>, g: Names)
    ensures MapPathSeq(a + b, g) == MapPathSeq(a, g) + MapPathSeq(b, g)
  {
    EachAppend(Mapper(g), a, b);
  }

  lemma ItemPathsAppend(items: seq<Json>, x: Json)
    ensures ItemPaths(items + [x]) == ItemPaths(items) + HomePaths(x)
  {
    assert (items + [x])[..|items|] == items;
  }

  lemma FieldPathsAppend(fields: seq<Field>, f: Field)
    ensures FieldPaths(fields + [f]) == FieldPaths(fields) + HomePaths(f.value)
  {
    assert (fields + [f])[..|fields|] == fields;
  }

  lemma {:induction false} MapPathsListed(v: Json, g: Names)
    requires Plain(g, Bases(HomePaths(v)))
    ensures HomePaths(MapPaths(v, g)) == MapPathSeq(HomePaths(v), g)
    decreases v
  {
    match v
    case Str(s) => MapLeafListed(s, g);
    case Arr(items) => MapPathItemsListed(items, g);
    case Obj(fields) => MapPathFieldsListed(fields, g);
    case _ =>
  }

  lemma {:induction false} MapPathItemsListed(items: seq<Json>, g: Names)
    requires Plain(g, Bases(ItemPaths(items)))
    ensures ItemPaths(MapPathItems(items, g)) == MapPathSeq(ItemPaths(items), g)
    decreases items
  {
    if items != [] {
      var n := |items| - 1;
      ListedBases(ItemPaths(items[..n]), HomePaths(items[n]));
      MapPathItemsListed(items[..n], g);
      MapPathsListed(items[n], g);
      ItemPathsAppend(MapPathItems(items[..n], g), MapPaths(items[n], g));
      MapPathSeqAppend(ItemPaths(items[..n]), HomePaths(items[n]), g);
    }
  }

  lemma {:induction false} MapPathFieldsListed(fields: seq<Field>, g: Names)
    requires Plain(g, Bases(FieldPaths(fields)))
    ensures FieldPaths(MapPathFields(fields, g)) == MapPathSeq(FieldPaths(fields), g)
    decreases fields
  {
    if fields != [] {
      var n := |fields| - 1;
      ListedBases(FieldPaths(fields[..n]), HomePaths(fields[n].value));
      MapPathFieldsListed(fields[..n], g);
      MapPathsListed(fields[n].value, g);
      FieldPathsAppend(MapPathFields(fields[..n], g), Field(fields[n].key, MapPaths(fields[n].value, g)));
      MapPathSeqAppend(FieldPaths(fields[..n]), HomePaths(fields[n].value), g);
    }
  }

  /** Renaming by g and then by d is renaming by h, on every path of the tree. */
  ghost predicate PathsThrough(h: Names, g: Names, d: Names, paths: seq<string>) {
    forall s | s in paths :: MapPath(MapPath(s, g), d) == MapPath(s, h)
  }

  lemma OtherPathStays(s: string, g: Names, d: Names, h: Names)
    requires !Prefixed(s, HOME)
    ensures MapPath(MapPath(s, g), d) == MapPath(s, h)
  {
    assert TILDE_PLACEHOLDER[..|HOME|][0] == '~' && HOME[0] == '/';
    assert TILDE_PLACEHOLDER[..|TILDE|] == TILDE;
  }

  lemma {:induction false} MapPathsCompose(v: Json, h: Names, g: Names, d: Names)
    requires PathsThrough(h, g, d, HomePaths(v))
    ensures MapPaths(MapPaths(v, g), d) == MapPaths(v, h)
    decreases v
  {
    match v
    case Str(s) =>
      if Prefixed(s, HOME) {
        assert s in HomePaths(v);
      } else {
        OtherPathStays(s, g, d, h);
      }
    case Arr(items) => MapPathItemsCompose(items, h, g, d);
    case Obj(fields) => MapPathFieldsCompose(fields, h, g, d);
    case _ =>
  }

  lemma {:induction false} MapPathItemsCompose(items: seq<Json>, h: Names, g: Names, d: Names)
    requires PathsThrough(h, g, d, ItemPaths(items))
    ensures MapPathItems(MapPathItems(items, g), d) == MapPathItems(items, h)
    decreases items
  {
    if items != [] {
      var n := |items| - 1;
      MapPathItemsCompose(items[..n], h, g, d);
      MapPathsCompose(items[n], h, g, d);
      assert MapPathItems(items, g)[..n] == MapPathItems(items[..n], g);
    }
  }

  lemma {:induction false} MapPathFieldsCompose(fields: seq<Field>, h: Names, g: Names, d: Names)
    requires PathsThrough(h, g, d, FieldPaths(fields))
    ensures MapPathFields(MapPathFields(fields, g), d) == MapPathFields(fields, h)
    decreases fields
  {
    if fields != [] {
      var n := |fields| - 1;
      MapPathFieldsCompose(fields[..n], h, g, d);
      MapPathsCompose(fields[n].value, h, g, d);
      assert MapPathFields(fields, g)[..n] == MapPathFields(fields[..n], g);
    }
  }

  // The theorems.

  function PathDictionary(v: Json): Names {
    NumberAll(Project, map[], Bases(HomePaths(v)))
  }

  /** The pass renames by its own final dictionary: every path below /Users/ by its last segment, and nothing
      but paths. */
  lemma PathsByDictionary(v: Json)
    ensures Paths(v, map[]) == (MapPaths(v, PathDictionary(v)), PathDictionary(v))
  {
    PathsIsMap(v, map[], PathDictionary(v));
  }

  lemma ProjectNameIsPlain(n: nat)
    ensures Placeholder(Project, n) != "" && '/' !in Placeholder(Project, n)
  {
    var name := Placeholder(Project, n);
    assert |name| > 4;
    assert name[0] == 'p' && name[1] == 'r' && name[2] == 'o' && name[3] == 'j';
    assert forall i | 4 <= i < |name| :: name[i] != '/';
  }

  lemma DictionaryIsPlain(bases: seq<string>)
    ensures Plain(NumberAll(Project, map[], bases), bases)
  {
    var names := NumberAll(Project, map[], bases);
    NumberedAll(Project, map[], bases);
    NumberedKeys(Project, bases);
    forall x | x in bases
      ensures Look(names, x) != "" && '/' !in Look(names, x)
    {
      var n :| 1 <= n <= |names| && names[x] == Placeholder(Project, n);
      ProjectNameIsPlain(n);
    }
  }

  /** Between any two places of the tree that hold a path below /Users/, the results are equal exactly when
      the paths' last segments are. */
  lemma SameProjectKept(v: Json, i: nat, j: nat)
    requires i < |HomePaths(v)| && j < |HomePaths(v)|
    ensures var before, after := HomePaths(v), HomePaths(Paths(v, map[]).0);
            |after| == |before| && (after[i] == after[j] <==> Base(before[i]) == Base(before[j]))
  {
    var before, d := HomePaths(v), PathDictionary(v);
    PathsByDictionary(v);
    DictionaryIsPlain(Bases(before));
    MapPathsListed(v, d);
    DictionaryInjective(Project, Bases(before));
    AllHome(v, i);
    AllHome(v, j);
    assert Bases(before)[i] == Base(before[i]) && Bases(before)[j] == Base(before[j]);
    SameTail(PROJECTS, Look(d, Base(before[i])), Look(d, Base(before[j])));
  }

  lemma SameTail(prefix: string, a: string, b: string)
    ensures prefix + a == prefix + b <==> a == b
  {
    assert (prefix + a)[|prefix|..] == a && (prefix + b)[|prefix|..] == b;
  }

  lemma {:induction false} AllHome(v: Json, i: nat)
    requires i < |HomePaths(v)|
    ensures Prefixed(HomePaths(v)[i], HOME)
    decreases v
  {
    match v
    case Arr(items) => AllHomeItems(items, i);
    case Obj(fields) => AllHomeFields(fields, i);
    case _ =>
  }

  lemma {:induction false} AllHomeItems(items: seq<Json>, i: nat)
    requires i < |ItemPaths(items)|
    ensures Prefixed(ItemPaths(items)[i], HOME)
    decreases items
  {
    var n := |items| - 1;
    var before := |ItemPaths(items[..n])|;
    if i < before {
      AllHomeItems(items[..n], i);
    } else {
      AllHome(items[n], i - before);
    }
  }

  lemma {:induction false} AllHomeFields(fields: seq<Field>, i: nat)
    requires i < |FieldPaths(fields)|
    ensures Prefixed(FieldPaths(fields)[i], HOME)
    decreases fields
  {
    var n := |fields| - 1;
    var before := |FieldPaths(fields[..n])|;
    if i < before {
      AllHomeFields(fields[..n], i);
    } else {
      AllHome(fields[n].value, i - before);
    }
  }

  /** Applying the path pass again changes nothing. */
  lemma PathsTwice(v: Json)
    ensures Paths(Paths(v, map[]).0, map[]).0 == Paths(v, map[]).0
  {
    var d := PathDictionary(v);
    var w := MapPaths(v, d);
    PathsByDictionary(v);
    PathsByDictionary(w);
    var paths := HomePaths(v);
    DictionaryIsPlain(Bases(paths));
    MapPathsListed(v, d);
    RenamedBases(v, d);
    DictionaryInjective(Project, Bases(paths));
    NumberRenamed(Project, d, Bases(paths));
    var d' := PathDictionary(w);
    forall i | 0 <= i < |paths|
      ensures MapPath(MapPath(paths[i], d), d') == MapPath(paths[i], d)
    {
      AllHome(v, i);
      assert Bases(paths)[i] == Base(paths[i]);
      PathStays(paths[i], d, d');
    }
    MapPathsCompose(v, d, d, d');
  }

  lemma PathStays(s: string, d: Names, d': Names)
    requires Prefixed(s, HOME) && Look(d, Base(s)) != "" && '/' !in Look(d, Base(s))
    requires Look(d, Base(s)) == Look(d', Look(d, Base(s)))
    ensures MapPath(MapPath(s, d), d') == MapPath(s, d)
  {
    BaseOfProject(Look(d, Base(s)));
  }

  lemma RenamedBases(v: Json, d: Names)
    requires Plain(d, Bases(HomePaths(v)))
    ensures Bases(MapPathSeq(HomePaths(v), d)) == MapSeq(d, Bases(HomePaths(v)))
  {
    var paths := HomePaths(v);
    forall i | 0 <= i < |paths|
      ensures Base(MapPath(paths[i], d)) == Look(d, Base(paths[i]))
    {
      AllHome(v, i);
      assert Bases(paths)[i] == Base(paths[i]);
      MapPathListed(paths[i], d);
    }
  }
}
