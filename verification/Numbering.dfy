/** Placeholders numbered by first occurrence: the dictionaries of scripts/sanitize.py. */
module Numbering {
  import opened Decimal
  import opened Patterns

  datatype Kind = Terminal | Session | Project

  function Prefix(kind: Kind): string {
    match kind
    case Terminal => TERMINAL_PREFIX
    case Session => SESSION_PREFIX
    case Project => "proj"
  }

  function Placeholder(kind: Kind, n: nat): string {
    Prefix(kind) + if kind.Project? then Itoa(n) else Pad12(n)
  }

  /** A value seen before keeps its placeholder, a new one gets the next number. */
  function Next(kind: Kind, seen: map<string, string>, value: string): (r: map<string, string>)
    ensures value in r
  {
    if value in seen then seen else seen[value := Placeholder(kind, |seen| + 1)]
  }

  function Distinct(values: seq<string>): set<string> {
    set v | v in values
  }

  function NumberAll(kind: Kind, seen: map<string, string>, values: seq<string>): map<string, string> {
    if values == [] then seen
    else
      var n := |values| - 1;
      Next(kind, NumberAll(kind, seen, values[..n]), values[n])
  }

  lemma PlaceholderInjective(kind: Kind, m: nat, n: nat)
    requires Placeholder(kind, m) == Placeholder(kind, n)
    ensures m == n
  {
    var k := |Prefix(kind)|;
    assert Placeholder(kind, m)[k..] == Placeholder(kind, n)[k..];
    if kind.Project? {
      assert Itoa(m) == Itoa(n);
      ParseItoa(m);
      ParseItoa(n);
    } else {
      assert Pad12(m) == Pad12(n);
      Pad12Exact(m);
      Pad12Exact(n);
    }
  }

  /** Every placeholder in use is one of the first |seen| numbers, and no two values share one. */
  ghost predicate Numbered(kind: Kind, seen: map<string, string>) {
    && (forall v | v in seen :: exists n :: 1 <= n <= |seen| && seen[v] == Placeholder(kind, n))
    && forall v, w | v in seen && w in seen && seen[v] == seen[w] :: v == w
  }

  lemma NumberedNext(kind: Kind, seen: map<string, string>, value: string)
    requires Numbered(kind, seen)
    ensures Numbered(kind, Next(kind, seen, value))
  {
    var r := Next(kind, seen, value);
    if value !in seen {
      var number := |seen| + 1;
      assert |r| == number;
      forall v | v in seen
        ensures seen[v] != Placeholder(kind, number)
        ensures exists n :: 1 <= n <= |r| && r[v] == Placeholder(kind, n)
      {
        var n :| 1 <= n <= |seen| && seen[v] == Placeholder(kind, n);
        if seen[v] == Placeholder(kind, number) {
          PlaceholderInjective(kind, n, number);
        }
      }
      assert 1 <= number <= |r| && r[value] == Placeholder(kind, number);
    }
  }

  lemma {:induction false} NumberedAll(kind: Kind, seen: map<string, string>, values: seq<string>)
    requires Numbered(kind, seen)
    ensures Numbered(kind, NumberAll(kind, seen, values))
  {
    if values != [] {
      NumberedAll(kind, seen, values[..|values| - 1]);
      NumberedNext(kind, NumberAll(kind, seen, values[..|values| - 1]), values[|values| - 1]);
    }
  }

  predicate Extends(a: map<string, string>, b: map<string, string>) {
    forall v | v in a :: v in b && b[v] == a[v]
  }

  /** The values numbered from an empty dictionary are exactly those that occur. */
  lemma {:induction false} NumberedKeys(kind: Kind, values: seq<string>)
    ensures NumberAll(kind, map[], values).Keys == Distinct(values)
  {
    if values != [] {
      var n := |values| - 1;
      NumberedKeys(kind, values[..n]);
      assert forall v :: v in values <==> v in values[..n] || v == values[n];
    }
  }

  /** In closed form: a value's number is one more than the number of distinct values before its
      first occurrence. */
  lemma {:induction false} FirstOccurrence(kind: Kind, values: seq<string>, i: nat)
    requires i < |values| && values[i] !in values[..i]
    ensures var seen := NumberAll(kind, map[], values);
            values[i] in seen && seen[values[i]] == Placeholder(kind, |Distinct(values[..i])| + 1)
  {
    var n := |values| - 1;
    if i == n {
      LastOccurrence(kind, values[..n], values[n]);
    } else {
      assert values[..n][..i] == values[..i] && values[..n][i] == values[i];
      FirstOccurrence(kind, values[..n], i);
      KeptByNext(kind, NumberAll(kind, map[], values[..n]), values[n], values[i]);
    }
  }

  lemma LastOccurrence(kind: Kind, before: seq<string>, value: string)
    requires value !in before
    ensures var seen := Next(kind, NumberAll(kind, map[], before), value);
            value in seen && seen[value] == Placeholder(kind, |Distinct(before)| + 1)
  {
    HowManyNumbered(kind, before);
  }

  lemma KeptByNext(kind: Kind, seen: map<string, string>, value: string, known: string)
    requires known in seen
    ensures known in Next(kind, seen, value) && Next(kind, seen, value)[known] == seen[known]
  {
  }

  lemma HowManyNumbered(kind: Kind, values: seq<string>)
    ensures |NumberAll(kind, map[], values)| == |Distinct(values)|
    ensures forall v :: v in NumberAll(kind, map[], values) <==> v in values
  {
    NumberedKeys(kind, values);
    var seen := NumberAll(kind, map[], values);
    assert |seen| == |seen.Keys|;
  }

  lemma PrefixThenRest(prefix: string, rest: string)
    ensures Prefixed(prefix + rest, prefix) && (prefix + rest)[|prefix|..] == rest
  {
  }

  /** Placeholders have the shape the schema requires exactly while twelve digits suffice. */
  lemma TerminalShape(n: nat)
    ensures Matches(TerminalId, Placeholder(Terminal, n)) <==> n < Pow10(12)
  {
    Pad12Exact(n);
    PrefixThenRest(TERMINAL_PREFIX, Pad12(n));
  }

  lemma SessionShape(n: nat)
    ensures Matches(SessionUuid, Placeholder(Session, n)) <==> n < Pow10(12)
  {
    Pad12Exact(n);
    PrefixThenRest(SESSION_PREFIX, Pad12(n));
  }

  lemma ProjectShape(n: nat)
    ensures Matches(ProjectPath, "/Users/user/projects/" + Placeholder(Project, n))
  {
    assert "/Users/user/projects/" + Placeholder(Project, n) == PROJECT_PREFIX + Itoa(n) by {
      assert "/Users/user/projects/" + "proj" == PROJECT_PREFIX;
    }
    PrefixThenRest(PROJECT_PREFIX, Itoa(n));
  }
}
