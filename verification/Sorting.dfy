/** sort.Strings and strings.Join, with what is needed about them: sorting is
    decided by the multiset of the elements, and joining can be undone. */
module Sorting {

  /** Lexicographic order. */
  predicate Leq(a: string, b: string) {
    a == "" || (b != "" && (a[0] < b[0] || (a[0] == b[0] && Leq(a[1..], b[1..]))))
  }

  lemma {:induction false} LeqTotal(a: string, b: string)
    ensures Leq(a, b) || Leq(b, a)
    ensures Leq(a, b) && Leq(b, a) ==> a == b
  {
    if a != "" && b != "" && a[0] == b[0] {
      LeqTotal(a[1..], b[1..]);
      assert a == [a[0]] + a[1..] && b == [b[0]] + b[1..];
    }
  }

  /** Is `i` the first position where they differ, and `a` the smaller there? */
  predicate SmallerAt(a: string, b: string, i: nat) {
    i < |a| && i < |b| && a[i] < b[i] && forall j :: 0 <= j < i ==> a[j] == b[j]
  }

  lemma {:induction false} SmallerLeq(a: string, b: string, i: nat)
    requires SmallerAt(a, b, i)
    ensures Leq(a, b)
  {
    if i > 0 {
      SmallerLeq(a[1..], b[1..], i - 1);
    }
  }

  lemma {:induction false} PrefixLeq(a: string, b: string)
    requires a <= b
    ensures Leq(a, b)
  {
    if a != "" {
      PrefixLeq(a[1..], b[1..]);
    }
  }

  lemma {:induction false} LeqSmaller(a: string, b: string) returns (i: nat)
    requires Leq(a, b)
    ensures a <= b || SmallerAt(a, b, i)
  {
    i := 0;
    if a != "" && a[0] == b[0] {
      var j := LeqSmaller(a[1..], b[1..]);
      assert a == [a[0]] + a[1..] && b == [b[0]] + b[1..];
      i := j + 1;
    }
  }

  /** A string is below those it is a prefix of and those that have the greater
      character at the first difference. */
  lemma LeqMeans(a: string, b: string)
    ensures Leq(a, b) <==> a <= b || exists i: nat :: SmallerAt(a, b, i)
  {
    if Leq(a, b) {
      var i := LeqSmaller(a, b);
    } else {
      forall i: nat | SmallerAt(a, b, i)
        ensures false
      {
        SmallerLeq(a, b, i);
      }
      if a <= b {
        PrefixLeq(a, b);
      }
    }
  }

  lemma {:induction false} LeqTransitive(a: string, b: string, c: string)
    requires Leq(a, b) && Leq(b, c)
    ensures Leq(a, c)
  {
    if a != "" && a[0] == b[0] == c[0] {
      LeqTransitive(a[1..], b[1..], c[1..]);
    }
  }

  predicate Sorted(s: seq<string>) {
    forall i, j :: 0 <= i < j < |s| ==> Leq(s[i], s[j])
  }

  function Insert(x: string, s: seq<string>): seq<string> {
    if s == [] then [x]
    else if Leq(x, s[0]) then [x] + s
    else [s[0]] + Insert(x, s[1..])
  }

  function Sort(s: seq<string>): seq<string> {
    if s == [] then [] else Insert(s[0], Sort(s[1..]))
  }

  lemma {:induction false} InsertCounts(x: string, s: seq<string>)
    ensures multiset(Insert(x, s)) == multiset{x} + multiset(s)
  {
    if s != [] {
      assert s == [s[0]] + s[1..];
      if !Leq(x, s[0]) {
        InsertCounts(x, s[1..]);
      }
    }
  }

  lemma {:induction false} InsertSorts(x: string, s: seq<string>)
    requires Sorted(s)
    ensures Sorted(Insert(x, s)) && multiset(Insert(x, s)) == multiset{x} + multiset(s)
  {
    InsertCounts(x, s);
    if s != [] {
      if Leq(x, s[0]) {
        forall j | 0 <= j < |s|
          ensures Leq(x, s[j])
        {
          if j > 0 { LeqTransitive(x, s[0], s[j]); }
        }
      } else {
        LeqTotal(x, s[0]);
        InsertSorts(x, s[1..]);
        InsertBounded(x, s[1..], s[0]);
      }
    }
  }

  lemma InsertBounded(x: string, s: seq<string>, least: string)
    requires Leq(least, x) && forall j :: 0 <= j < |s| ==> Leq(least, s[j])
    ensures forall j :: 0 <= j < |Insert(x, s)| ==> Leq(least, Insert(x, s)[j])
  {
    InsertCounts(x, s);
    var r := Insert(x, s);
    forall j | 0 <= j < |r|
      ensures Leq(least, r[j])
    {
      assert r[j] in multiset(r);
      assert r[j] == x || r[j] in s;
    }
  }

  lemma {:induction false} SortSorts(s: seq<string>)
    ensures Sorted(Sort(s)) && multiset(Sort(s)) == multiset(s)
  {
    if s != [] {
      SortSorts(s[1..]);
      InsertSorts(s[0], Sort(s[1..]));
      assert s == [s[0]] + s[1..];
    }
  }

  lemma FirstIsLeast(a: seq<string>, x: string)
    requires Sorted(a) && x in multiset(a)
    ensures a != [] && Leq(a[0], x)
  {
    var i :| 0 <= i < |a| && a[i] == x;
    LeqTotal(x, x);
  }

  lemma WithoutFirst(a: seq<string>)
    requires a != []
    ensures a[0] in multiset(a) && multiset(a[1..]) == multiset(a) - multiset{a[0]}
  {
    assert a == [a[0]] + a[1..];
  }

  lemma SameFirst(a: seq<string>, b: seq<string>)
    requires Sorted(a) && Sorted(b) && multiset(a) == multiset(b) && a != [] && b != []
    ensures a[0] == b[0] && multiset(a[1..]) == multiset(b[1..])
  {
    WithoutFirst(a);
    WithoutFirst(b);
    FirstIsLeast(a, b[0]);
    FirstIsLeast(b, a[0]);
    LeqTotal(a[0], b[0]);
  }

  lemma {:induction false} SortedUnique(a: seq<string>, b: seq<string>)
    requires Sorted(a) && Sorted(b) && multiset(a) == multiset(b)
    ensures a == b
  {
    assert |a| == |multiset(a)| == |multiset(b)| == |b|;
    if a != [] {
      SameFirst(a, b);
      SortedUnique(a[1..], b[1..]);
      assert a == [a[0]] + a[1..] && b == [b[0]] + b[1..];
    }
  }

  /** Sorting gives the same list exactly for lists with the same elements. */
  lemma SortCanonical(a: seq<string>, b: seq<string>)
    ensures Sort(a) == Sort(b) <==> multiset(a) == multiset(b)
  {
    SortSorts(a);
    SortSorts(b);
    if multiset(a) == multiset(b) {
      SortedUnique(Sort(a), Sort(b));
    }
  }

  function Join(parts: seq<string>, sep: char): string {
    if parts == [] then ""
    else if |parts| == 1 then parts[0]
    else parts[0] + [sep] + Join(parts[1..], sep)
  }

  /** Everything before the first `sep`. */
  function Head(text: string, sep: char): (r: string)
    ensures sep !in r && forall c :: c in r ==> c in text
  {
    if text == "" || text[0] == sep then "" else [text[0]] + Head(text[1..], sep)
  }

  /** Everything after the first `sep`. */
  function Tail(text: string, sep: char): (r: string)
    ensures text != "" ==> |r| < |text|
    ensures forall c :: c in r ==> c in text
  {
    if text == "" then "" else if text[0] == sep then text[1..] else Tail(text[1..], sep)
  }

  lemma {:induction false} HeadTail(a: string, sep: char, b: string)
    requires sep !in a
    ensures Head(a + [sep] + b, sep) == a && Tail(a + [sep] + b, sep) == b
  {
    var text := a + [sep] + b;
    if a != "" {
      assert text[1..] == a[1..] + [sep] + b;
      HeadTail(a[1..], sep, b);
    } else {
      assert text[1..] == b;
    }
  }

  lemma {:induction false} HeadWhole(text: string, sep: char)
    requires sep !in text
    ensures Head(text, sep) == text && Tail(text, sep) == ""
  {
    if text != "" {
      HeadWhole(text[1..], sep);
    }
  }

  /** Undo Join on lists of non-empty parts without the separator. */
  function Split(text: string, sep: char): (r: seq<string>)
    ensures forall part :: part in r ==> sep !in part
    decreases |text|
  {
    if text == "" then [] else [Head(text, sep)] + Split(Tail(text, sep), sep)
  }

  lemma {:induction false} SplitJoin(parts: seq<string>, sep: char)
    requires forall part :: part in parts ==> part != "" && sep !in part
    ensures Split(Join(parts, sep), sep) == parts
  {
    if |parts| == 1 {
      HeadWhole(parts[0], sep);
    } else if |parts| > 1 {
      HeadTail(parts[0], sep, Join(parts[1..], sep));
      assert forall part :: part in parts[1..] ==> part in parts;
      SplitJoin(parts[1..], sep);
    }
  }
}
