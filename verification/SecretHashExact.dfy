/** Exactly when the sidecar's pre-image of a secret determines the data: over a
    fixed set of keys, and for one secret among all. */
module SecretHashExact {
  import opened Sorting
  import opened SecretHash

  lemma {:induction false} LeqRefines(a: string, b: string, x: string, y: string)
    requires Leq(a, b)
    ensures !(a <= b) ==> Leq(a + x, b + y)
    ensures Leq(a, b + y)
  {
    if a != "" {
      assert b == [b[0]] + b[1..] && a == [a[0]] + a[1..];
      assert (a + x)[1..] == a[1..] + x && (b + y)[1..] == b[1..] + y;
      if a[0] == b[0] {
        LeqRefines(a[1..], b[1..], x, y);
      }
    }
  }

  /** The least element goes first. */
  lemma SortLeast(x: string, s: seq<string>)
    requires forall y :: y in s ==> Leq(x, y)
    ensures Sort([x] + s) == [x] + Sort(s)
  {
    assert ([x] + s)[1..] == s;
    SortSorts(s);
    if Sort(s) != [] {
      assert Sort(s)[0] in multiset(Sort(s));
      assert Sort(s)[0] in s;
    }
  }

  function KeyPart(k: string): string {
    k + "="
  }

  /** Does the pre-image tell apart all data with these keys? */
  ghost predicate InjectiveOver(keys: set<string>) {
    forall m: Data, m': Data :: m.Keys == keys && m'.Keys == keys && Preimage(m) == Preimage(m') ==> m == m'
  }

  /** A key whose parts sort before those of all the others, as far as `=`. */
  lemma {:induction false} LeastKey(keys: set<string>) returns (a: string)
    requires keys != {}
    ensures a in keys && forall k :: k in keys ==> Leq(KeyPart(a), KeyPart(k))
    decreases |keys|
  {
    a :| a in keys;
    LeqTotal(KeyPart(a), KeyPart(a));
    var rest := keys - {a};
    if rest != {} {
      var b := LeastKey(rest);
      LeqTotal(KeyPart(a), KeyPart(b));
      if !Leq(KeyPart(a), KeyPart(b)) {
        a := b;
      } else {
        forall k | k in keys
          ensures Leq(KeyPart(a), KeyPart(k))
        {
          if k in rest { LeqTransitive(KeyPart(a), KeyPart(b), KeyPart(k)); }
        }
      }
    }
  }

  function Filled(keys: set<string>): Data {
    map k | k in keys :: ""
  }

  lemma OrderWith(m: Data, a: string, b: string) returns (rest: seq<string>)
    requires a in m && b in m && a != b
    ensures IsOrder(m, [a, b] + rest) && a !in rest && b !in rest
  {
    var others := m - {a, b};
    assert others.Keys == m.Keys - {a, b};
    OrderExists(others);
    rest :| IsOrder(others, rest);
  }

  lemma PartsTwo(m: Data, a: string, b: string, rest: seq<string>)
    requires forall k :: k in [a, b] + rest ==> k in m
    ensures Parts(m, [a, b] + rest) == [Part(a, m[a]), Part(b, m[b])] + Parts(m, rest)
  {
    assert ([a, b] + rest)[1..] == [b] + rest && ([b] + rest)[1..] == rest;
    assert a in [a, b] + rest && b in [a, b] + rest;
  }

  lemma {:induction false} PartsSame(m: Data, m': Data, order: seq<string>)
    requires forall k :: k in order ==> k in m && k in m' && m[k] == m'[k]
    ensures Parts(m, order) == Parts(m', order)
  {
    if order != [] {
      assert order == [order[0]] + order[1..];
      PartsSame(m, m', order[1..]);
    }
  }

  /** The part of `a` sorts before that of `k` whatever their values. */
  predicate Below(a: string, k: string) {
    Leq(KeyPart(a), KeyPart(k)) && !(KeyPart(a) <= KeyPart(k))
  }

  lemma BelowParts(a: string, v: string, k: string, v': string)
    requires Below(a, k)
    ensures Leq(Part(a, v), Part(k, v'))
  {
    LeqRefines(KeyPart(a), KeyPart(k), v, v');
  }

  lemma TwoTrade(p: string, q: string, rest: seq<string>)
    ensures multiset([p, q] + rest) == multiset([q, p] + rest)
  {
  }

  /** Two maps over the same keys whose first two parts are the same two in turn. */
  lemma TradedParts(m: Data, m': Data, a: string, b: string)
    requires m.Keys == m'.Keys && a in m && b in m && a != b
    requires forall k :: k in m && k != a && k != b ==> m[k] == m'[k]
    requires Part(a, m[a]) == Part(b, m'[b]) && Part(b, m[b]) == Part(a, m'[a])
    ensures Preimage(m) == Preimage(m')
  {
    var rest := OrderWith(m, a, b);
    var order := [a, b] + rest;
    assert forall k :: k in rest ==> k in order;
    PartsSame(m, m', rest);
    PartsTwo(m, a, b, rest);
    PartsTwo(m', a, b, rest);
    TwoTrade(Part(a, m[a]), Part(b, m[b]), Parts(m, rest));
    SortCanonical(Parts(m, order), Parts(m', order));
    IterationOrderIrrelevant(m, order);
    IterationOrderIrrelevant(m', order);
  }

  /** If the key part of `a` begins that of `b`, values can make the two trade parts. */
  lemma TradeParts(keys: set<string>, a: string, b: string) returns (m: Data, m': Data)
    requires a in keys && b in keys && a != b && KeyPart(a) <= KeyPart(b)
    ensures m.Keys == m'.Keys == keys && m != m' && Preimage(m) == Preimage(m')
  {
    var x := KeyPart(b)[|KeyPart(a)|..];
    assert KeyPart(b) == KeyPart(a) + x;
    m := Filled(keys)[a := x][b := "c"];
    m' := Filled(keys)[a := x + "c"][b := ""];
    assert m[b] != m'[b];
    assert Part(a, x + "c") == Part(a, x) + "c";
    TradedParts(m, m', a, b);
  }

  lemma PartsAbove(m: Data, a: string, v: string, order: seq<string>)
    requires forall k :: k in order ==> k in m && Below(a, k)
    ensures forall p :: p in Parts(m, order) ==> Leq(Part(a, v), p)
  {
    forall p | p in Parts(m, order)
      ensures Leq(Part(a, v), p)
    {
      PartsExact(m, order, p);
      var k :| k in order && p == Part(k, m[k]);
      BelowParts(a, v, k, m[k]);
    }
  }

  lemma SortTwoLeast(p: string, q: string, rest: seq<string>)
    requires Leq(p, q) && forall y :: y in rest ==> Leq(p, y) && Leq(q, y)
    ensures Sort([p, q] + rest) == [p, q] + Sort(rest)
  {
    SortLeast(q, rest);
    SortLeast(p, [q] + rest);
    assert [p, q] + rest == [p] + ([q] + rest) && [p, q] + Sort(rest) == [p] + ([q] + Sort(rest));
  }

  /** With the two least keys first, the rest of the text is in order by itself. */
  lemma LeastTwoRender(m: Data, a: string, b: string, rest: seq<string>)
    requires a in m && b in m && IsOrder(m, [a, b] + rest)
    requires Below(a, b) && forall k :: k in rest ==> Below(a, k) && Below(b, k)
    ensures forall k :: k in rest ==> k in m
    ensures Preimage(m) == Join([Part(a, m[a]), Part(b, m[b])] + Sort(Parts(m, rest)), '|')
  {
    assert forall k :: k in rest ==> k in [a, b] + rest;
    PartsAbove(m, a, m[a], rest);
    PartsAbove(m, b, m[b], rest);
    BelowParts(a, m[a], b, m[b]);
    PartsTwo(m, a, b, rest);
    SortTwoLeast(Part(a, m[a]), Part(b, m[b]), Parts(m, rest));
    IterationOrderIrrelevant(m, [a, b] + rest);
  }

  lemma JoinTwo(p: string, q: string, rest: seq<string>)
    ensures Join([p, q] + rest, '|') == p + "|" + q + (if rest == [] then "" else "|" + Join(rest, '|'))
  {
    assert ([p, q] + rest)[1..] == [q] + rest && ([q] + rest)[1..] == rest;
  }

  /** A separator and a key part more, on either side of the separator. */
  lemma SlideText(a: string, b: string)
    ensures Part(a, "|" + KeyPart(b)) + "|" + Part(b, "") == Part(a, "") + "|" + Part(b, "|" + KeyPart(b))
  {
  }

  /** If no key part begins another, the value of the least key can take over the
      separator and the next key part. */
  lemma ShiftSeparator(keys: set<string>, a: string, b: string) returns (m: Data, m': Data)
    requires a in keys && b in keys && a != b && Below(a, b)
    requires forall k :: k in keys && k != a && k != b ==> Below(a, k) && Below(b, k)
    ensures m.Keys == m'.Keys == keys && m != m' && Preimage(m) == Preimage(m')
  {
    var more := "|" + KeyPart(b);
    m := Filled(keys)[a := more][b := ""];
    m' := Filled(keys)[a := ""][b := more];
    assert m[b] != m'[b];
    var rest := OrderWith(m, a, b);
    assert IsOrder(m', [a, b] + rest);
    assert forall k :: k in rest ==> k in [a, b] + rest;
    LeastTwoRender(m, a, b, rest);
    LeastTwoRender(m', a, b, rest);
    PartsSame(m, m', rest);
    var tail := Sort(Parts(m, rest));
    JoinTwo(Part(a, more), Part(b, ""), tail);
    JoinTwo(Part(a, ""), Part(b, more), tail);
    SlideText(a, b);
  }

  lemma CollideOver(keys: set<string>) returns (m: Data, m': Data)
    requires |keys| >= 2
    ensures m.Keys == m'.Keys == keys && m != m' && Preimage(m) == Preimage(m')
  {
    if a, b :| a in keys && b in keys && a != b && KeyPart(a) <= KeyPart(b) {
      m, m' := TradeParts(keys, a, b);
    } else {
      var a := LeastKey(keys);
      assert |keys - {a}| == |keys| - 1;
      var b := LeastKey(keys - {a});
      m, m' := ShiftSeparator(keys, a, b);
    }
  }

  /** Over a fixed set of keys the pre-image tells all data apart if and only if
      there is at most one key; with two, values with separators collide. */
  lemma InjectiveOverIff(keys: set<string>)
    ensures InjectiveOver(keys) <==> |keys| <= 1
  {
    if |keys| >= 2 {
      var m, m' := CollideOver(keys);
    } else {
      forall m: Data, m': Data | m.Keys == keys && m'.Keys == keys && Preimage(m) == Preimage(m')
        ensures m == m'
      {
        SingleKeySeparates(m, m');
      }
    }
  }

  /** Whatever the value holds, one entry is told apart from any other value of its key. */
  lemma SingleKeySeparates(m: Data, m': Data)
    requires m.Keys == m'.Keys && |m.Keys| <= 1
    ensures Preimage(m) == Preimage(m') <==> m == m'
  {
    if k :| k in m.Keys {
      SingleElement(m.Keys, k);
      assert m == map[k := m[k]] && m' == map[k := m'[k]];
      OneEntry(k, m[k]);
      OneEntry(k, m'[k]);
      assert m[k] == Part(k, m[k])[|k| + 1..];
      assert m'[k] == Part(k, m'[k])[|k| + 1..];
    } else {
      assert m == map[] == m';
    }
  }

  /** The only data with its pre-image. */
  ghost predicate Identified(m: Data) {
    forall m': Data :: Preimage(m') == Preimage(m) ==> m' == m
  }

  lemma {:induction false} PartsLength(m: Data, order: seq<string>)
    requires forall k :: k in order ==> k in m
    ensures |Parts(m, order)| == |order|
  {
    if order != [] {
      assert order == [order[0]] + order[1..];
      PartsLength(m, order[1..]);
    }
  }

  lemma {:induction false} OrderLength(m: Data, order: seq<string>)
    requires IsOrder(m, order)
    ensures |order| == |m|
    decreases |order|
  {
    if order == [] {
      assert m.Keys == {};
    } else {
      var rest := m - {order[0]};
      assert order == [order[0]] + order[1..];
      assert rest.Keys == m.Keys - {order[0]};
      OrderLength(rest, order[1..]);
      assert |m.Keys| == |rest.Keys| + 1;
    }
  }

  /** The sorted parts of the data. */
  lemma SortedParts(m: Data) returns (order: seq<string>, parts: seq<string>)
    ensures IsOrder(m, order) && |parts| == |m| && Sorted(parts) && multiset(parts) == multiset(Parts(m, order))
    ensures Preimage(m) == Join(parts, '|')
    ensures forall i :: 0 <= i < |parts| ==> exists k :: k in m && parts[i] == Part(k, m[k])
  {
    OrderExists(m);
    order :| IsOrder(m, order);
    IterationOrderIrrelevant(m, order);
    OrderLength(m, order);
    PartsLength(m, order);
    parts := Sort(Parts(m, order));
    SortSorts(Parts(m, order));
    assert |parts| == |multiset(parts)| == |Parts(m, order)|;
    forall i | 0 <= i < |parts|
      ensures exists k :: k in m && parts[i] == Part(k, m[k])
    {
      assert parts[i] in multiset(parts);
      PartsExact(m, order, parts[i]);
    }
  }

  lemma PartExtends(k: string, v: string, more: string)
    ensures Part(k, v + more) == Part(k, v) + more
  {
  }

  lemma JoinFirstTwo(parts: seq<string>) returns (more: string)
    requires |parts| >= 2
    ensures Join(parts, '|') == parts[0] + "|" + (parts[1] + more)
  {
    var tail := parts[2..];
    assert parts == [parts[0], parts[1]] + tail;
    JoinTwo(parts[0], parts[1], tail);
    more := if tail == [] then "" else "|" + Join(tail, '|');
  }

  /** Data of two or more entries read as its first entry and one more. */
  lemma TwoReadOff(m: Data) returns (k: string, k': string, y: string)
    requires |m| >= 2
    ensures k in m && k' in m && Preimage(m) == Part(k, m[k]) + "|" + Part(k', y)
    ensures Leq(Part(k, m[k]), Part(k', y))
    ensures CleanKeys(m) ==> k != k'
  {
    var order, parts := SortedParts(m);
    k :| k in m && parts[0] == Part(k, m[k]);
    k' :| k' in m && parts[1] == Part(k', m[k']);
    if CleanKeys(m) {
      PartsDistinct(m, order);
      FirstTwoDiffer(parts, Parts(m, order));
    }
    var more := JoinFirstTwo(parts);
    y := m[k'] + more;
    PartExtends(k', m[k'], more);
    LeqRefines(parts[0], parts[1], "", more);
  }

  predicate Clean(k: string) {
    '=' !in k && '|' !in k
  }

  /** No separator in any key. */
  predicate CleanKeys(m: Data) {
    forall k :: k in m ==> Clean(k)
  }

  lemma {:induction false} PartsDistinct(m: Data, order: seq<string>)
    requires CleanKeys(m) && (forall k :: k in order ==> k in m)
    requires forall i, j :: 0 <= i < j < |order| ==> order[i] != order[j]
    ensures forall i, j :: 0 <= i < j < |Parts(m, order)| ==> Parts(m, order)[i] != Parts(m, order)[j]
  {
    if order != [] {
      var k := order[0];
      assert order == [k] + order[1..];
      PartsDistinct(m, order[1..]);
      forall p | p in Parts(m, order[1..])
        ensures p != Part(k, m[k])
      {
        PartsExact(m, order[1..], p);
        var k' :| k' in order[1..] && p == Part(k', m[k']);
        var n :| 0 <= n < |order[1..]| && order[1..][n] == k';
        assert order[n + 1] == k' && k' in order;
        HeadTail(k, '=', m[k]);
        HeadTail(k', '=', m[k']);
      }
      var ps := Parts(m, order);
      assert ps == [Part(k, m[k])] + Parts(m, order[1..]);
      forall i, j | 0 <= i < j < |ps|
        ensures ps[i] != ps[j]
      {
        assert ps[j] == Parts(m, order[1..])[j - 1];
        assert ps[j] in Parts(m, order[1..]);
        if i > 0 { assert ps[i] == Parts(m, order[1..])[i - 1]; }
      }
    }
  }

  lemma FirstTwoDiffer(sorted: seq<string>, s: seq<string>)
    requires multiset(sorted) == multiset(s) && |sorted| >= 2
    requires forall i, j :: 0 <= i < j < |s| ==> s[i] != s[j]
    ensures sorted[0] != sorted[1]
  {
    OrderCounts(map[], s, sorted[0]);
    assert sorted == [sorted[0], sorted[1]] + sorted[2..];
  }

  lemma OneReadOff(m: Data) returns (k: string)
    requires |m| == 1
    ensures k in m && m == map[k := m[k]] && Preimage(m) == Part(k, m[k])
  {
    assert |m.Keys| == 1;
    k :| k in m.Keys;
    SingleElement(m.Keys, k);
    OneEntry(k, m[k]);
  }

  /** Every other reading starts with a key and the character after it. */
  lemma EqualsSign(m: Data) returns (k: string)
    requires m != map[]
    ensures k in m && |k| < |Preimage(m)| && Preimage(m)[|k|] == '=' && Preimage(m)[..|k|] == k
  {
    if |m| >= 2 {
      var k', y;
      k, k', y := TwoReadOff(m);
    } else {
      k := OneReadOff(m);
    }
  }

  lemma EmptyReads(m: Data)
    ensures Preimage(m) == "" <==> m == map[]
  {
    if m != map[] {
      var _ := EqualsSign(m);
    } else {
      IterationOrderIrrelevant(m, []);
    }
  }

  /** Two or more entries read as one. */
  lemma MergesToOne(m: Data) returns (m': Data)
    requires |m| >= 2
    ensures m' != m && Preimage(m') == Preimage(m) && m'.Keys <= m.Keys
  {
    var k, k', y := TwoReadOff(m);
    m' := map[k := m[k] + "|" + Part(k', y)];
    OneEntry(k, m[k] + "|" + Part(k', y));
    assert |m'| == 1;
  }

  /** An equals sign in the key or the value can be read as the separator instead. */
  lemma Reread(k: string, v: string) returns (m': Data)
    requires '=' in k || '=' in v
    ensures m' != map[k := v] && Preimage(m') == Preimage(map[k := v])
  {
    var k', v';
    if '=' in v {
      var i :| 0 <= i < |v| && v[i] == '=';
      k', v' := Part(k, v[..i]), v[i + 1..];
      assert v == v[..i] + "=" + v[i + 1..];
    } else {
      var i :| 0 <= i < |k| && k[i] == '=';
      k', v' := k[..i], Part(k[i + 1..], v);
      assert k == k[..i] + "=" + k[i + 1..];
    }
    m' := map[k' := v'];
    assert Part(k', v') == Part(k, v) && |k'| != |k|;
    assert k in map[k := v] && k !in m';
    OneEntry(k, v);
    OneEntry(k', v');
  }

  lemma TwoEquals(m: Data) returns (i: nat, j: nat)
    requires |m| >= 2
    ensures i < j < |Preimage(m)| && Preimage(m)[i] == '=' && Preimage(m)[j] == '='
  {
    var k, k', y := TwoReadOff(m);
    i, j := |k|, |Part(k, m[k])| + 1 + |k'|;
    assert Part(k', y)[|k'|] == '=';
  }

  lemma OneIdentified(k: string, v: string, m': Data)
    requires '=' !in k && '=' !in v && Preimage(m') == Preimage(map[k := v])
    ensures m' == map[k := v]
  {
    var text := Part(k, v);
    OneEntry(k, v);
    assert forall i :: 0 <= i < |text| && text[i] == '=' ==> i == |k|;
    assert text[|k|] == '=';
    EmptyReads(m');
    if |m'| >= 2 {
      var i, j := TwoEquals(m');
      assert false;
    } else {
      var k0 := OneReadOff(m');
      assert text[|k0|] == '=';
      assert k0 == text[..|k0|] == k && m'[k0] == text[|k0| + 1..] == v;
    }
  }

  /** If any keys are possible, exactly the empty secret and a single entry without
      an equals sign can be told from their pre-image. */
  lemma IdentifiedIff(m: Data)
    ensures Identified(m) <==> m == map[] || exists k, v :: m == map[k := v] && '=' !in k && '=' !in v
  {
    EmptyReads(m);
    if |m| >= 2 {
      var m' := MergesToOne(m);
      assert !Identified(m);
    } else if |m| == 1 {
      var k := OneReadOff(m);
      if '=' in k || '=' in m[k] {
        var m' := Reread(k, m[k]);
        assert !Identified(m);
      } else {
        forall m': Data | Preimage(m') == Preimage(m)
          ensures m' == m
        {
          OneIdentified(k, m[k], m');
        }
      }
    } else {
      forall m': Data | Preimage(m') == Preimage(m)
        ensures m' == m
      {
        EmptyReads(m');
      }
    }
  }

  /** A key of a secret, as far as the API server's rules matter here; `blank` says
      whether the empty key is allowed, which the API server does not. */
  predicate Proper(k: string, blank: bool) {
    Clean(k) && (blank || k != "")
  }

  predicate ProperKeys(m: Data, blank: bool) {
    forall k :: k in m ==> Proper(k, blank)
  }

  /** The only data with its pre-image among those with such keys. */
  ghost predicate IdentifiedAmongClean(m: Data, blank: bool) {
    forall m': Data :: ProperKeys(m', blank) && Preimage(m') == Preimage(m) ==> m' == m
  }

  /** The value holds what reads as another, later entry. */
  predicate Splits(k: string, v: string, blank: bool) {
    exists i, j :: 0 <= i < j < |v| && SplitsAt(k, v, i, j, blank)
  }

  /** ...after the separator at `i`, with its key up to `j`. */
  predicate SplitsAt(k: string, v: string, i: int, j: int, blank: bool)
    requires 0 <= i < j < |v|
  {
    && v[i] == '|' && v[j] == '=' && Proper(v[i + 1..j], blank) && v[i + 1..j] != k
    && Leq(Part(k, v[..i]), v[i + 1..])
  }

  lemma SplitText(k: string, v: string, i: int, j: int)
    requires 0 <= i < j < |v| && v[i] == '|' && v[j] == '='
    ensures v[i + 1..] == Part(v[i + 1..j], v[j + 1..])
    ensures Part(k, v) == Part(k, v[..i]) + "|" + v[i + 1..]
  {
    assert v == v[..i] + "|" + v[i + 1..];
  }

  lemma SplitCollides(k: string, v: string, blank: bool) returns (m': Data)
    requires Proper(k, blank) && Splits(k, v, blank)
    ensures ProperKeys(m', blank) && m' != map[k := v] && Preimage(m') == Preimage(map[k := v])
  {
    var i, j :| 0 <= i < j < |v| && SplitsAt(k, v, i, j, blank);
    var x, k', y := v[..i], v[i + 1..j], v[j + 1..];
    SplitText(k, v, i, j);
    m' := map[k := x, k' := y];
    assert k' in m';
    TwoEntries(k, x, k', y);
    OneEntry(k, v);
  }

  lemma SplitHere(k: string, v: string, x: string, k': string, y: string, blank: bool)
    requires Proper(k', blank) && k' != k && Leq(Part(k, x), Part(k', y)) && v == x + ("|" + Part(k', y))
    ensures Splits(k, v, blank)
  {
    var i, j := |x|, |x| + 1 + |k'|;
    assert v[..i] == x && v[i + 1..] == Part(k', y) && v[i + 1..j] == k';
    assert SplitsAt(k, v, i, j, blank);
  }

  lemma UnsplitIdentified(k: string, v: string, m': Data, blank: bool)
    requires Proper(k, blank) && !Splits(k, v, blank) && ProperKeys(m', blank) && Preimage(m') == Preimage(map[k := v])
    ensures m' == map[k := v]
  {
    OneEntry(k, v);
    HeadTail(k, '=', v);
    EmptyReads(m');
    if |m'| >= 2 {
      var k0, k1, y := TwoReadOff(m');
      var x, part := m'[k0], Part(k1, y);
      PartExtends(k0, x, "|" + part);
      HeadTail(k0, '=', x + ("|" + part));
      assert Part(k0, x) + "|" + part == Part(k0, x) + ("|" + part);
      SplitHere(k, v, x, k1, y, blank);
      assert false;
    } else {
      var k0 := OneReadOff(m');
      HeadTail(k0, '=', m'[k0]);
    }
  }

  /** Among secrets with such keys, exactly the empty one and a single entry whose
      value does not read as a further entry can be told from their pre-image:
      two or more entries never can. */
  lemma IdentifiedAmongCleanIff(m: Data, blank: bool)
    requires ProperKeys(m, blank)
    ensures IdentifiedAmongClean(m, blank) <==> m == map[] || exists k, v :: m == map[k := v] && !Splits(k, v, blank)
  {
    EmptyReads(m);
    if |m| >= 2 {
      var m' := MergesToOne(m);
      assert !IdentifiedAmongClean(m, blank);
    } else if |m| == 1 {
      var k := OneReadOff(m);
      assert forall k', v' :: m == map[k' := v'] ==> k' in m && k' == k && v' == m[k];
      if Splits(k, m[k], blank) {
        var m' := SplitCollides(k, m[k], blank);
        assert !IdentifiedAmongClean(m, blank);
      } else {
        forall m': Data | ProperKeys(m', blank) && Preimage(m') == Preimage(m)
          ensures m' == m
        {
          UnsplitIdentified(k, m[k], m', blank);
        }
      }
    } else {
      forall m': Data | Preimage(m') == Preimage(m)
        ensures m' == m
      {
        EmptyReads(m');
      }
    }
  }
}
