/** Hashing the data of a secret: the canonical pre-image of the sidecar, whose
    order of map iteration is immaterial, and when it determines the data. */
module SecretHash {
  import opened Prelude
  import opened Sorting

  type Data = map<string, string>

  /** One way of iterating over a map. */
  ghost predicate IsOrder(m: Data, order: seq<string>) {
    && (forall k :: k in order <==> k in m)
    && forall i, j :: 0 <= i < j < |order| ==> order[i] != order[j]
  }

  function Part(k: string, v: string): string {
    k + "=" + v
  }

  function Parts(m: Data, order: seq<string>): seq<string>
    requires forall k :: k in order ==> k in m
  {
    if order == [] then [] else [Part(order[0], m[order[0]])] + Parts(m, order[1..])
  }

  lemma {:induction false} OrderExists(m: Data)
    ensures exists order :: IsOrder(m, order)
    decreases |m.Keys|
  {
    if m == map[] {
      assert IsOrder(m, []);
    } else {
      var k :| k in m;
      var rest := m - {k};
      assert rest.Keys == m.Keys - {k};
      OrderExists(rest);
      var order :| IsOrder(rest, order);
      assert IsOrder(m, [k] + order);
    }
  }

  /** The counts of two iterations agree. */
  lemma {:induction false} OrderCounts(m: Data, order: seq<string>, k: string)
    requires forall i, j :: 0 <= i < j < |order| ==> order[i] != order[j]
    ensures multiset(order)[k] == if k in order then 1 else 0
  {
    if order != [] {
      assert order == [order[0]] + order[1..];
      OrderCounts(m, order[1..], k);
    }
  }

  lemma OrdersAgree(m: Data, a: seq<string>, b: seq<string>)
    requires IsOrder(m, a) && IsOrder(m, b)
    ensures multiset(a) == multiset(b)
  {
    forall k: string
      ensures multiset(a)[k] == multiset(b)[k]
    {
      OrderCounts(m, a, k);
      OrderCounts(m, b, k);
    }
  }

  /** The multiset of parts is decided by the multiset of keys. */
  lemma {:induction false} PartsRemove(m: Data, order: seq<string>, i: nat)
    requires i < |order| && forall k :: k in order ==> k in m
    ensures multiset(Parts(m, order)) ==
            multiset{Part(order[i], m[order[i]])} + multiset(Parts(m, order[..i] + order[i + 1..]))
    decreases i
  {
    if i == 0 {
      assert order[..0] + order[1..] == order[1..];
    } else {
      var without := order[..i] + order[i + 1..];
      assert without[0] == order[0] && without[1..] == order[1..][..i - 1] + order[1..][i..];
      PartsRemove(m, order[1..], i - 1);
    }
  }

  lemma {:induction false} PartsPermute(m: Data, a: seq<string>, b: seq<string>)
    requires (forall k :: k in a ==> k in m) && (forall k :: k in b ==> k in m)
    requires multiset(a) == multiset(b)
    ensures multiset(Parts(m, a)) == multiset(Parts(m, b))
    decreases |a|
  {
    assert |a| == |multiset(a)| == |multiset(b)| == |b|;
    if a != [] {
      WithoutFirst(a);
      var i :| 0 <= i < |b| && b[i] == a[0];
      var without := b[..i] + b[i + 1..];
      assert b == b[..i] + [b[i]] + b[i + 1..];
      assert multiset(without) == multiset(b) - multiset{a[0]};
      PartsRemove(m, b, i);
      PartsPermute(m, a[1..], without);
    }
  }

  function Render(m: Data, order: seq<string>): string
    requires forall k :: k in order ==> k in m
  {
    Join(Sort(Parts(m, order)), '|')
  }

  /** The pre-image of a secret's hash: render it in any order. */
  ghost function Preimage(m: Data): string {
    OrderExists(m);
    var order :| IsOrder(m, order);
    Render(m, order)
  }

  /** The order of iteration is immaterial. */
  lemma IterationOrderIrrelevant(m: Data, order: seq<string>)
    requires IsOrder(m, order)
    ensures Render(m, order) == Preimage(m)
  {
    OrderExists(m);
    var other :| IsOrder(m, other) && Preimage(m) == Render(m, other);
    OrdersAgree(m, order, other);
    PartsPermute(m, order, other);
    SortCanonical(Parts(m, order), Parts(m, other));
    assert Render(m, order) == Render(m, other);
  }

  /** What is hashed: the entries as "key=value", sorted and joined with bars. */
  lemma PreimageSpelledOut(m: Data, order: seq<string>, parts: seq<string>)
    requires IsOrder(m, order) && |parts| == |order|
    requires forall i :: 0 <= i < |order| ==> parts[i] == order[i] + "=" + m[order[i]]
    ensures Preimage(m) == Join(Sort(parts), '|')
  {
    IterationOrderIrrelevant(m, order);
    PartsAre(m, order, parts);
  }

  lemma {:induction false} PartsAre(m: Data, order: seq<string>, parts: seq<string>)
    requires |parts| == |order| && forall k :: k in order ==> k in m
    requires forall i :: 0 <= i < |order| ==> parts[i] == order[i] + "=" + m[order[i]]
    ensures parts == Parts(m, order)
  {
    if order != [] {
      assert parts == [parts[0]] + parts[1..] && order == [order[0]] + order[1..];
      PartsAre(m, order[1..], parts[1..]);
    }
  }

  /** No separator where it would be misread. */
  predicate Separable(m: Data) {
    forall k :: k in m ==> '=' !in k && '|' !in k && '|' !in m[k]
  }

  function FromParts(parts: seq<string>): Data {
    if parts == [] then map[]
    else FromParts(parts[1..])[Head(parts[0], '=') := Tail(parts[0], '=')]
  }

  /** Read a pre-image back. */
  function Parse(text: string): Data {
    FromParts(Split(text, '|'))
  }

  lemma {:induction false} FromPartsExact(parts: seq<string>, k: string)
    ensures k in FromParts(parts) <==> exists part :: part in parts && Head(part, '=') == k
    ensures k in FromParts(parts) ==>
              exists part :: part in parts && Head(part, '=') == k && FromParts(parts)[k] == Tail(part, '=')
  {
    if parts != [] {
      assert parts == [parts[0]] + parts[1..];
      FromPartsExact(parts[1..], k);
      assert parts[0] in parts;
    }
  }

  lemma {:induction false} PartsExact(m: Data, order: seq<string>, part: string)
    requires forall k :: k in order ==> k in m
    ensures part in Parts(m, order) <==> exists k :: k in order && part == Part(k, m[k])
  {
    if order != [] {
      assert order == [order[0]] + order[1..];
      PartsExact(m, order[1..], part);
    }
  }

  lemma PartReads(k: string, v: string)
    requires '=' !in k && '|' !in k && '|' !in v
    ensures Head(Part(k, v), '=') == k && Tail(Part(k, v), '=') == v
    ensures Part(k, v) != "" && '|' !in Part(k, v)
  {
    HeadTail(k, '=', v);
    assert k + ['='] + v == Part(k, v);
  }

  /** Reading the parts of a separable map gives its entries, in any order. */
  lemma PartsReadBack(m: Data, parts: seq<string>)
    requires Separable(m)
    requires forall part :: part in parts <==> exists k :: k in m && part == Part(k, m[k])
    ensures FromParts(parts) == m
    ensures forall part :: part in parts ==> part != "" && '|' !in part
  {
    forall part | part in parts
      ensures part != "" && '|' !in part
    {
      var k :| k in m && part == Part(k, m[k]);
      PartReads(k, m[k]);
    }
    forall k: string
      ensures k in FromParts(parts) <==> k in m
      ensures k in m ==> FromParts(parts)[k] == m[k]
    {
      FromPartsExact(parts, k);
      if k in m {
        PartReads(k, m[k]);
        assert Part(k, m[k]) in parts;
      }
      if k in FromParts(parts) {
        var part :| part in parts && Head(part, '=') == k && FromParts(parts)[k] == Tail(part, '=');
        var k' :| k' in m && part == Part(k', m[k']);
        PartReads(k', m[k']);
      }
    }
  }

  lemma SeparableRoundTrip(m: Data)
    requires Separable(m)
    ensures Parse(Preimage(m)) == m
  {
    OrderExists(m);
    var order :| IsOrder(m, order);
    IterationOrderIrrelevant(m, order);
    var parts := Sort(Parts(m, order));
    SortSorts(Parts(m, order));
    forall part: string
      ensures part in parts <==> exists k :: k in m && part == Part(k, m[k])
    {
      assert part in parts <==> part in multiset(parts);
      assert part in Parts(m, order) <==> part in multiset(Parts(m, order));
      PartsExact(m, order, part);
    }
    PartsReadBack(m, parts);
    SplitJoin(parts, '|');
  }

  /** The reader only ever produces separable maps. */
  lemma ParseSeparable(text: string)
    ensures Separable(Parse(text))
  {
    var parts := Split(text, '|');
    forall k | k in Parse(text)
      ensures '=' !in k && '|' !in k && '|' !in Parse(text)[k]
    {
      FromPartsExact(parts, k);
      var part :| part in parts && Head(part, '=') == k && Parse(text)[k] == Tail(part, '=');
    }
  }

  /** Exactly the separable maps can be read back from their pre-image. */
  lemma ReadsBackIff(m: Data)
    ensures Parse(Preimage(m)) == m <==> Separable(m)
  {
    ParseSeparable(Preimage(m));
    if Separable(m) {
      SeparableRoundTrip(m);
    }
  }

  /** Hence, between separable maps, equal pre-images mean equal data. */
  lemma PreimageInjective(m: Data, m': Data)
    requires Separable(m) && Separable(m')
    ensures Preimage(m) == Preimage(m') <==> m == m'
  {
    SeparableRoundTrip(m);
    SeparableRoundTrip(m');
  }

  lemma SortedAlready(s: seq<string>)
    requires Sorted(s)
    ensures Sort(s) == s
  {
    SortSorts(s);
    SortedUnique(Sort(s), s);
  }

  lemma SingleElement(keys: set<string>, k: string)
    requires k in keys && |keys| <= 1
    ensures keys == {k}
  {
    assert |keys - {k}| == 0;
    assert keys == (keys - {k}) + {k};
  }

  lemma OneEntry(k: string, v: string)
    ensures Preimage(map[k := v]) == Part(k, v)
  {
    var m := map[k := v];
    IterationOrderIrrelevant(m, [k]);
    assert Parts(m, [k]) == [Part(k, v)] + Parts(m, [k][1..]) == [Part(k, v)];
    SortedAlready([Part(k, v)]);
  }

  lemma TwoEntries(k: string, v: string, k': string, v': string)
    requires k != k' && Leq(Part(k, v), Part(k', v'))
    ensures Preimage(map[k := v, k' := v']) == Part(k, v) + "|" + Part(k', v')
  {
    var m := map[k := v, k' := v'];
    var parts := [Part(k, v), Part(k', v')];
    IterationOrderIrrelevant(m, [k, k']);
    assert [k, k'][1..] == [k'] && [k'][1..] == [];
    assert Parts(m, [k']) == [Part(k', v')] + Parts(m, []);
    assert Parts(m, [k, k']) == [Part(k, v)] + Parts(m, [k']) == parts;
    SortedAlready(parts);
    assert parts[1..] == [Part(k', v')] && Join([Part(k', v')], '|') == Part(k', v');
    assert Join(parts, '|') == Part(k, v) + "|" + Part(k', v');
  }

  /** With a separator in a value two different secrets hash alike. */
  lemma SeparatorsCollide(k: string, v: string, k': string, v': string)
    requires k != k' && Leq(Part(k, v), Part(k', v'))
    ensures var m, m' := map[k := v + "|" + Part(k', v')], map[k := v, k' := v'];
            m != m' && Preimage(m) == Preimage(m')
  {
    var m, m' := map[k := v + "|" + Part(k', v')], map[k := v, k' := v'];
    OneEntry(k, v + "|" + Part(k', v'));
    TwoEntries(k, v, k', v');
    assert k' in m' && k' !in m;
    assert Part(k, v + "|" + Part(k', v')) == Part(k, v) + "|" + Part(k', v');
  }

  /** SHA-256 in hexadecimal. */
  type Hash = string -> string

  lemma {:induction false} PartsAppend(m: Data, order: seq<string>, k: string)
    requires k in m && forall k' :: k' in order ==> k' in m
    ensures Parts(m, order + [k]) == Parts(m, order) + [Part(k, m[k])]
  {
    if order == [] {
      assert Parts(m, [k]) == [Part(k, m[k])] + Parts(m, [k][1..]);
    } else {
      assert (order + [k])[1..] == order[1..] + [k];
      PartsAppend(m, order[1..], k);
    }
  }

  /** computeSecretHash of a secret that was read (or not): the loop visits the
      entries in whatever order the map yields them. */
  method ComputeSecretHash(hash: Hash, secret: Option<Data>) returns (r: Option<string>)
    ensures r == if secret.None? then None else Some(hash(Preimage(secret.value)))
  {
    if secret.None? { return None; }
    var m := secret.value;
    var parts: seq<string> := [];
    var keys := m.Keys;
    ghost var order: seq<string> := [];
    while keys != {}
      invariant keys <= m.Keys && (forall k :: k in order <==> k in m.Keys - keys)
      invariant forall i, j :: 0 <= i < j < |order| ==> order[i] != order[j]
      invariant parts == Parts(m, order)
      decreases |keys|
    {
      var k :| k in keys;
      PartsAppend(m, order, k);
      assert forall i :: 0 <= i < |order| ==> order[i] in order;
      parts := parts + [k + "=" + m[k]];
      order := order + [k];
      keys := keys - {k};
    }
    IterationOrderIrrelevant(m, order);
    return Some(hash(Join(Sort(parts), '|')));
  }
}
