/** The endorser's rollout annotations: one truncated hash for each secret it
    records, of keys and values run together, and what they can tell apart. */
module EndorserRollout {
  import opened Prelude
  import opened Sorting
  import opened SecretHash
  import opened SecretHashExact
  import EndorserPod

  /** What the endorser feeds its hash: keys in sorted order, each followed by its
      value, without separators. */
  function Concat(m: Data, keys: seq<string>): string
    requires forall k :: k in keys ==> k in m
  {
    if keys == [] then "" else keys[0] + m[keys[0]] + Concat(m, keys[1..])
  }

  lemma SortKeepsElements(keys: seq<string>)
    ensures forall k :: k in Sort(keys) <==> k in keys
  {
    SortSorts(keys);
    forall k: string
      ensures k in Sort(keys) <==> k in keys
    {
      assert k in Sort(keys) <==> k in multiset(Sort(keys));
      assert k in keys <==> k in multiset(keys);
    }
  }

  ghost function ConcatPreimage(m: Data): string {
    OrderExists(m);
    var order :| IsOrder(m, order);
    SortKeepsElements(order);
    Concat(m, Sort(order))
  }

  lemma ConcatCanonical(m: Data, order: seq<string>)
    requires IsOrder(m, order)
    ensures forall k :: k in Sort(order) ==> k in m
    ensures Concat(m, Sort(order)) == ConcatPreimage(m)
  {
    SortKeepsElements(order);
    OrderExists(m);
    var other :| IsOrder(m, other) && ConcatPreimage(m) == (SortKeepsElements(other); Concat(m, Sort(other)));
    OrdersAgree(m, order, other);
    SortCanonical(order, other);
  }

  /** The keys of a map in whatever order it yields them. */
  method Keys(data: Data) returns (keys: seq<string>)
    ensures IsOrder(data, keys)
  {
    keys := [];
    var remaining := data.Keys;
    while remaining != {}
      invariant remaining <= data.Keys && (forall k :: k in keys <==> k in data.Keys - remaining)
      invariant forall i, j :: 0 <= i < j < |keys| ==> keys[i] != keys[j]
      decreases |remaining|
    {
      var k :| k in remaining;
      assert forall i :: 0 <= i < |keys| ==> keys[i] in keys;
      keys := keys + [k];
      remaining := remaining - {k};
    }
  }

  /** hashSecretData: the first sixteen characters of the hash. */
  method HashSecretData(hash: Hash, data: Data) returns (r: string)
    requires forall text :: |hash(text)| >= 16
    ensures r == hash(ConcatPreimage(data))[..16]
  {
    var keys := Keys(data);
    ConcatCanonical(data, keys);
    keys := Sort(keys);
    assert Concat(data, keys) == ConcatPreimage(data);
    assert keys[0..] == keys;
    var written := "";
    for i := 0 to |keys|
      invariant Concat(data, keys) == written + Concat(data, keys[i..])
    {
      assert keys[i..][1..] == keys[i + 1..] && keys[i] in keys;
      written := written + (keys[i] + data[keys[i]]);
    }
    assert keys[|keys|..] == [] && written == Concat(data, keys);
    return hash(written)[..16];
  }

  lemma {:induction false} ConcatAligned(m: Data, m': Data, keys: seq<string>)
    requires forall k :: k in keys ==> k in m && k in m' && |m[k]| == |m'[k]|
    requires Concat(m, keys) == Concat(m', keys)
    ensures forall k :: k in keys ==> m[k] == m'[k]
  {
    if keys != [] {
      var k := keys[0];
      var text := Concat(m, keys);
      assert m[k] == text[|k|..|k| + |m[k]|] == m'[k];
      assert Concat(m, keys[1..]) == text[|k| + |m[k]|..] == Concat(m', keys[1..]);
      ConcatAligned(m, m', keys[1..]);
      assert keys == [k] + keys[1..];
    }
  }

  /** With the keys and the lengths of the values unchanged, the endorser's
      pre-image tells data apart... */
  lemma ConcatSeparates(m: Data, m': Data)
    requires m.Keys == m'.Keys && forall k :: k in m ==> |m[k]| == |m'[k]|
    ensures ConcatPreimage(m) == ConcatPreimage(m') <==> m == m'
  {
    OrderExists(m);
    var order :| IsOrder(m, order);
    assert IsOrder(m', order);
    ConcatCanonical(m, order);
    ConcatCanonical(m', order);
    if ConcatPreimage(m) == ConcatPreimage(m') {
      SortKeepsElements(order);
      ConcatAligned(m, m', Sort(order));
      assert m == m';
    }
  }

  /** ...but text that moves between a key and its value goes unnoticed. */
  lemma ConcatCollides(k: string, x: string, v: string)
    requires x != ""
    ensures map[k := x + v] != map[k + x := v]
    ensures ConcatPreimage(map[k := x + v]) == ConcatPreimage(map[k + x := v])
  {
    var m, m' := map[k := x + v], map[k + x := v];
    assert |k| != |k + x|;
    assert k in m && k !in m';
    ConcatCanonical(m, [k]);
    ConcatCanonical(m', [k + x]);
    SortedAlready([k]);
    SortedAlready([k + x]);
    assert [k][1..] == [] && [k + x][1..] == [];
    assert k + (x + v) + "" == k + x + v + "";
  }

  /** Does the pre-image tell apart all data with these keys? */
  ghost predicate ConcatInjectiveOver(keys: set<string>) {
    forall m: Data, m': Data :: m.Keys == keys && m'.Keys == keys && ConcatPreimage(m) == ConcatPreimage(m') ==> m == m'
  }

  lemma {:induction false} ConcatSame(m: Data, m': Data, keys: seq<string>)
    requires forall k :: k in keys ==> k in m && k in m' && m[k] == m'[k]
    ensures Concat(m, keys) == Concat(m', keys)
  {
    if keys != [] {
      assert keys == [keys[0]] + keys[1..];
      ConcatSame(m, m', keys[1..]);
    }
  }

  lemma ConcatTwo(m: Data, a: string, b: string, rest: seq<string>)
    requires forall k :: k in [a, b] + rest ==> k in m
    ensures a in m && b in m && (forall k :: k in rest ==> k in m)
    ensures Concat(m, [a, b] + rest) == a + m[a] + (b + m[b] + Concat(m, rest))
  {
    assert a in [a, b] + rest && b in [a, b] + rest && forall k :: k in rest ==> k in [a, b] + rest;
    assert ([a, b] + rest)[1..] == [b] + rest && ([b] + rest)[1..] == rest;
  }

  /** The keys in sorted order, the first two singled out. */
  lemma SortedKeys(keys: set<string>) returns (a: string, b: string, rest: seq<string>, order: seq<string>)
    requires |keys| >= 2
    ensures a in keys && b in keys && a != b && b != "" && a !in rest && b !in rest
    ensures forall k :: k in order <==> k in keys
    ensures forall i, j :: 0 <= i < j < |order| ==> order[i] != order[j]
    ensures Sort(order) == [a, b] + rest
  {
    var m: Data := map k | k in keys :: "";
    assert m.Keys == keys;
    OrderExists(m);
    order :| IsOrder(m, order);
    SortSorts(order);
    SortKeepsElements(order);
    var sorted := Sort(order);
    assert |sorted| == |multiset(sorted)| == |multiset(order)| == |order|;
    OrderLength(m, order);
    assert |m| == |m.Keys| == |keys|;
    a, b, rest := sorted[0], sorted[1], sorted[2..];
    assert sorted == [a, b] + rest;
    assert a in sorted && b in sorted;
    OrderCounts(m, order, a);
    OrderCounts(m, order, b);
    assert multiset(sorted) == multiset{a, b} + multiset(rest);
    assert Leq(a, b);
  }

  lemma SlideKey(a: string, b: string, text: string)
    ensures a + "" + (b + b + text) == a + b + (b + "" + text)
  {
  }

  /** The second key may belong to either value. */
  lemma ConcatTraded(m: Data, m': Data, a: string, b: string, rest: seq<string>)
    requires forall k :: k in [a, b] + rest ==> k in m && k in m'
    requires a in m && b in m && m[a] == "" && m[b] == b && a in m' && b in m' && m'[a] == b && m'[b] == ""
    requires forall k :: k in rest ==> k in m && k in m' && m[k] == m'[k]
    ensures Concat(m, [a, b] + rest) == Concat(m', [a, b] + rest)
  {
    ConcatTwo(m, a, b, rest);
    ConcatTwo(m', a, b, rest);
    ConcatSame(m, m', rest);
    SlideKey(a, b, Concat(m, rest));
  }

  lemma ConcatCollideOver(keys: set<string>) returns (m: Data, m': Data)
    requires |keys| >= 2
    ensures m.Keys == m'.Keys == keys && m != m' && ConcatPreimage(m) == ConcatPreimage(m')
  {
    var a, b, rest, order := SortedKeys(keys);
    var empty: Data := map k | k in keys :: "";
    m, m' := empty[a := ""][b := b], empty[a := b][b := ""];
    assert m[b] != m'[b];
    ConcatCanonical(m, order);
    ConcatCanonical(m', order);
    assert forall k :: k in rest ==> k in Sort(order);
    ConcatTraded(m, m', a, b, rest);
  }

  lemma ConcatOne(k: string, v: string)
    ensures ConcatPreimage(map[k := v]) == k + v
  {
    var m := map[k := v];
    ConcatCanonical(m, [k]);
    SortedAlready([k]);
    assert [k][1..] == [];
  }

  lemma ConcatNone()
    ensures ConcatPreimage(map[]) == ""
  {
    ConcatCanonical(map[], []);
  }

  /** Over a fixed set of keys the endorser's pre-image, too, tells all data apart
      if and only if there is at most one key. */
  lemma ConcatInjectiveOverIff(keys: set<string>)
    ensures ConcatInjectiveOver(keys) <==> |keys| <= 1
  {
    if |keys| >= 2 {
      var m, m' := ConcatCollideOver(keys);
    } else {
      forall m: Data, m': Data | m.Keys == keys && m'.Keys == keys && ConcatPreimage(m) == ConcatPreimage(m')
        ensures m == m'
      {
        if k :| k in keys {
          SingleElement(keys, k);
          assert m == map[k := m[k]] && m' == map[k := m'[k]];
          ConcatOne(k, m[k]);
          ConcatOne(k, m'[k]);
          assert m[k] == (k + m[k])[|k|..] && m'[k] == (k + m'[k])[|k|..];
        } else {
          assert m == map[] == m';
        }
      }
    }
  }

  /** No secret can be told from its pre-image: some other one has the same. */
  lemma ConcatNeverIdentifies(m: Data) returns (m': Data)
    ensures m' != m && ConcatPreimage(m') == ConcatPreimage(m)
  {
    var text := ConcatPreimage(m);
    ConcatOne(text, "");
    ConcatOne("", text);
    ConcatNone();
    if m != map[text := ""] {
      m' := map[text := ""];
    } else if text != "" {
      m' := map["" := text];
      assert "" in m' && "" !in m;
    } else {
      m' := map[];
      assert text in m;
    }
  }

  /** The secrets that get an annotation of their own. */
  datatype Role = Core | Sign | Tls

  function AnnotationKey(role: Role): string {
    match role
    case Core => "fabric-x.kfsoft.tech/core-config-hash"
    case Sign => "fabric-x.kfsoft.tech/sign-cert-hash"
    case Tls => "fabric-x.kfsoft.tech/tls-cert-hash"
  }

  /** The secret of a role, if one is recorded. */
  function SecretOf(e: EndorserPod.Endorser, role: Role): Option<string> {
    var certs := e.certificateSecrets;
    match role
    case Core => Some(e.name + "-core-config")
    case Sign => if "sign" in certs then Some(certs["sign"]) else None
    case Tls => if "tls" in certs then Some(certs["tls"]) else None
  }

  /** The secrets of the endorser's namespace that can be read, by name. */
  type Readable = map<string, Data>

  function At<K, V>(m: map<K, V>, k: K): Option<V> {
    if k in m then Some(m[k]) else None
  }

  /** hashSecretData as a function of the data. */
  ghost function Digest(hash: Hash, data: Option<Data>): Option<string>
    requires forall text :: |hash(text)| >= 16
  {
    if data.None? then None else Some(hash(ConcatPreimage(data.value))[..16])
  }

  ghost function Shown(hash: Hash, e: EndorserPod.Endorser, read: Readable, role: Role): Option<string>
    requires forall text :: |hash(text)| >= 16
  {
    if SecretOf(e, role).None? then None else Digest(hash, At(read, SecretOf(e, role).value))
  }

  /** These are the pod's annotations: the custom ones, and where they leave room
      the digests of the recorded secrets. */
  ghost predicate Annotated(hash: Hash, e: EndorserPod.Endorser, read: Readable, custom: map<string, string>,
                            r: map<string, string>)
    requires forall text :: |hash(text)| >= 16
  {
    && (forall k :: k in custom ==> At(r, k) == Some(custom[k]))
    && (forall role: Role :: AnnotationKey(role) !in custom ==>
          At(r, AnnotationKey(role)) == Shown(hash, e, read, role))
    && (forall k :: k in r && k !in custom ==> exists role: Role :: k == AnnotationKey(role))
  }

  /** One block of addConfigHashAnnotations. */
  method Annotate(hash: Hash, read: Readable, secret: string, key: string, annotations: map<string, string>)
    returns (r: map<string, string>)
    requires forall text :: |hash(text)| >= 16
    requires key !in annotations
    ensures forall k :: k != key ==> At(r, k) == At(annotations, k)
    ensures At(r, key) == Digest(hash, At(read, secret))
  {
    r := annotations;
    if secret in read {
      var h := HashSecretData(hash, read[secret]);
      r := r[key := h];
    }
  }

  lemma KeysDiffer(a: Role, b: Role)
    ensures AnnotationKey(a) == AnnotationKey(b) <==> a == b
  {
    assert AnnotationKey(Core)[21] == 'c' && AnnotationKey(Sign)[21] == 's' && AnnotationKey(Tls)[21] == 't';
  }

  /** addConfigHashAnnotations */
  method AddConfigHashAnnotations(hash: Hash, e: EndorserPod.Endorser, read: Readable)
    returns (annotations: map<string, string>)
    requires forall text :: |hash(text)| >= 16
    ensures Annotated(hash, e, read, map[], annotations)
  {
    KeysDiffer(Core, Sign);
    KeysDiffer(Core, Tls);
    KeysDiffer(Sign, Tls);
    var core, sign, tls := AnnotationKey(Core), AnnotationKey(Sign), AnnotationKey(Tls);
    annotations := Annotate(hash, read, e.name + "-core-config", core, map[]);
    assert At(annotations, sign) == None && At(annotations, tls) == None;
    if "sign" in e.certificateSecrets {
      annotations := Annotate(hash, read, e.certificateSecrets["sign"], sign, annotations);
    }
    if "tls" in e.certificateSecrets {
      annotations := Annotate(hash, read, e.certificateSecrets["tls"], tls, annotations);
    }
    assert At(annotations, core) == Shown(hash, e, read, Core);
    assert At(annotations, sign) == Shown(hash, e, read, Sign);
    assert At(annotations, tls) == Shown(hash, e, read, Tls);
    OnlyRoleKeys(annotations);
  }

  lemma OnlyRoleKeys(r: map<string, string>)
    requires forall k :: k !in {AnnotationKey(Core), AnnotationKey(Sign), AnnotationKey(Tls)} ==> At(r, k) == None
    ensures forall k :: k in r ==> exists role: Role :: k == AnnotationKey(role)
  {
    forall k | k in r
      ensures exists role: Role :: k == AnnotationKey(role)
    {
      assert At(r, k) != None;
    }
  }

  /** The loop that puts the custom annotations over the others. */
  method Override(own: map<string, string>, custom: map<string, string>) returns (annotations: map<string, string>)
    ensures forall k :: At(annotations, k) == if k in custom then Some(custom[k]) else At(own, k)
  {
    annotations := own;
    var keys := custom.Keys;
    while keys != {}
      invariant keys <= custom.Keys
      invariant forall k :: At(annotations, k) == if k in custom.Keys - keys then Some(custom[k]) else At(own, k)
      decreases |keys|
    {
      var k :| k in keys;
      annotations := annotations[k := custom[k]];
      keys := keys - {k};
    }
  }

  /** The annotations of the pod template. */
  method PodAnnotations(hash: Hash, e: EndorserPod.Endorser, read: Readable, custom: map<string, string>)
    returns (annotations: map<string, string>)
    requires forall text :: |hash(text)| >= 16
    ensures Annotated(hash, e, read, custom, annotations)
  {
    var own := AddConfigHashAnnotations(hash, e, read);
    annotations := Override(own, custom);
    forall k | k in annotations && k !in custom
      ensures exists role: Role :: k == AnnotationKey(role)
    {
      assert At(annotations, k) == At(own, k);
    }
  }

  /** The digest of a secret, if there is one and it can be read. */
  ghost predicate Tells(hash: Hash, read: Readable, secret: string, r: map<string, string>, key: string)
    requires forall text :: |hash(text)| >= 16
  {
    if secret in read then key in r && r[key] == hash(ConcatPreimage(read[secret]))[..16] else key !in r
  }

  /** Which annotation tells of which secret. */
  lemma AnnotationsSpelledOut(hash: Hash, e: EndorserPod.Endorser, read: Readable, custom: map<string, string>,
                              r: map<string, string>)
    requires forall text :: |hash(text)| >= 16
    requires Annotated(hash, e, read, custom, r)
    ensures var core, sign, tls := "fabric-x.kfsoft.tech/core-config-hash", "fabric-x.kfsoft.tech/sign-cert-hash",
                                   "fabric-x.kfsoft.tech/tls-cert-hash";
            var certs := e.certificateSecrets;
            && (core !in custom ==> Tells(hash, read, e.name + "-core-config", r, core))
            && (sign !in custom ==> if "sign" in certs then Tells(hash, read, certs["sign"], r, sign) else sign !in r)
            && (tls !in custom ==> if "tls" in certs then Tells(hash, read, certs["tls"], r, tls) else tls !in r)
            && (forall k :: k in custom ==> k in r && r[k] == custom[k])
            && forall k :: k in r && k !in custom ==> k in {core, sign, tls}
  {
    var core, sign, tls := AnnotationKey(Core), AnnotationKey(Sign), AnnotationKey(Tls);
    assert core !in custom ==> At(r, core) == Shown(hash, e, read, Core);
    assert sign !in custom ==> At(r, sign) == Shown(hash, e, read, Sign);
    assert tls !in custom ==> At(r, tls) == Shown(hash, e, read, Tls);
    assert forall k :: k in custom ==> At(r, k) == Some(custom[k]);
  }

  lemma AgreeingDigests(hash: Hash, e: EndorserPod.Endorser, custom: map<string, string>, read: Readable,
                        read': Readable, r: map<string, string>, r': map<string, string>)
    requires forall text :: |hash(text)| >= 16
    requires Annotated(hash, e, read, custom, r) && Annotated(hash, e, read', custom, r')
    requires forall role: Role ::
               AnnotationKey(role) in custom || Shown(hash, e, read, role) == Shown(hash, e, read', role)
    ensures r == r'
  {
    forall k: string
      ensures At(r, k) == At(r', k)
    {
      if k !in custom && (k in r || k in r') {
        var role: Role :| k == AnnotationKey(role);
        assert At(r, k) == Shown(hash, e, read, role) == Shown(hash, e, read', role) == At(r', k);
      }
    }
    SameEverywhere(r, r');
  }

  /** The annotations change exactly with the digest of some recorded secret whose
      key is not overridden; unlike the sidecar's they notice a swap. */
  lemma AnnotationsExact(hash: Hash, e: EndorserPod.Endorser, custom: map<string, string>, read: Readable,
                         read': Readable, r: map<string, string>, r': map<string, string>)
    requires forall text :: |hash(text)| >= 16
    requires Annotated(hash, e, read, custom, r) && Annotated(hash, e, read', custom, r')
    ensures r == r' <==> forall role: Role ::
              AnnotationKey(role) in custom || Shown(hash, e, read, role) == Shown(hash, e, read', role)
  {
    if r == r' {
      forall role: Role | AnnotationKey(role) !in custom
        ensures Shown(hash, e, read, role) == Shown(hash, e, read', role)
      {
        assert At(r, AnnotationKey(role)) == Shown(hash, e, read, role);
      }
    } else if forall role: Role ::
        AnnotationKey(role) in custom || Shown(hash, e, read, role) == Shown(hash, e, read', role) {
      AgreeingDigests(hash, e, custom, read, read', r, r');
    }
  }

  lemma SameEverywhere(r: map<string, string>, r': map<string, string>)
    requires forall k :: At(r, k) == At(r', k)
    ensures r == r'
  {
    forall k: string
      ensures k in r <==> k in r'
      ensures k in r ==> r[k] == r'[k]
    {
      assert At(r, k) == At(r', k);
    }
  }

  /** Editing one secret rolls the pods exactly if it is recorded in a role whose
      key is not overridden and its digest changes.  So an edit of a secret that
      is only mounted, such as a resolver's, goes unnoticed. */
  lemma EditSeenIff(hash: Hash, e: EndorserPod.Endorser, custom: map<string, string>, read: Readable,
                    read': Readable, secret: string, r: map<string, string>, r': map<string, string>)
    requires forall text :: |hash(text)| >= 16
    requires Annotated(hash, e, read, custom, r) && Annotated(hash, e, read', custom, r')
    requires forall name :: name != secret ==> At(read, name) == At(read', name)
    ensures r != r' <==>
            && (exists role: Role :: SecretOf(e, role) == Some(secret) && AnnotationKey(role) !in custom)
            && Digest(hash, At(read, secret)) != Digest(hash, At(read', secret))
  {
    AnnotationsExact(hash, e, custom, read, read', r, r');
    forall role: Role
      ensures Shown(hash, e, read, role) != Shown(hash, e, read', role) <==>
              SecretOf(e, role) == Some(secret) && Digest(hash, At(read, secret)) != Digest(hash, At(read', secret))
    {
      if SecretOf(e, role).Some? {
        var name := SecretOf(e, role).value;
        assert name != secret ==> At(read, name) == At(read', name);
      }
    }
  }
}
