/** The pod annotation that makes the sidecar's Deployment roll out: what its
    combined hash can and cannot tell apart. */
module Rollout {
  import opened Prelude
  import opened Components
  import opened Sorting
  import opened SecretHash
  import opened SecretHashExact

  /** What the sidecar's annotation is computed from; a secret that cannot be read
      is left out. */
  datatype Inputs = Inputs(config: Option<Data>, sign: Option<Data>, tls: Option<Data>, env: seq<EnvVar>)

  function EnvText(env: seq<EnvVar>): string {
    if env == [] then "" else env[0].name + "=" + env[0].val + "|" + EnvText(env[1..])
  }

  ghost function SecretDigest(hash: Hash, secret: Option<Data>): Option<string> {
    if secret.None? then None else Some(hash(Preimage(secret.value)))
  }

  function EnvDigest(hash: Hash, env: seq<EnvVar>): Option<string> {
    if env == [] then None else Some(hash(EnvText(env)))
  }

  /** The digest each of the four inputs contributes, if any. */
  ghost function Contributions(hash: Hash, s: Inputs): seq<Option<string>> {
    [SecretDigest(hash, s.config), SecretDigest(hash, s.sign), SecretDigest(hash, s.tls), EnvDigest(hash, s.env)]
  }

  function Present(parts: seq<Option<string>>): seq<string> {
    if parts == [] then []
    else (if parts[0].Some? then [parts[0].value] else []) + Present(parts[1..])
  }

  ghost function Digests(hash: Hash, s: Inputs): seq<string> {
    Present(Contributions(hash, s))
  }

  /** The value of "fabricx.kfsoft.tech/config-hash". */
  ghost function Annotation(hash: Hash, s: Inputs): string {
    hash(Join(Sort(Digests(hash, s)), '|'))
  }

  lemma {:induction false} PresentSplits(a: seq<Option<string>>, b: seq<Option<string>>)
    ensures Present(a + b) == Present(a) + Present(b)
  {
    if a == [] {
      assert a + b == b;
    } else {
      assert (a + b)[1..] == a[1..] + b;
      PresentSplits(a[1..], b);
    }
  }

  /** One more contribution. */
  method Append(hashParts: seq<string>, ghost parts: seq<Option<string>>, digest: Option<string>)
    returns (r: seq<string>)
    requires hashParts == Present(parts)
    ensures r == Present(parts + [digest])
  {
    r := hashParts;
    PresentSplits(parts, [digest]);
    assert [digest][1..] == [];
    if digest.Some? {
      r := r + [digest.value];
    }
  }

  /** The first half of reconcileDeployment. */
  method CombinedHash(hash: Hash, s: Inputs) returns (r: string)
    ensures r == Annotation(hash, s)
  {
    var hashParts: seq<string> := [];
    var digest := ComputeSecretHash(hash, s.config);
    hashParts := Append(hashParts, [], digest);
    ghost var parts := [digest];
    digest := ComputeSecretHash(hash, s.sign);
    hashParts := Append(hashParts, parts, digest);
    parts := parts + [digest];
    digest := ComputeSecretHash(hash, s.tls);
    hashParts := Append(hashParts, parts, digest);
    parts := parts + [digest];
    digest := None;
    if |s.env| > 0 {
      var envString := EnvString(s.env);
      digest := Some(hash(envString));
    }
    hashParts := Append(hashParts, parts, digest);
    assert parts + [digest] == Contributions(hash, s);
    r := hash(Join(Sort(hashParts), '|'));
  }

  method EnvString(env: seq<EnvVar>) returns (envString: string)
    ensures envString == EnvText(env)
  {
    envString := "";
    for i := 0 to |env|
      invariant EnvText(env) == envString + EnvText(env[i..])
    {
      assert env[i..][1..] == env[i + 1..];
      envString := envString + (env[i].name + "=" + env[i].val + "|");
    }
    assert env[|env|..] == [];
  }

  /** The idealised hash: injective, and its hexadecimal values are neither empty
      nor contain the separator. */
  ghost predicate Ideal(hash: Hash) {
    && (forall a, b :: hash(a) == hash(b) ==> a == b)
    && forall a :: hash(a) != "" && '|' !in hash(a)
  }

  lemma {:induction false} PresentElements(parts: seq<Option<string>>, d: string)
    ensures d in Present(parts) <==> Some(d) in parts
  {
    if parts != [] {
      assert parts == [parts[0]] + parts[1..];
      PresentElements(parts[1..], d);
    }
  }

  lemma DigestsAreHex(hash: Hash, s: Inputs)
    requires Ideal(hash)
    ensures forall d :: d in Sort(Digests(hash, s)) ==> d != "" && '|' !in d
  {
    var sorted := Sort(Digests(hash, s));
    SortSorts(Digests(hash, s));
    forall d | d in sorted
      ensures d != "" && '|' !in d
    {
      assert d in multiset(sorted);
      assert d in Digests(hash, s);
      PresentElements(Contributions(hash, s), d);
    }
  }

  /** The annotation stands for the multiset of digests and for nothing else. */
  lemma AnnotationExact(hash: Hash, s: Inputs, s': Inputs)
    requires Ideal(hash)
    ensures Annotation(hash, s) == Annotation(hash, s') <==>
            multiset(Digests(hash, s)) == multiset(Digests(hash, s'))
  {
    DigestsAreHex(hash, s);
    DigestsAreHex(hash, s');
    SplitJoin(Sort(Digests(hash, s)), '|');
    SplitJoin(Sort(Digests(hash, s')), '|');
    SortCanonical(Digests(hash, s), Digests(hash, s'));
  }

  /** The multiset with contribution `i` singled out. */
  lemma SingledOut(parts: seq<Option<string>>, i: nat, d: Option<string>)
    requires i < |parts|
    ensures multiset(Present(parts[i := d])) ==
            multiset(Present(parts[..i])) + multiset(Present(parts[i + 1..])) + Bag(d)
  {
    assert parts[i := d] == parts[..i] + [d] + parts[i + 1..];
    PresentSplits(parts[..i] + [d], parts[i + 1..]);
    PresentSplits(parts[..i], [d]);
    assert [d][1..] == [];
  }

  /** Changing exactly one contribution changes the multiset. */
  lemma OneContributionMatters(parts: seq<Option<string>>, i: nat, d: Option<string>)
    requires i < |parts| && parts[i] != d
    ensures multiset(Present(parts)) != multiset(Present(parts[i := d]))
  {
    assert parts == parts[i := parts[i]];
    SingledOut(parts, i, parts[i]);
    SingledOut(parts, i, d);
    DifferentAddends(multiset(Present(parts[..i])) + multiset(Present(parts[i + 1..])), parts[i], d);
  }

  function Bag(d: Option<string>): multiset<string> {
    if d.Some? then multiset{d.value} else multiset{}
  }

  lemma DifferentAddends(rest: multiset<string>, d: Option<string>, d': Option<string>)
    requires d != d'
    ensures rest + Bag(d) != rest + Bag(d')
  {
    if d.Some? {
      assert (rest + Bag(d))[d.value] == rest[d.value] + 1;
      assert (rest + Bag(d'))[d.value] == rest[d.value];
    } else {
      assert (rest + Bag(d'))[d'.value] == rest[d'.value] + 1;
      assert (rest + Bag(d))[d'.value] == rest[d'.value];
    }
  }

  /** A change of exactly one input's digest always rolls the pods. */
  lemma OneDigestRollsOut(hash: Hash, s: Inputs, s': Inputs, i: nat)
    requires Ideal(hash) && i < 4
    requires Contributions(hash, s)[i] != Contributions(hash, s')[i]
    requires forall j :: 0 <= j < 4 && j != i ==> Contributions(hash, s)[j] == Contributions(hash, s')[j]
    ensures Annotation(hash, s) != Annotation(hash, s')
  {
    var parts, parts' := Contributions(hash, s), Contributions(hash, s');
    assert parts' == parts[i := parts'[i]];
    OneContributionMatters(parts, i, parts'[i]);
    AnnotationExact(hash, s, s');
  }

  ghost predicate SamePreimage(a: Option<Data>, b: Option<Data>) {
    if a.Some? && b.Some? then Preimage(a.value) == Preimage(b.value) else a == b
  }

  predicate SameEnvText(a: seq<EnvVar>, b: seq<EnvVar>) {
    (a == [] <==> b == []) && EnvText(a) == EnvText(b)
  }

  /** Exactly the edits that change the pre-image of the edited input roll the pods. */
  lemma EditRollsOutIff(hash: Hash, s: Inputs, s': Inputs)
    requires Ideal(hash)
    requires s' in {s.(config := s'.config), s.(sign := s'.sign), s.(tls := s'.tls), s.(env := s'.env)}
    ensures Annotation(hash, s') == Annotation(hash, s) <==>
            && SamePreimage(s'.config, s.config) && SamePreimage(s'.sign, s.sign) && SamePreimage(s'.tls, s.tls)
            && SameEnvText(s'.env, s.env)
  {
    var parts, parts' := Contributions(hash, s), Contributions(hash, s');
    var i := if s'.config != s.config then 0 else if s'.sign != s.sign then 1 else if s'.tls != s.tls then 2 else 3;
    assert forall j :: 0 <= j < 4 && j != i ==> parts[j] == parts'[j];
    assert parts[i] == parts'[i] <==>
           && SamePreimage(s'.config, s.config) && SamePreimage(s'.sign, s.sign) && SamePreimage(s'.tls, s.tls)
           && SameEnvText(s'.env, s.env);
    if parts[i] == parts'[i] {
      assert parts == parts';
    } else {
      OneDigestRollsOut(hash, s, s', i);
    }
  }

  /** Data that cannot be confused: free of separators before and after, or one
      entry under an unchanged key, whatever its text. */
  predicate ToldApart(a: Option<Data>, b: Option<Data>) {
    a.Some? && b.Some? ==>
      || (Separable(a.value) && Separable(b.value))
      || (a.value.Keys == b.value.Keys && |a.value.Keys| <= 1)
  }

  lemma ToldApartExact(a: Option<Data>, b: Option<Data>)
    requires ToldApart(a, b)
    ensures SamePreimage(a, b) <==> a == b
  {
    if a.Some? && b.Some? {
      if Separable(a.value) && Separable(b.value) {
        PreimageInjective(a.value, b.value);
      } else {
        SingleKeySeparates(a.value, b.value);
      }
    }
  }

  /** In particular, editing one mounted secret (or creating or deleting it) rolls
      the pods if its data are free of separators before and after, or are one
      entry under one key, as the rendered configuration is. */
  lemma SecretEditRollsOut(hash: Hash, s: Inputs, config: Option<Data>, sign: Option<Data>, tls: Option<Data>)
    requires Ideal(hash)
    ensures ToldApart(config, s.config) ==>
              (config != s.config <==> Annotation(hash, s.(config := config)) != Annotation(hash, s))
    ensures ToldApart(sign, s.sign) ==>
              (sign != s.sign <==> Annotation(hash, s.(sign := sign)) != Annotation(hash, s))
    ensures ToldApart(tls, s.tls) ==>
              (tls != s.tls <==> Annotation(hash, s.(tls := tls)) != Annotation(hash, s))
  {
    EditRollsOutIff(hash, s, s.(config := config));
    EditRollsOutIff(hash, s, s.(sign := sign));
    EditRollsOutIff(hash, s, s.(tls := tls));
    if ToldApart(config, s.config) { ToldApartExact(config, s.config); }
    if ToldApart(sign, s.sign) { ToldApartExact(sign, s.sign); }
    if ToldApart(tls, s.tls) { ToldApartExact(tls, s.tls); }
  }

  /** The configuration secret has one entry, so every change of the rendered text
      rolls the pods. */
  lemma ConfigEditRollsOut(hash: Hash, s: Inputs, before: string, after: string)
    requires Ideal(hash) && s.config == Some(map["sidecar_config.yaml" := before])
    ensures Annotation(hash, s.(config := Some(map["sidecar_config.yaml" := after]))) != Annotation(hash, s) <==>
            after != before
  {
    var a, b := map["sidecar_config.yaml" := after], map["sidecar_config.yaml" := before];
    assert a["sidecar_config.yaml"] == after && b["sidecar_config.yaml"] == before;
    assert a.Keys == b.Keys == {"sidecar_config.yaml"};
    SecretEditRollsOut(hash, s, Some(a), s.sign, s.tls);
  }

  predicate CleanEnv(env: seq<EnvVar>) {
    forall i :: 0 <= i < |env| ==> Clean(env[i].name) && '|' !in env[i].val
  }

  lemma {:induction false} EnvTextInjective(a: seq<EnvVar>, b: seq<EnvVar>)
    requires CleanEnv(a) && CleanEnv(b)
    ensures EnvText(a) == EnvText(b) <==> a == b
  {
    if a != [] && b != [] && EnvText(a) == EnvText(b) {
      EnvReads(a);
      EnvReads(b);
      EnvTextInjective(a[1..], b[1..]);
      assert a == [a[0]] + a[1..] && b == [b[0]] + b[1..];
    }
  }

  lemma EnvReads(env: seq<EnvVar>)
    requires CleanEnv(env) && env != []
    ensures var first := Head(EnvText(env), '|');
            && Head(first, '=') == env[0].name && Tail(first, '=') == env[0].val
            && Tail(EnvText(env), '|') == EnvText(env[1..])
  {
    PartReads(env[0].name, env[0].val);
    HeadTail(Part(env[0].name, env[0].val), '|', EnvText(env[1..]));
  }

  /** Every edit of an environment without separators rolls the pods; also a mere
      change of its order. */
  lemma EnvEditRollsOut(hash: Hash, s: Inputs, env: seq<EnvVar>)
    requires Ideal(hash) && CleanEnv(s.env) && CleanEnv(env)
    ensures env != s.env <==> Annotation(hash, s.(env := env)) != Annotation(hash, s)
  {
    EditRollsOutIff(hash, s, s.(env := env));
    EnvTextInjective(env, s.env);
  }

  /** A separator in a value can hide an edit of the environment. */
  lemma EnvCollides(a: string, x: string, b: string, y: string)
    ensures EnvText([EnvVar(a, x + "|" + b + "=" + y)]) == EnvText([EnvVar(a, x), EnvVar(b, y)])
  {
    var env := [EnvVar(a, x), EnvVar(b, y)];
    assert env[1..] == [EnvVar(b, y)] && env[1..][1..] == [];
    assert [EnvVar(a, x + "|" + b + "=" + y)][1..] == [];
    assert a + "=" + (x + "|" + b + "=" + y) + "|" == a + "=" + x + "|" + (b + "=" + y + "|");
  }

  /** The secrets of the cluster that can be read, by namespace and name. */
  type Secrets = map<(string, string), Data>

  function At(secrets: Secrets, secret: (string, string)): Option<Data> {
    if secret in secrets then Some(secrets[secret]) else None
  }

  function Hashed(name: string): seq<string> {
    [name + "-config", name + "-sign-cert", name + "-tls-cert"]
  }

  /** What the sidecar `name` of `namespace` reads for its annotation. */
  function InputsOf(secrets: Secrets, namespace: string, name: string, env: seq<EnvVar>): Inputs {
    Inputs(At(secrets, (namespace, Hashed(name)[0])), At(secrets, (namespace, Hashed(name)[1])),
           At(secrets, (namespace, Hashed(name)[2])), env)
  }

  lemma HashedDistinct(name: string)
    ensures var h := Hashed(name); h[0] != h[1] && h[0] != h[2] && h[1] != h[2]
  {
    var h := Hashed(name);
    assert h[0][|name| + 1] == 'c' && h[1][|name| + 1] == 's' && h[2][|name| + 1] == 't';
  }

  /** Editing, creating or deleting one secret of the cluster rolls the sidecar's
      pods exactly if it is one of the three hashed ones and its pre-image changes. */
  lemma SecretSeenIff(hash: Hash, secrets: Secrets, secrets': Secrets, edited: (string, string), namespace: string,
                      name: string, env: seq<EnvVar>)
    requires Ideal(hash)
    requires forall other :: other != edited ==> At(secrets', other) == At(secrets, other)
    ensures var s, s' := InputsOf(secrets, namespace, name, env), InputsOf(secrets', namespace, name, env);
            Annotation(hash, s') != Annotation(hash, s) <==>
            && edited.0 == namespace && edited.1 in {name + "-config", name + "-sign-cert", name + "-tls-cert"}
            && !SamePreimage(At(secrets', edited), At(secrets, edited))
  {
    HashedDistinct(name);
    var s, s' := InputsOf(secrets, namespace, name, env), InputsOf(secrets', namespace, name, env);
    EditRollsOutIff(hash, s, s');
  }

  /** So an edit of the genesis secret the pod mounts goes unnoticed, unless it is
      one of those three. */
  lemma GenesisEditUnseen(hash: Hash, secrets: Secrets, secrets': Secrets, genesis: GenesisRef, namespace: string,
                          name: string, env: seq<EnvVar>)
    requires Ideal(hash)
    requires forall other :: other != (namespace, genesis.secretName) ==> At(secrets', other) == At(secrets, other)
    ensures genesis.secretName !in Hashed(name) ==>
              Annotation(hash, InputsOf(secrets', namespace, name, env)) ==
              Annotation(hash, InputsOf(secrets, namespace, name, env))
  {
    SecretSeenIff(hash, secrets, secrets', (namespace, genesis.secretName), namespace, name, env);
  }

  lemma ThreeSplit(a: seq<Option<string>>, b: Option<string>, c: Option<string>, d: seq<Option<string>>)
    ensures Present(a + [b] + [c] + d) == Present(a) + Present([b]) + Present([c]) + Present(d)
  {
    PresentSplits(a + [b] + [c], d);
    PresentSplits(a + [b], [c]);
    PresentSplits(a, [b]);
  }

  /** Two neighbours that change places leave the multiset alone. */
  lemma SwapNeighbours(a: seq<Option<string>>, b: Option<string>, c: Option<string>, d: seq<Option<string>>)
    ensures multiset(Present(a + [b] + [c] + d)) == multiset(Present(a + [c] + [b] + d))
  {
    ThreeSplit(a, b, c, d);
    ThreeSplit(a, c, b, d);
  }

  lemma MiddleSwap(a: Option<string>, b: Option<string>, c: Option<string>, d: Option<string>)
    ensures multiset(Present([a, b, c, d])) == multiset(Present([a, c, b, d]))
  {
    SwapNeighbours([a], b, c, [d]);
    assert [a] + [b] + [c] + [d] == [a, b, c, d] && [a] + [c] + [b] + [d] == [a, c, b, d];
  }

  lemma SameMultisetSameAnnotation(hash: Hash, s: Inputs, s': Inputs)
    requires multiset(Digests(hash, s)) == multiset(Digests(hash, s'))
    ensures Annotation(hash, s) == Annotation(hash, s')
  {
    SortCanonical(Digests(hash, s), Digests(hash, s'));
  }

  /** What a multiset cannot see: two secrets that trade their data. */
  lemma SwapDoesNotRollOut(hash: Hash, s: Inputs)
    ensures Annotation(hash, s.(sign := s.tls, tls := s.sign)) == Annotation(hash, s)
  {
    MiddleSwap(SecretDigest(hash, s.config), SecretDigest(hash, s.sign), SecretDigest(hash, s.tls), EnvDigest(hash,
        s.env));
    SameMultisetSameAnnotation(hash, s, s.(sign := s.tls, tls := s.sign));
  }
}
