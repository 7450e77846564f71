/** The volumes and mounts of the endorser's Deployment, and their agreement with
    the paths core.yaml refers to. */
module EndorserPod {
  import opened Prelude
  import opened CoreConfig
  import opened CoreConfigRoundTrip

  datatype Item = Item(key: string, path: string)

  /** A secret volume shows the listed items, or every key if there is no list. */
  datatype Source = FromSecret(secret: string, items: Option<seq<Item>>) | EmptyDir | Custom(text: string)
  datatype Volume = Volume(name: string, source: Source)
  datatype Mount = Mount(name: string, path: string, subPath: string, readOnly: bool)
  datatype Pod = Pod(volumes: seq<Volume>, mounts: seq<Mount>, initMounts: seq<Mount>)

  datatype Endorser = Endorser(
    name: string,
    namespace: string,
    core: Core,
    certificateSecrets: map<string, string>,
    volumes: seq<Volume>,
    volumeMounts: seq<Mount>)

  /** The secrets of the cluster, as (namespace, name). */
  type Secrets = set<(string, string)>

  const PEMS := [Item("cert.pem", "cert.pem"), Item("key.pem", "key.pem"), Item("ca.pem", "ca.pem")]

  function Resolvers(e: Endorser): seq<Resolver> {
    if e.core.fsc.endpoint.Some? then e.core.fsc.endpoint.value else []
  }

  predicate Referenced(r: Resolver) {
    r.identity.Some? && r.identity.value.secretRef.Some?
  }

  /** Does the resolver refer to a secret that is not there?  A reference without a
      namespace means the endorser's own. */
  predicate Misses(e: Endorser, secrets: Secrets, r: Resolver) {
    && r.identity.Some? && r.identity.value.secretRef.Some?
    && var ref := r.identity.value.secretRef.value;
       ((if ref.namespace == "" then e.namespace else ref.namespace), ref.name) !in secrets
  }

  function RefOf(r: Resolver): SecretRef
    requires Referenced(r)
  {
    r.identity.value.secretRef.value
  }

  function ResolverVolume(r: Resolver): Volume
    requires Referenced(r)
  {
    Volume("resolver-" + r.name, FromSecret(RefOf(r).name, Some([Item(RefOf(r).key, "cert.pem")])))
  }

  function ResolverMount(r: Resolver): Mount
    requires Referenced(r)
  {
    Mount("resolver-" + r.name, "/var/hyperledger/fabric/resolvers/" + r.name, "", true)
  }

  /** The resolvers with a secret reference, in order. */
  function Referring(rs: seq<Resolver>): (s: seq<Resolver>)
    ensures forall i :: 0 <= i < |s| ==> Referenced(s[i])
    ensures forall r :: r in s <==> r in rs && Referenced(r)
  {
    if rs == [] then []
    else
      var last := rs[|rs| - 1];
      Referring(rs[..|rs| - 1]) + if Referenced(last) then [last] else []
  }

  function ResolverVolumes(rs: seq<Resolver>): seq<Volume>
    requires forall i :: 0 <= i < |rs| ==> Referenced(rs[i])
  {
    seq(|rs|, i requires 0 <= i < |rs| => ResolverVolume(rs[i]))
  }

  function ResolverMounts(rs: seq<Resolver>): seq<Mount>
    requires forall i :: 0 <= i < |rs| ==> Referenced(rs[i])
  {
    seq(|rs|, i requires 0 <= i < |rs| => ResolverMount(rs[i]))
  }

  lemma ReferringStep(rs: seq<Resolver>, i: nat)
    requires i < |rs|
    ensures Referring(rs[..i + 1]) == Referring(rs[..i]) + if Referenced(rs[i]) then [rs[i]] else []
    ensures Referenced(rs[i]) ==>
              && ResolverVolumes(Referring(rs[..i + 1])) ==
                 ResolverVolumes(Referring(rs[..i])) + [ResolverVolume(rs[i])]
              && ResolverMounts(Referring(rs[..i + 1])) == ResolverMounts(Referring(rs[..i])) + [ResolverMount(rs[i])]
  {
    assert rs[..i + 1][..i] == rs[..i] && rs[..i + 1][i] == rs[i];
  }

  function SignVolumes(certs: map<string, string>): seq<Volume> {
    if "sign" in certs
    then [Volume("sign-cert", FromSecret(certs["sign"], Some(PEMS))), Volume("shared-msp", EmptyDir)]
    else []
  }

  function SignMounts(certs: map<string, string>): seq<Mount> {
    if "sign" in certs then
      [Mount("shared-msp", "/var/hyperledger/fabric/config/keys", "", true),
       Mount("sign-cert", CERT_FILE, "cert.pem", true), Mount("sign-cert", KEY_FILE, "key.pem", true)]
    else []
  }

  function InitMounts(certs: map<string, string>): seq<Mount> {
    if "sign" in certs then
      [Mount("sign-cert", "/sign-certs", "", true),
       Mount("shared-msp", "/var/hyperledger/fabric/config/keys", "", false)]
    else []
  }

  function TlsVolumes(certs: map<string, string>): seq<Volume> {
    if "tls" in certs then [Volume("tls-cert", FromSecret(certs["tls"], None))] else []
  }

  function TlsMounts(certs: map<string, string>): seq<Mount> {
    if "tls" in certs then [Mount("tls-cert", "/var/hyperledger/fabric/tls", "", true)] else []
  }

  function CoreVolume(e: Endorser): Volume {
    Volume("core-config", FromSecret(e.name + "-core-config", None))
  }

  const CORE_MOUNT := Mount("core-config", "/var/hyperledger/fabric/config", "", true)

  /** The volumes that do not depend on lists. */
  function FixedVolumes(e: Endorser): seq<Volume> {
    [CoreVolume(e)] + SignVolumes(e.certificateSecrets) + TlsVolumes(e.certificateSecrets)
  }

  function FixedMounts(e: Endorser): seq<Mount> {
    [CORE_MOUNT] + SignMounts(e.certificateSecrets) + TlsMounts(e.certificateSecrets)
  }

  function PodOf(e: Endorser): Pod {
    var referring := Referring(Resolvers(e));
    Pod(FixedVolumes(e) + ResolverVolumes(referring) + e.volumes,
        FixedMounts(e) + ResolverMounts(referring) + e.volumeMounts,
        InitMounts(e.certificateSecrets))
  }

  function CheckedKey(e: Endorser, r: Resolver): (string, string)
    requires Referenced(r)
  {
    (if RefOf(r).namespace == "" then e.namespace else RefOf(r).namespace, RefOf(r).name)
  }

  /** The existence check made before the Deployment is written. */
  predicate ResolverSecretsExist(e: Endorser, secrets: Secrets) {
    forall r :: r in Referring(Resolvers(e)) ==> CheckedKey(e, r) in secrets
  }

  /** The volume and mount assembly of reconcileDeployment; None if a resolver's
      secret is missing. */
  method AssemblePod(e: Endorser, secrets: Secrets) returns (r: Option<Pod>)
    ensures r == if ResolverSecretsExist(e, secrets) then Some(PodOf(e)) else None
    ensures r.None? <==> exists resolver :: resolver in Resolvers(e) && Misses(e, secrets, resolver)
  {
    var volumes := [Volume("core-config", FromSecret(e.name + "-core-config", None))];
    var mounts := [CORE_MOUNT];
    var initMounts: seq<Mount> := [];
    if "sign" in e.certificateSecrets {
      volumes := volumes + [Volume("sign-cert", FromSecret(e.certificateSecrets["sign"], Some(PEMS)))];
      volumes := volumes + [Volume("shared-msp", EmptyDir)];
      initMounts := initMounts + [Mount("sign-cert", "/sign-certs", "", true),
                                  Mount("shared-msp", "/var/hyperledger/fabric/config/keys", "", false)];
      mounts := mounts + [Mount("shared-msp", "/var/hyperledger/fabric/config/keys", "", true),
                          Mount("sign-cert", CERT_FILE, "cert.pem", true),
                          Mount("sign-cert", KEY_FILE, "key.pem", true)];
    }
    if "tls" in e.certificateSecrets {
      volumes := volumes + [Volume("tls-cert", FromSecret(e.certificateSecrets["tls"], None))];
      mounts := mounts + [Mount("tls-cert", "/var/hyperledger/fabric/tls", "", true)];
    }
    assert volumes == FixedVolumes(e) && mounts == FixedMounts(e) && initMounts == InitMounts(e.certificateSecrets);
    var found := AssembleResolvers(e, secrets);
    if found.None? { return None; }
    volumes := volumes + found.value.0 + e.volumes;
    mounts := mounts + found.value.1 + e.volumeMounts;
    return Some(Pod(volumes, mounts, initMounts));
  }

  /** The loop over the resolvers; it stops at the first missing secret. */
  method AssembleResolvers(e: Endorser, secrets: Secrets) returns (r: Option<(seq<Volume>, seq<Mount>)>)
    ensures r == if ResolverSecretsExist(e, secrets)
                 then Some((ResolverVolumes(Referring(Resolvers(e))), ResolverMounts(Referring(Resolvers(e)))))
                 else None
  {
    var rs := Resolvers(e);
    var volumes: seq<Volume> := [];
    var mounts: seq<Mount> := [];
    for i := 0 to |rs|
      invariant volumes == ResolverVolumes(Referring(rs[..i]))
      invariant mounts == ResolverMounts(Referring(rs[..i]))
      invariant forall r :: r in Referring(rs[..i]) ==> CheckedKey(e, r) in secrets
    {
      var resolver := rs[i];
      ReferringStep(rs, i);
      if Referenced(resolver) {
        var secretNamespace := RefOf(resolver).namespace;
        if secretNamespace == "" {
          secretNamespace := e.namespace;
        }
        if (secretNamespace, RefOf(resolver).name) !in secrets {
          assert resolver in Referring(rs) && CheckedKey(e, resolver) !in secrets;
          return None;
        }
        volumes := volumes + [ResolverVolume(resolver)];
        mounts := mounts + [ResolverMount(resolver)];
      }
    }
    assert rs[..|rs|] == rs;
    return Some((volumes, mounts));
  }

  function VolumeNames(vs: seq<Volume>): seq<string> {
    seq(|vs|, i requires 0 <= i < |vs| => vs[i].name)
  }

  ghost predicate Distinct<T>(s: seq<T>) {
    forall i, j :: 0 <= i < j < |s| ==> s[i] != s[j]
  }

  ghost predicate Disjoint<T>(a: seq<T>, b: seq<T>) {
    forall i, j :: 0 <= i < |a| && 0 <= j < |b| ==> a[i] != b[j]
  }

  lemma DistinctConcat<T>(a: seq<T>, b: seq<T>)
    ensures Distinct(a + b) <==> Distinct(a) && Distinct(b) && Disjoint(a, b)
  {
    var s := a + b;
    if Distinct(s) {
      assert forall i, j :: 0 <= i < j < |a| ==> s[i] == a[i] && s[j] == a[j];
      forall i, j | 0 <= i < j < |b|
        ensures b[i] != b[j]
      {
        assert s[|a| + i] == b[i] && s[|a| + j] == b[j];
      }
      forall i, j | 0 <= i < |a| && 0 <= j < |b|
        ensures a[i] != b[j]
      {
        assert s[i] == a[i] && s[|a| + j] == b[j];
      }
    }
  }

  function Names(rs: seq<Resolver>): seq<string> {
    seq(|rs|, i requires 0 <= i < |rs| => rs[i].name)
  }

  lemma ResolverVolumeNames(rs: seq<Resolver>)
    requires forall i :: 0 <= i < |rs| ==> Referenced(rs[i])
    ensures Distinct(VolumeNames(ResolverVolumes(rs))) <==> Distinct(Names(rs))
  {
    var names := VolumeNames(ResolverVolumes(rs));
    forall i, j | 0 <= i < j < |rs|
      ensures names[i] == names[j] <==> Names(rs)[i] == Names(rs)[j]
    {
      assert rs[i].name == ("resolver-" + rs[i].name)[9..];
      assert rs[j].name == ("resolver-" + rs[j].name)[9..];
    }
  }

  lemma FixedNames(e: Endorser)
    ensures Distinct(VolumeNames(FixedVolumes(e)))
    ensures forall v :: v in FixedVolumes(e) ==> v.name != "" && v.name[0] != 'r'
  {
    var fixed := ["core-config"]
                 + (if "sign" in e.certificateSecrets then ["sign-cert", "shared-msp"] else [])
                 + if "tls" in e.certificateSecrets then ["tls-cert"] else [];
    assert VolumeNames(FixedVolumes(e)) == fixed;
    assert "core-config"[1] == 'o' && "sign-cert"[1] == 'i' && "shared-msp"[1] == 'h' && "tls-cert"[1] == 'l';
  }

  /** The generated names are distinct exactly when the referring resolvers' are. */
  lemma GeneratedNames(e: Endorser)
    ensures var referring := Referring(Resolvers(e));
            Distinct(VolumeNames(FixedVolumes(e) + ResolverVolumes(referring))) <==> Distinct(Names(referring))
  {
    var referring := Referring(Resolvers(e));
    var fixed, resolvers := FixedVolumes(e), ResolverVolumes(referring);
    assert VolumeNames(fixed + resolvers) == VolumeNames(fixed) + VolumeNames(resolvers);
    DistinctConcat(VolumeNames(fixed), VolumeNames(resolvers));
    FixedNames(e);
    ResolverVolumeNames(referring);
    forall i, j | 0 <= i < |fixed| && 0 <= j < |resolvers|
      ensures VolumeNames(fixed)[i] != VolumeNames(resolvers)[j]
    {
      assert resolvers[j].name[0] == 'r' && fixed[i] in fixed;
    }
  }

  /** Exactly when all volume names are distinct: the referring resolvers have
      distinct names, and so have the custom volumes, which also avoid the
      generated names.  Without custom volumes only the first condition is left. */
  lemma VolumeNamesDistinctIff(e: Endorser)
    ensures var referring := Referring(Resolvers(e));
            Distinct(VolumeNames(PodOf(e).volumes)) <==>
              && Distinct(Names(referring))
              && Distinct(VolumeNames(e.volumes))
              && Disjoint(VolumeNames(FixedVolumes(e) + ResolverVolumes(referring)), VolumeNames(e.volumes))
  {
    var generated := FixedVolumes(e) + ResolverVolumes(Referring(Resolvers(e)));
    assert VolumeNames(PodOf(e).volumes) == VolumeNames(generated) + VolumeNames(e.volumes);
    DistinctConcat(VolumeNames(generated), VolumeNames(e.volumes));
    GeneratedNames(e);
  }

  ghost predicate Declared(vs: seq<Volume>, m: Mount) {
    exists i :: 0 <= i < |vs| && vs[i].name == m.name
  }

  ghost predicate AllDeclared(vs: seq<Volume>, ms: seq<Mount>) {
    forall i :: 0 <= i < |ms| ==> Declared(vs, ms[i])
  }

  /** Every generated mount names a declared volume, so the pod is well formed
      exactly when the custom mounts are. */
  lemma MountsDeclaredIff(e: Endorser)
    ensures var pod := PodOf(e);
            && AllDeclared(pod.volumes, pod.initMounts)
            && (AllDeclared(pod.volumes, pod.mounts) <==> AllDeclared(pod.volumes, e.volumeMounts))
  {
    var pod, referring := PodOf(e), Referring(Resolvers(e));
    var fixed, resolvers := FixedVolumes(e), ResolverVolumes(referring);
    FixedMountsDeclared(e, pod.volumes);
    forall i | 0 <= i < |referring|
      ensures Declared(pod.volumes, ResolverMounts(referring)[i])
    {
      assert pod.volumes[|fixed| + i] == resolvers[i];
    }
    var generated := FixedMounts(e) + ResolverMounts(referring);
    assert AllDeclared(pod.volumes, generated);
    if AllDeclared(pod.volumes, pod.mounts) {
      forall i | 0 <= i < |e.volumeMounts|
        ensures Declared(pod.volumes, e.volumeMounts[i])
      {
        assert pod.mounts[|generated| + i] == e.volumeMounts[i];
      }
    }
  }

  lemma FixedMountsDeclared(e: Endorser, vs: seq<Volume>)
    requires FixedVolumes(e) <= vs
    ensures AllDeclared(vs, FixedMounts(e)) && AllDeclared(vs, InitMounts(e.certificateSecrets))
  {
    var fixed := FixedVolumes(e);
    assert vs[0] == CoreVolume(e);
    if "sign" in e.certificateSecrets {
      assert fixed[1].name == "sign-cert" && fixed[2].name == "shared-msp";
      assert vs[1] == fixed[1] && vs[2] == fixed[2];
    }
    if "tls" in e.certificateSecrets {
      var last := |fixed| - 1;
      assert fixed[last].name == "tls-cert" && vs[last] == fixed[last];
    }
  }

  /** Does the container see key `key` of `secret` as the file `path` through `m`? */
  ghost predicate Shows(pod: Pod, m: Mount, path: string, secret: string, key: string) {
    && m in pod.mounts
    && exists v :: v in pod.volumes && v.name == m.name && ShowsVolume(v, m, path, secret, key)
  }

  /** The path at which a mount shows an item. */
  function PathOf(m: Mount, shown: string): string {
    if m.subPath == "" then m.path + "/" + shown else m.path
  }

  ghost predicate ShowsVolume(v: Volume, m: Mount, path: string, secret: string, key: string) {
    && v.source.FromSecret? && v.source.secret == secret
    && exists shown: string ::
         && (if v.source.items.Some? then Item(key, shown) in v.source.items.value else shown == key)
         && PathOf(m, shown) == path && (m.subPath != "" ==> shown == m.subPath)
  }

  /** The resolver's path in core.yaml. */
  lemma PathInCoreYaml(parse: Parser, e: Endorser, i: nat)
    requires i < |Resolvers(e)| && Referenced(Resolvers(e)[i])
    ensures var endpoint := Decode(Encode(parse, e.core)).fsc.endpoint;
            && endpoint.Some? && i < |endpoint.value| && endpoint.value[i].identity.Some?
            && endpoint.value[i].identity.value.path == ResolverPath(Resolvers(e)[i].name)
               == "/var/hyperledger/fabric/resolvers/" + Resolvers(e)[i].name + "/cert.pem"
  {
    CoreRoundTrip(parse, e.core);
  }

  /** A volume that bears the name of a referring resolver's mount is its volume. */
  lemma VolumeOf(e: Endorser, r: Resolver, v: Volume)
    requires e.volumes == [] && Distinct(Names(Referring(Resolvers(e)))) && r in Referring(Resolvers(e))
    requires v in PodOf(e).volumes && v.name == ResolverMount(r).name
    ensures v == ResolverVolume(r)
  {
    var referring := Referring(Resolvers(e));
    FixedNames(e);
    assert v.name[0] == 'r';
    assert v in ResolverVolumes(referring);
    var l :| 0 <= l < |referring| && v == ResolverVolume(referring[l]);
    SameTail("resolver-", referring[l].name, r.name);
    SameName(referring, referring[l], r);
  }

  lemma SameName(rs: seq<Resolver>, a: Resolver, b: Resolver)
    requires Distinct(Names(rs)) && a in rs && b in rs && a.name == b.name
    ensures a == b
  {
    var i, j :| 0 <= i < |rs| && rs[i] == a && 0 <= j < |rs| && rs[j] == b;
    assert Names(rs)[i] == Names(rs)[j];
  }

  /** A resolver's mount shows a file at another's path only if they are the same. */
  lemma ResolverMountShows(e: Endorser, r: Resolver, other: Resolver, v: Volume, shown: string, secret: string,
                           key: string)
    requires e.volumes == [] && Distinct(Names(Referring(Resolvers(e))))
    requires r in Referring(Resolvers(e)) && other in Referring(Resolvers(e))
    requires v in PodOf(e).volumes && v.name == ResolverMount(other).name
    requires v.source.FromSecret? && v.source.items.Some? ==> Item(key, shown) in v.source.items.value
    requires PathOf(ResolverMount(other), shown) == ResolverPath(r.name)
    ensures other == r
  {
    VolumeOf(e, other, v);
    assert shown == "cert.pem";
    SameMiddle("/var/hyperledger/fabric/resolvers/", r.name, other.name, "/cert.pem");
    SameName(Referring(Resolvers(e)), r, other);
  }

  /** A mount that shows a file at a resolver's path is that resolver's mount. */
  lemma MountOf(e: Endorser, r: Resolver, m: Mount, v: Volume, secret: string, key: string)
    requires e.volumes == [] && e.volumeMounts == []
    requires Distinct(Names(Referring(Resolvers(e)))) && r in Referring(Resolvers(e))
    requires m in PodOf(e).mounts && v in PodOf(e).volumes && v.name == m.name
    requires ShowsVolume(v, m, ResolverPath(r.name), secret, key)
    ensures m == ResolverMount(r)
  {
    var referring := Referring(Resolvers(e));
    var shown: string :|
      && (if v.source.items.Some? then Item(key, shown) in v.source.items.value else shown == key)
      && PathOf(m, shown) == ResolverPath(r.name);
    assert m !in FixedMounts(e) by {
      if m in FixedMounts(e) {
        FixedPathElsewhere(e, m, r.name, shown);
      }
    }
    assert m in ResolverMounts(referring);
    var j :| 0 <= j < |referring| && m == ResolverMount(referring[j]);
    ResolverMountShows(e, r, referring[j], v, shown, secret, key);
  }

  lemma SameTail(prefix: string, a: string, b: string)
    requires prefix + a == prefix + b
    ensures a == b
  {
    assert a == (prefix + a)[|prefix|..] && b == (prefix + b)[|prefix|..];
  }

  lemma SameMiddle(prefix: string, a: string, b: string, suffix: string)
    requires prefix + a + suffix == prefix + b + suffix
    ensures a == b
  {
    assert a == (prefix + a + suffix)[|prefix|..|prefix| + |a|];
    assert b == (prefix + b + suffix)[|prefix|..|prefix| + |b|];
  }

  /** None of the fixed mounts reaches below the resolvers' directory. */
  lemma FixedPathElsewhere(e: Endorser, m: Mount, name: string, shown: string)
    requires m in FixedMounts(e)
    ensures m.path != ResolverPath(name) && m.path + "/" + shown != ResolverPath(name)
  {
    assert ResolverPath(name)[24] == 'r';
    assert CORE_MOUNT.path[24] == 'c' && "/var/hyperledger/fabric/config/keys"[24] == 'c';
    assert CERT_FILE[24] == 'm' && KEY_FILE[24] == 'm' && "/var/hyperledger/fabric/tls"[24] == 't';
    assert |m.path| > 24 && m.path[24] != 'r';
    assert (m.path + "/" + shown)[24] == m.path[24];
  }

  /** Only the mount of `r` shows anything at the path of `r`. */
  lemma ResolverFileUnique(e: Endorser, r: Resolver)
    requires e.volumes == [] && e.volumeMounts == [] && Distinct(Names(Referring(Resolvers(e))))
    requires r in Referring(Resolvers(e))
    ensures forall m, secret, key :: Shows(PodOf(e), m, ResolverPath(r.name), secret, key) ==>
              m == ResolverMount(r) && secret == RefOf(r).name && key == RefOf(r).key
  {
    forall m, secret, key | Shows(PodOf(e), m, ResolverPath(r.name), secret, key)
      ensures m == ResolverMount(r) && secret == RefOf(r).name && key == RefOf(r).key
    {
      var v :| v in PodOf(e).volumes && v.name == m.name && ShowsVolume(v, m, ResolverPath(r.name), secret, key);
      MountOf(e, r, m, v, secret, key);
      VolumeOf(e, r, v);
    }
  }

  /** Core.yaml and the Deployment agree: with distinct referring names and no
      custom volumes or mounts, the path core.yaml gives for a referring resolver
      is a file of the container, it is the key of that resolver's secret, and
      nothing else is mounted there. */
  lemma ResolverFileAgrees(parse: Parser, e: Endorser, i: nat)
    requires e.volumes == [] && e.volumeMounts == []
    requires Distinct(Names(Referring(Resolvers(e))))
    requires i < |Resolvers(e)| && Referenced(Resolvers(e)[i])
    ensures var r := Resolvers(e)[i];
            var endpoint := Decode(Encode(parse, e.core)).fsc.endpoint;
            && endpoint.Some? && i < |endpoint.value| && endpoint.value[i].identity.Some?
            && var path := endpoint.value[i].identity.value.path;
               && Shows(PodOf(e), ResolverMount(r), path, RefOf(r).name, RefOf(r).key)
               && forall m, secret, key :: Shows(PodOf(e), m, path, secret, key) ==>
                    m == ResolverMount(r) && secret == RefOf(r).name && key == RefOf(r).key
  {
    var r := Resolvers(e)[i];
    PathInCoreYaml(parse, e, i);
    ResolverShown(e, r);
    ResolverFileUnique(e, r);
  }

  lemma ResolverShown(e: Endorser, r: Resolver)
    requires r in Referring(Resolvers(e))
    ensures Shows(PodOf(e), ResolverMount(r), ResolverPath(r.name), RefOf(r).name, RefOf(r).key)
  {
    var referring := Referring(Resolvers(e));
    var j :| 0 <= j < |referring| && referring[j] == r;
    assert ResolverVolumes(referring)[j] == ResolverVolume(r) && ResolverMounts(referring)[j] == ResolverMount(r);
    var v, m := ResolverVolume(r), ResolverMount(r);
    assert v in PodOf(e).volumes && m in PodOf(e).mounts;
    assert m.path + "/" + "cert.pem" == ResolverPath(r.name);
    assert Item(RefOf(r).key, "cert.pem") in v.source.items.value;
    assert ShowsVolume(v, m, ResolverPath(r.name), RefOf(r).name, RefOf(r).key);
  }

  /** Through the generated mounts the container sees the core configuration, and
      the TLS certificate secret if one is recorded, entry by entry. */
  lemma FilesShown(e: Endorser, key: string)
    ensures Shows(PodOf(e), Mount("core-config", "/var/hyperledger/fabric/config", "", true),
                  "/var/hyperledger/fabric/config/" + key, e.name + "-core-config", key)
    ensures "tls" in e.certificateSecrets ==>
              Shows(PodOf(e), Mount("tls-cert", "/var/hyperledger/fabric/tls", "", true),
                    "/var/hyperledger/fabric/tls/" + key, e.certificateSecrets["tls"], key)
  {
    var pod := PodOf(e);
    var v := CoreVolume(e);
    assert pod.volumes[0] == v && pod.mounts[0] == CORE_MOUNT;
    assert PathOf(CORE_MOUNT, key) == "/var/hyperledger/fabric/config/" + key;
    assert ShowsVolume(v, CORE_MOUNT, "/var/hyperledger/fabric/config/" + key, e.name + "-core-config", key);
    if "tls" in e.certificateSecrets {
      TlsShown(e, key);
    }
  }

  /** With a sign certificate the init container reads its secret and writes to the
      shared volume, which the container only reads; without one there is neither. */
  lemma KeysHandedOver(e: Endorser)
    ensures var pod := PodOf(e);
            if "sign" in e.certificateSecrets then
              && pod.initMounts == [Mount("sign-cert", "/sign-certs", "", true),
                                    Mount("shared-msp", "/var/hyperledger/fabric/config/keys", "", false)]
              && Mount("shared-msp", "/var/hyperledger/fabric/config/keys", "", true) in pod.mounts
              && Volume("shared-msp", EmptyDir) in pod.volumes
              && (exists items :: Volume("sign-cert", FromSecret(e.certificateSecrets["sign"], items)) in pod.volumes)
            else pod.initMounts == []
  {
    var pod := PodOf(e);
    if "sign" in e.certificateSecrets {
      assert pod.mounts[1] == Mount("shared-msp", "/var/hyperledger/fabric/config/keys", "", true);
      assert pod.volumes[1] == Volume("sign-cert", FromSecret(e.certificateSecrets["sign"], Some(PEMS)));
      assert pod.volumes[2] == Volume("shared-msp", EmptyDir);
    }
  }

  lemma TlsShown(e: Endorser, key: string)
    requires "tls" in e.certificateSecrets
    ensures Shows(PodOf(e), Mount("tls-cert", "/var/hyperledger/fabric/tls", "", true),
                  "/var/hyperledger/fabric/tls/" + key, e.certificateSecrets["tls"], key)
  {
    var pod, m := PodOf(e), Mount("tls-cert", "/var/hyperledger/fabric/tls", "", true);
    var v := Volume("tls-cert", FromSecret(e.certificateSecrets["tls"], None));
    assert pod.volumes[|FixedVolumes(e)| - 1] == v && pod.mounts[|FixedMounts(e)| - 1] == m;
    assert PathOf(m, key) == "/var/hyperledger/fabric/tls/" + key;
    assert ShowsVolume(v, m, "/var/hyperledger/fabric/tls/" + key, e.certificateSecrets["tls"], key);
  }

  /** The identity files core.yaml always names exist in the container exactly when
      a sign certificate secret was recorded, and then show its entries. */
  lemma IdentityFilesIff(e: Endorser)
    requires e.volumes == [] && e.volumeMounts == []
    ensures "sign" in e.certificateSecrets ==>
              && Shows(PodOf(e), Mount("sign-cert", CERT_FILE, "cert.pem", true), CERT_FILE,
                       e.certificateSecrets["sign"], "cert.pem")
              && Shows(PodOf(e), Mount("sign-cert", KEY_FILE, "key.pem", true), KEY_FILE,
                       e.certificateSecrets["sign"], "key.pem")
    ensures (exists m, secret, key :: Shows(PodOf(e), m, CERT_FILE, secret, key)) <==> "sign" in e.certificateSecrets
  {
    var pod := PodOf(e);
    if "sign" in e.certificateSecrets {
      var v := Volume("sign-cert", FromSecret(e.certificateSecrets["sign"], Some(PEMS)));
      assert pod.volumes[1] == v;
      assert pod.mounts[2] == Mount("sign-cert", CERT_FILE, "cert.pem", true);
      assert pod.mounts[3] == Mount("sign-cert", KEY_FILE, "key.pem", true);
      assert PEMS[0] == Item("cert.pem", "cert.pem") && PEMS[1] == Item("key.pem", "key.pem");
      assert ShowsVolume(v, pod.mounts[2], CERT_FILE, e.certificateSecrets["sign"], "cert.pem");
      assert ShowsVolume(v, pod.mounts[3], KEY_FILE, e.certificateSecrets["sign"], "key.pem");
    } else {
      forall m, secret, key
        ensures !Shows(pod, m, CERT_FILE, secret, key)
      {
        if m in pod.mounts {
          UnsignedMountElsewhere(e, m);
        }
      }
    }
  }

  /** Without a sign certificate nothing is mounted in the MSP directory. */
  lemma UnsignedMountElsewhere(e: Endorser, m: Mount)
    requires e.volumeMounts == [] && "sign" !in e.certificateSecrets && m in PodOf(e).mounts
    ensures forall shown: string :: PathOf(m, shown) != CERT_FILE
  {
    assert CERT_FILE[24] == 'm' && CORE_MOUNT.path[24] == 'c' && "/var/hyperledger/fabric/tls"[24] == 't';
    assert |m.path| > 24 && m.path[24] != 'm' by {
      if m !in FixedMounts(e) {
        var referring := Referring(Resolvers(e));
        assert m in ResolverMounts(referring);
        var j :| 0 <= j < |referring| && m == ResolverMount(referring[j]);
        assert m.path[24] == "/var/hyperledger/fabric/resolvers/"[24];
      }
    }
    forall shown: string
      ensures PathOf(m, shown) != CERT_FILE
    {
      assert PathOf(m, shown)[24] == m.path[24];
    }
  }

  /** All resolver secrets are where the pod looks for them: in its own namespace. */
  predicate Mountable(e: Endorser, secrets: Secrets) {
    forall r :: r in Referring(Resolvers(e)) ==> (e.namespace, RefOf(r).name) in secrets
  }

  /** Exactly when the existence check guarantees that the volumes can be mounted:
      the check must look at every mounted secret in the endorser's own namespace,
      which a reference to another namespace does not. */
  lemma CheckSufficesIff(e: Endorser)
    ensures (forall secrets: Secrets :: ResolverSecretsExist(e, secrets) ==> Mountable(e, secrets)) <==>
            forall r :: r in Referring(Resolvers(e)) ==>
              exists r' :: r' in Referring(Resolvers(e)) && CheckedKey(e, r') == (e.namespace, RefOf(r).name)
  {
    var referring := Referring(Resolvers(e));
    var checked: Secrets := set r | r in referring :: CheckedKey(e, r);
    if forall secrets: Secrets :: ResolverSecretsExist(e, secrets) ==> Mountable(e, secrets) {
      assert ResolverSecretsExist(e, checked);
      assert Mountable(e, checked);
    }
  }
}
