/** The deploy mode of the sidecar and of the assembler: a sequence of steps, each
    of which must succeed before the next, ending with the Deployment. */
module GatedDeploy {
  import opened Prelude
  import opened Components
  import opened ApiServer
  import Gate
  import SecretHash
  import Rollout

  type Data = map<string, string>
  type Obj = Object<(), ()>
  type State = Db<(), ()>
  type Trace = History<(), ()>
  type Call = Op<(), ()>
  type Answer = Reply<(), ()>

  datatype Certificate = Certificate(certType: string, cert: string, key: string, caCert: string)

  /** The parts of a component the steps depend on; `kindLabel` is the label under
      which its secrets carry its name. */
  datatype Owner = Owner(
    key: Key, kindLabel: string, bootstrapMode: string, enrolled: bool, genesis: GenesisRef, env: seq<EnvVar>,
    storage: bool)

  function Named(o: Owner, kind: Kind, suffix: string): Key {
    Key(kind, o.key.namespace, o.key.name + suffix)
  }

  function CertKey(o: Owner, c: Certificate): Key {
    Named(o, Secret, "-" + c.certType + "-cert")
  }

  function CertData(c: Certificate): Data {
    map["cert.pem" := c.cert, "key.pem" := c.key, "ca.pem" := c.caCert]
  }

  function CertLabels(o: Owner, c: Certificate): map<string, string> {
    map["app" := "fabric-x", o.kindLabel := o.key.name, "certificate-type" := c.certType,
        "fabricx.kfsoft.tech/type" := "certificate"]
  }

  /** What a step makes sure of about the data of an object, and perhaps its labels. */
  datatype Need = HasEntry(entry: string) | Holds(data: Data) | Labelled(data: Data, labels: map<string, string>)

  predicate Within(d: Data, data: Data) {
    forall k :: k in d ==> k in data && data[k] == d[k]
  }

  predicate Meets(o: Obj, need: Need) {
    match need
    case HasEntry(entry) => entry in o.data
    case Holds(d) => Within(d, o.data)
    case Labelled(d, labels) => Within(d, o.data) && o.labels == labels
  }

  /** A certificate secret is complete. */
  function CertNeed(o: Owner, c: Certificate): Need {
    Labelled(CertData(c), CertLabels(o, c))
  }

  function Answered(start: State, h: Trace, op: Call, f: Fault): Answer {
    Perform(Replay(start, h), Past(start, h, f), op, f).reply
  }

  /** Entry `i` is an answered call that shows the need to be met. */
  predicate Confirms(start: State, h: Trace, i: nat, key: Key, need: Need)
    requires i < |h|
  {
    && h[i].Mine? && h[i].op.key == key
    && var r := Answered(start, h[..i], h[i].op, h[i].fault); r.Ok? && Meets(r.stored, need)
  }

  ghost predicate Confirmed(start: State, h: Trace, from: nat, to: nat, key: Key, need: Need)
    requires to <= |h|
  {
    exists i :: from <= i < to && Confirms(start, h, i, key, need)
  }

  lemma ConfirmedLater(start: State, h: Trace, h': Trace, from: nat, to: nat, to': nat, key: Key, need: Need)
    requires h <= h' && to <= |h| && to <= to' <= |h'| && Confirmed(start, h, from, to, key, need)
    ensures Confirmed(start, h', from, to', key, need)
  {
    var i :| from <= i < to && Confirms(start, h, i, key, need);
    assert h'[..i] == h[..i] && h'[i] == h[i];
    assert Confirms(start, h', i, key, need);
  }

  predicate WritesDeployment(e: Entry<(), ()>) {
    e.Mine? && !e.op.Get? && e.op.key.kind == Deployment
  }

  ghost predicate NoDeployment(h: Trace, from: nat) {
    forall j :: from <= j < |h| ==> !WritesDeployment(h[j])
  }

  lemma NoDeploymentTwice(h0: Trace, h1: Trace, h2: Trace)
    requires h0 <= h1 <= h2 && NoDeployment(h1, |h0|) && NoDeployment(h2, |h1|)
    ensures NoDeployment(h2, |h0|)
  {
    assert forall j :: 0 <= j < |h1| ==> h2[j] == h1[j];
  }

  ghost predicate CertsReady(start: State, h: Trace, from: nat, to: nat, o: Owner, certs: seq<Certificate>)
    requires to <= |h|
  {
    forall c :: c in certs ==> Confirmed(start, h, from, to, CertKey(o, c), CertNeed(o, c))
  }

  ghost predicate GateOpen(start: State, h: Trace, from: nat, to: nat, o: Owner)
    requires to <= |h|
  {
    o.genesis.secretName == "" ||
    Confirmed(start, h, from, to, Gate.GateKey(o.genesis, o.key.namespace), HasEntry(Gate.GateEntry(o.genesis)))
  }

  /** Certificates, genesis gate and configuration have all succeeded between
      `from` and `to`. */
  ghost predicate Prepared(start: State, h: Trace, from: nat, to: nat, o: Owner, certs: seq<Certificate>,
                           configKind: Kind, config: Data)
    requires to <= |h|
  {
    && CertsReady(start, h, from, to, o, certs)
    && GateOpen(start, h, from, to, o)
    && Confirmed(start, h, from, to, Named(o, configKind, "-config"), Holds(config))
  }

  lemma CertsReadyLater(start: State, h: Trace, h': Trace, from: nat, to: nat, to': nat, o: Owner,
                        certs: seq<Certificate>)
    requires h <= h' && to <= |h| && to <= to' <= |h'| && CertsReady(start, h, from, to, o, certs)
    ensures CertsReady(start, h', from, to', o, certs)
  {
    forall c | c in certs
      ensures Confirmed(start, h', from, to', CertKey(o, c), CertNeed(o, c))
    {
      ConfirmedLater(start, h, h', from, to, to', CertKey(o, c), CertNeed(o, c));
    }
  }

  lemma GateOpenLater(start: State, h: Trace, h': Trace, from: nat, to: nat, to': nat, o: Owner)
    requires h <= h' && to <= |h| && to <= to' <= |h'| && GateOpen(start, h, from, to, o)
    ensures GateOpen(start, h', from, to', o)
  {
    if o.genesis.secretName != "" {
      ConfirmedLater(start, h, h', from, to, to', Gate.GateKey(o.genesis, o.key.namespace),
                     HasEntry(Gate.GateEntry(o.genesis)));
    }
  }

  lemma PreparedLater(start: State, h: Trace, h': Trace, from: nat, to: nat, to': nat, o: Owner,
                      certs: seq<Certificate>, configKind: Kind, config: Data)
    requires h <= h' && to <= |h| && to <= to' <= |h'| && Prepared(start, h, from, to, o, certs, configKind, config)
    ensures Prepared(start, h', from, to', o, certs, configKind, config)
  {
    CertsReadyLater(start, h, h', from, to, to', o, certs);
    GateOpenLater(start, h, h', from, to, to', o);
    ConfirmedLater(start, h, h', from, to, to', Named(o, configKind, "-config"), Holds(config));
  }

  /** Every Deployment write from `from` on comes after a full preparation. */
  ghost predicate WritesPrepared(start: State, h: Trace, from: nat, o: Owner, certs: seq<Certificate>,
                                 configKind: Kind, config: Data) {
    forall j :: from <= j < |h| && WritesDeployment(h[j]) ==> Prepared(start, h, from, j, o, certs, configKind, config)
  }

  /** A complete deploy: everything prepared, and the Deployment confirmed. */
  ghost predicate Deployed(start: State, h: Trace, from: nat, o: Owner, certs: seq<Certificate>, configKind: Kind,
                           config: Data, template: Data) {
    && Prepared(start, h, from, |h|, o, certs, configKind, config)
    && Confirmed(start, h, from, |h|, Named(o, Deployment, ""), Holds(template))
  }

  /** After a prepared stretch `h1`, the Deployment was confirmed in `h2`. */
  lemma PreparedThenDeployed(start: State, h0: Trace, h1: Trace, h2: Trace, o: Owner, certs: seq<Certificate>,
                             configKind: Kind, config: Data, template: Data)
    requires h0 <= h1 <= h2 && Prepared(start, h1, |h0|, |h1|, o, certs, configKind, config)
    requires Confirmed(start, h2, |h1|, |h2|, Named(o, Deployment, ""), Holds(template))
    ensures Deployed(start, h2, |h0|, o, certs, configKind, config, template)
  {
    PreparedLater(start, h1, h2, |h0|, |h1|, |h2|, o, certs, configKind, config);
    ConfirmedSooner(start, h2, |h0|, |h1|, Named(o, Deployment, ""), Holds(template));
  }

  /** A prepared stretch followed by anything. */
  lemma PreparedThenWrites(start: State, h0: Trace, h1: Trace, h2: Trace, o: Owner, certs: seq<Certificate>,
                           configKind: Kind, config: Data)
    requires h0 <= h1 <= h2 && NoDeployment(h1, |h0|) && Prepared(start, h1, |h0|, |h1|, o, certs, configKind, config)
    ensures WritesPrepared(start, h2, |h0|, o, certs, configKind, config)
  {
    assert forall i :: 0 <= i < |h1| ==> h2[i] == h1[i];
    forall j | |h0| <= j < |h2| && WritesDeployment(h2[j])
      ensures Prepared(start, h2, |h0|, j, o, certs, configKind, config)
    {
      PreparedLater(start, h1, h2, |h0|, |h1|, j, o, certs, configKind, config);
    }
  }

  /** The data of `key` was read as `r` from `from` on; no answer reads as None. */
  ghost predicate WasRead(start: State, h: Trace, from: nat, key: Key, r: Option<Data>) {
    exists i :: from <= i < |h| && ReadsAs(start, h, i, key, r)
  }

  predicate ReadsAs(start: State, h: Trace, i: nat, key: Key, r: Option<Data>)
    requires i < |h|
  {
    && h[i].Mine? && h[i].op == Op<(), ()>.Get(key)
    && var a := Answered(start, h[..i], h[i].op, h[i].fault); r == if a.Ok? then Some(a.stored.data) else None
  }

  lemma WasReadLater(start: State, h: Trace, h': Trace, from: nat, key: Key, r: Option<Data>)
    requires h <= h' && WasRead(start, h, from, key, r)
    ensures WasRead(start, h', from, key, r)
  {
    var i :| from <= i < |h| && ReadsAs(start, h, i, key, r);
    assert h'[..i] == h[..i] && h'[i] == h[i];
    assert ReadsAs(start, h', i, key, r);
  }

  /** Entry `i` explains a failed step: a call went wrong, or an existing object is
      controlled by somebody else. */
  predicate TroubleAt(start: State, h: Trace, i: nat, o: Owner)
    requires i < |h|
  {
    && h[i].Mine?
    && var r := Answered(start, h[..i], h[i].op, h[i].fault);
       if r.Ok? then h[i].op.Get? && r.stored.owner !in {None, Some(o.key)} else !(h[i].op.Get? && r.error == NotFound)
  }

  ghost predicate Trouble(start: State, h: Trace, from: nat, o: Owner) {
    exists i :: from <= i < |h| && TroubleAt(start, h, i, o)
  }

  /** From `h0` to `h` there is one call of ours, the last entry. */
  ghost predicate OneCall(start: State, h0: Trace, h: Trace, op: Call, reply: Answer) {
    && |h0| < |h| && h0 <= h
    && var i := |h| - 1;
       && h[i].Mine? && h[i].op == op && reply == Answered(start, h[..i], op, h[i].fault)
       && forall j :: |h0| <= j < i ==> h[j].Other?
  }

  /** Entry `i` is an answered read of `key`, and this is the copy it gave. */
  predicate Gave(start: State, h: Trace, i: nat, key: Key, copy: Obj)
    requires i < |h|
  {
    h[i].Mine? && h[i].op == Get(key) && Answered(start, h[..i], h[i].op, h[i].fault) == Ok(copy)
  }

  /** The update is of a copy that nobody else controls, at its version, and it
      changes something. */
  predicate Improves(o: Owner, copy: Obj, obj: Obj) {
    copy.owner in {None, Some(o.key)} && obj.version == copy.version && obj != copy
  }

  /** Every update of ours from `from` on improves a copy that was read before it. */
  ghost predicate Considered(start: State, h: Trace, from: nat, o: Owner) {
    forall j :: from <= j < |h| && h[j].Mine? && h[j].op.Update? ==>
      exists i, copy :: from <= i < j && Gave(start, h, i, h[j].op.key, copy) && Improves(o, copy, h[j].op.obj)
  }

  lemma ReadConsidered(start: State, h0: Trace, h1: Trace, op: Call, reply: Answer, o: Owner)
    requires OneCall(start, h0, h1, op, reply) && !op.Update?
    ensures Considered(start, h1, |h0|, o)
  {
  }

  lemma WriteConsidered(start: State, h0: Trace, h1: Trace, h2: Trace, key: Key, got: Answer, op: Call,
                        reply: Answer, o: Owner)
    requires OneCall(start, h0, h1, Get(key), got) && OneCall(start, h1, h2, op, reply) && op.key == key
    requires op.Update? ==> got.Ok? && Improves(o, got.stored, op.obj)
    ensures Considered(start, h2, |h0|, o)
  {
    var i := |h1| - 1;
    assert h2[..i] == h1[..i] && forall j :: 0 <= j < |h1| ==> h2[j] == h1[j];
    forall j | |h0| <= j < |h2| && h2[j].Mine? && h2[j].op.Update?
      ensures exists i, copy ::
                |h0| <= i < j && Gave(start, h2, i, h2[j].op.key, copy) && Improves(o, copy, h2[j].op.obj)
    {
      assert j == |h2| - 1;
      assert Gave(start, h2, i, key, got.stored);
    }
  }

  lemma TroubleWider(start: State, h: Trace, h': Trace, from: nat, from': nat, o: Owner)
    requires h <= h' && from' <= from && Trouble(start, h, from, o)
    ensures Trouble(start, h', from', o)
  {
    var i :| from <= i < |h| && TroubleAt(start, h, i, o);
    assert h'[..i] == h[..i] && h'[i] == h[i];
    assert TroubleAt(start, h', i, o);
  }

  /** Entry `i` is a read of the genesis secret that does not show the entry. */
  predicate ClosedAt(start: State, h: Trace, i: nat, o: Owner)
    requires i < |h|
  {
    && h[i].Mine? && h[i].op == Get(Gate.GateKey(o.genesis, o.key.namespace))
    && var r := Answered(start, h[..i], h[i].op, h[i].fault);
       !(r.Ok? && Gate.GateEntry(o.genesis) in r.stored.data)
  }

  /** The genesis gate was found closed. */
  ghost predicate GateClosed(start: State, h: Trace, from: nat, o: Owner) {
    o.genesis.secretName != "" && exists i :: from <= i < |h| && ClosedAt(start, h, i, o)
  }

  lemma GateClosedWider(start: State, h: Trace, h': Trace, from: nat, from': nat, o: Owner)
    requires h <= h' && from' <= from && GateClosed(start, h, from, o)
    ensures GateClosed(start, h', from', o)
  {
    var i :| from <= i < |h| && ClosedAt(start, h, i, o);
    assert h'[..i] == h[..i] && h'[i] == h[i];
    assert ClosedAt(start, h', i, o);
  }

  /** Why a deploy may fail: the CA gave no certificates, a call went wrong or an
      object is somebody else's, or the gate was closed. */
  ghost predicate Excused(start: State, h: Trace, from: nat, o: Owner, issued: Option<seq<Certificate>>) {
    (o.enrolled && issued.None?) || Trouble(start, h, from, o) || GateClosed(start, h, from, o)
  }

  lemma ExcusedWider(start: State, h: Trace, h': Trace, from: nat, from': nat, o: Owner,
                     issued: Option<seq<Certificate>>)
    requires h <= h' && from' <= from && Excused(start, h, from, o, issued)
    ensures Excused(start, h', from', o, issued)
  {
    if Trouble(start, h, from, o) {
      TroubleWider(start, h, h', from, from', o);
    } else if GateClosed(start, h, from, o) {
      GateClosedWider(start, h, h', from, from', o);
    }
  }

  /** What the CA issued, where the component enrols. */
  function Certificates(o: Owner, issued: Option<seq<Certificate>>): seq<Certificate> {
    if o.enrolled && issued.Some? then issued.value else []
  }

  /** Entry `i` is an answer that shows the secret of this certificate complete: the
      certificate, the key and the CA's certificate under their names, and exactly the
      four labels. */
  predicate ShowsCertificate(start: State, h: Trace, i: nat, o: Owner, c: Certificate)
    requires i < |h|
  {
    && h[i].Mine? && h[i].op.key == Key(Secret, o.key.namespace, o.key.name + ("-" + c.certType + "-cert"))
    && var r := Answered(start, h[..i], h[i].op, h[i].fault);
       && r.Ok?
       && "cert.pem" in r.stored.data && r.stored.data["cert.pem"] == c.cert
       && "key.pem" in r.stored.data && r.stored.data["key.pem"] == c.key
       && "ca.pem" in r.stored.data && r.stored.data["ca.pem"] == c.caCert
       && r.stored.labels == map["app" := "fabric-x", o.kindLabel := o.key.name, "certificate-type" := c.certType,
                                 "fabricx.kfsoft.tech/type" := "certificate"]
  }

  ghost predicate Stored(start: State, h: Trace, from: nat, o: Owner, c: Certificate) {
    exists i :: from <= i < |h| && ShowsCertificate(start, h, i, o, c)
  }

  lemma ConfirmedStored(start: State, h: Trace, from: nat, o: Owner, c: Certificate)
    requires Confirmed(start, h, from, |h|, CertKey(o, c), CertNeed(o, c))
    ensures Stored(start, h, from, o, c)
  {
    var i :| from <= i < |h| && Confirms(start, h, i, CertKey(o, c), CertNeed(o, c));
    var data := CertData(c);
    assert "cert.pem" in data && "key.pem" in data && "ca.pem" in data;
    assert "cert.pem" != "key.pem" && "cert.pem" != "ca.pem" && "key.pem" != "ca.pem";
    assert ShowsCertificate(start, h, i, o, c);
  }

  function SidecarConfig(config: Option<string>): Data {
    map["sidecar_config.yaml" := if config.Some? then config.value else ""]
  }

  class Deployer {
    const server: Server<(), ()>
    const hash: SecretHash.Hash

    ghost predicate Valid()
      reads this, server
    {
      server.Valid()
    }

    constructor (server: Server<(), ()>, hash: SecretHash.Hash)
      requires server.Valid()
      ensures Valid() && this.server == server && this.hash == hash
    {
      this.server, this.hash := server, hash;
    }

    /** One API call; it is the last entry of the history and the only new one of ours. */
    method Do(op: Call) returns (reply: Answer)
      requires Valid()
      modifies server
      ensures Valid() && old(server.history) < server.history
      ensures OneCall(server.start, old(server.history), server.history, op, reply)
      ensures (op.Create? || op.Update?) && reply.Ok? ==>
                reply.stored.data == op.obj.data && reply.stored.labels == op.obj.labels
      ensures op.Get? || op.key.kind != Deployment ==> NoDeployment(server.history, |old(server.history)|)
    {
      ghost var h0 := server.history;
      ghost var before, fault;
      reply, before, fault := server.Call(op);
      assert server.history[..|server.history| - 1] == before;
    }

    /** A call whose answer confirms the need, if it is positive. */
    method Ask(op: Call, ghost need: Need, ghost o: Owner) returns (reply: Answer)
      requires Valid() && (op.Get? || op.key.kind != Deployment)
      modifies server
      ensures Valid() && old(server.history) <= server.history && NoDeployment(server.history, |old(server.history)|)
      ensures OneCall(server.start, old(server.history), server.history, op, reply)
      ensures reply.Ok? && Meets(reply.stored, need) ==>
                Confirmed(server.start, server.history, |old(server.history)|, |server.history|, op.key, need)
      ensures (op.Create? || op.Update?) && reply.Ok? ==>
                reply.stored.data == op.obj.data && reply.stored.labels == op.obj.labels
      ensures (if reply.Ok?
               then op.Get? && reply.stored.owner !in {None, Some(o.key)}
               else !(op.Get? && reply.error == NotFound)) ==>
                Trouble(server.start, server.history, |old(server.history)|, o)
    {
      reply := Do(op);
      ghost var i := |server.history| - 1;
      assert TroubleAt(server.start, server.history, i, o) ==> Trouble(server.start, server.history,
          |old(server.history)|, o);
      assert reply.Ok? && Meets(reply.stored, need) ==> Confirms(server.start, server.history, i, op.key, need);
    }

    /** reconcileCertificates; the CA decides which certificates there are. */
    method ReconcileCertificates(o: Owner, issued: Option<seq<Certificate>>) returns (ok: bool, certs: seq<Certificate>)
      requires Valid()
      modifies server
      ensures Valid() && old(server.history) <= server.history && NoDeployment(server.history, |old(server.history)|)
      ensures certs == Certificates(o, issued)
      ensures ok ==> CertsReady(server.start, server.history, |old(server.history)|, |server.history|, o, certs)
      ensures ok && o.enrolled ==>
                && issued.Some?
                && forall c :: c in issued.value ==> Stored(server.start, server.history, |old(server.history)|, o, c)
      ensures !ok ==> (o.enrolled && issued.None?) || Trouble(server.start, server.history, |old(server.history)|, o)
    {
      certs := [];
      if !o.enrolled { return true, certs; }
      if issued.None? { return false, certs; }
      certs := issued.value;
      ghost var h0 := server.history;
      ok := CreateCertificateSecrets(o, certs);
      if ok {
        forall c | c in certs
          ensures Stored(server.start, server.history, |h0|, o, c)
        {
          ConfirmedStored(server.start, server.history, |h0|, o, c);
        }
      }
    }

    /** createCertificateSecrets: every certificate ends up in its secret. */
    method CreateCertificateSecrets(o: Owner, certs: seq<Certificate>) returns (ok: bool)
      requires Valid()
      modifies server
      ensures Valid() && old(server.history) <= server.history && NoDeployment(server.history, |old(server.history)|)
      ensures ok ==> CertsReady(server.start, server.history, |old(server.history)|, |server.history|, o, certs)
      ensures !ok ==> Trouble(server.start, server.history, |old(server.history)|, o)
    {
      ghost var h0 := server.history;
      for i := 0 to |certs|
        invariant Valid() && h0 <= server.history && NoDeployment(server.history, |h0|)
        invariant CertsReady(server.start, server.history, |h0|, |server.history|, o, certs[..i])
      {
        ghost var h1 := server.history;
        ok := CreateCertificateSecret(o, certs[i]);
        NoDeploymentTwice(h0, h1, server.history);
        if !ok {
          TroubleWider(server.start, server.history, server.history, |h1|, |h0|, o);
          return;
        }
        CertsReadyLater(server.start, h1, server.history, |h0|, |h1|, |server.history|, o, certs[..i]);
        ConfirmedSooner(server.start, server.history, |h0|, |h1|, CertKey(o, certs[i]), CertNeed(o, certs[i]));
        assert certs[..i + 1] == certs[..i] + [certs[i]];
      }
      assert certs[..|certs|] == certs;
      ok := true;
    }

    /** The body of the loop: create the secret, or bring data and labels up to date. */
    method CreateCertificateSecret(o: Owner, c: Certificate) returns (ok: bool)
      requires Valid()
      modifies server
      ensures Valid() && old(server.history) <= server.history && NoDeployment(server.history, |old(server.history)|)
      ensures ok ==> Confirmed(server.start, server.history, |old(server.history)|, |server.history|, CertKey(o, c),
                               CertNeed(o, c))
      ensures ok ==> Stored(server.start, server.history, |old(server.history)|, o, c)
      ensures !ok ==> Trouble(server.start, server.history, |old(server.history)|, o)
    {
      ghost var h0 := server.history;
      var key := CertKey(o, c);
      ghost var need := CertNeed(o, c);
      var got := Ask(Get(key), need, o);
      ghost var h1 := server.history;
      var reply := got;
      if got.Err? {
        if got.error != NotFound { return false; }
        reply := Ask(Create(key, Object((), (), CertLabels(o, c), CertData(c), [], false, Some(o.key), 0)), need, o);
      } else {
        var needsUpdate := false;
        var existing := got.stored;
        var updated := existing;
        if !SameEntries(existing.data, c) {
          updated := updated.(data := CertData(c));
          needsUpdate := true;
        }
        if existing.labels != CertLabels(o, c) {
          updated := updated.(labels := CertLabels(o, c));
          needsUpdate := true;
        }
        if !needsUpdate {
          ConfirmedStored(server.start, server.history, |h0|, o, c);
          return true;
        }
        reply := Ask(Update(key, updated), need, o);
      }
      NoDeploymentTwice(h0, h1, server.history);
      ok := reply.Ok?;
      if ok {
        ConfirmedSooner(server.start, server.history, |h0|, |h1|, key, need);
        ConfirmedStored(server.start, server.history, |h0|, o, c);
      }
    }

    /** reconcileGenesisBlock */
    method ReconcileGenesisBlock(o: Owner) returns (ok: bool)
      requires Valid()
      modifies server
      ensures Valid() && old(server.history) <= server.history && NoDeployment(server.history, |old(server.history)|)
      ensures ok <==> GateOpen(server.start, server.history, |old(server.history)|, |server.history|, o)
      ensures !ok ==> GateClosed(server.start, server.history, |old(server.history)|, o)
    {
      if o.genesis.secretName == "" { return true; }
      var namespace := o.key.namespace;
      if o.genesis.secretNamespace != "" {
        namespace := o.genesis.secretNamespace;
      }
      var genesisKey := o.genesis.secretKey;
      if genesisKey == "" {
        genesisKey := "genesis.block";
      }
      var got := Do(Get(Key(Secret, namespace, o.genesis.secretName)));
      ok := got.Ok? && genesisKey in got.stored.data;
      assert !ok ==> ClosedAt(server.start, server.history, |server.history| - 1, o);
      assert ok <==> Confirms(server.start, server.history, |server.history| - 1,
                              Gate.GateKey(o.genesis, o.key.namespace), HasEntry(Gate.GateEntry(o.genesis)));
    }

    /** controllerutil.CreateOrUpdate with a mutation that sets owner and data: no
        write if nothing changes or somebody else controls the object. */
    method CreateOrUpdate(o: Owner, key: Key, data: Data) returns (ok: bool)
      requires Valid() && key.kind != Deployment
      modifies server
      ensures Valid() && old(server.history) <= server.history && NoDeployment(server.history, |old(server.history)|)
      ensures ok ==> Confirmed(server.start, server.history, |old(server.history)|, |server.history|, key, Holds(data))
      ensures !ok ==> Trouble(server.start, server.history, |old(server.history)|, o)
      ensures Considered(server.start, server.history, |old(server.history)|, o)
    {
      ghost var h0 := server.history;
      var got := Ask(Get(key), Holds(data), o);
      ghost var h1 := server.history;
      ReadConsidered(server.start, h0, h1, Get(key), got, o);
      if got.Err? && got.error != NotFound { return false; }
      if got.Ok? && got.stored.owner !in {None, Some(o.key)} { return false; }
      var mutated := if got.Ok? then got.stored.(data := data, owner := Some(o.key))
                     else Object((), (), map[], data, [], false, Some(o.key), 0);
      if got == Ok(mutated) { return true; }
      var op := if got.Ok? then Update(key, mutated) else Create(key, mutated);
      var reply := Ask(op, Holds(data), o);
      WriteConsidered(server.start, h0, h1, server.history, key, got, op, reply, o);
      NoDeploymentTwice(h0, h1, server.history);
      ok := reply.Ok?;
      if ok {
        ConfirmedSooner(server.start, server.history, |h0|, |h1|, key, Holds(data));
      }
    }

    /** The assembler's way: create, and overwrite if it exists. */
    method CreateElseUpdate(o: Owner, key: Key, data: Data) returns (ok: bool)
      requires Valid() && key.kind != Deployment
      modifies server
      ensures Valid() && old(server.history) <= server.history && NoDeployment(server.history, |old(server.history)|)
      ensures ok ==> Confirmed(server.start, server.history, |old(server.history)|, |server.history|, key, Holds(data))
      ensures !ok ==> Trouble(server.start, server.history, |old(server.history)|, o)
    {
      ghost var h0 := server.history;
      var wanted := Object((), (), map[], data, [], false, Some(o.key), 0);
      var reply := Ask(Create(key, wanted), Holds(data), o);
      if reply.Err? && reply.error == AlreadyExists {
        ghost var h1 := server.history;
        reply := Ask(Update(key, wanted), Holds(data), o);
        NoDeploymentTwice(h0, h1, server.history);
        if reply.Ok? {
          ConfirmedSooner(server.start, server.history, |h0|, |h1|, key, Holds(data));
        }
      }
      ok := reply.Ok?;
    }

    /** reconcileDeployMode of the sidecar.  `issued` is what the CA grants, and
        `config` the rendered template, if it renders. */
    method DeploySidecar(o: Owner, issued: Option<seq<Certificate>>, config: Option<string>)
      returns (ok: bool, ghost inputs: Rollout.Inputs)
      requires Valid()
      modifies server
      ensures Valid() && old(server.history) <= server.history
      ensures o.bootstrapMode != "deploy" ==> ok && server.history == old(server.history)
      ensures WritesPrepared(server.start, server.history, |old(server.history)|, o, Certificates(o, issued), Secret,
                             SidecarConfig(config))
      ensures ok && o.bootstrapMode == "deploy" ==>
                && config.Some? && (o.enrolled ==> issued.Some?) && inputs.env == o.env
                && Deployed(server.start, server.history, |old(server.history)|, o, Certificates(o, issued), Secret,
                            map["sidecar_config.yaml" := config.value],
                            map["fabricx.kfsoft.tech/config-hash" := Rollout.Annotation(hash, inputs)])
      ensures !ok ==> config.None? || Excused(server.start, server.history, |old(server.history)|, o, issued)
    {
      ghost var h0 := server.history;
      inputs := Rollout.Inputs(None, None, None, []);
      if o.bootstrapMode != "deploy" { return true, inputs; }
      var certs;
      ok, certs := PrepareSidecar(o, issued, config);
      if !ok { return; }
      ghost var h1 := server.history;
      var read;
      ok, read := ReconcileSidecarDeployment(o);
      inputs := read;
      PreparedThenWrites(server.start, h0, h1, server.history, o, certs, Secret, SidecarConfig(config));
      if ok {
        PreparedThenDeployed(server.start, h0, h1, server.history, o, certs, Secret, SidecarConfig(config),
                             map["fabricx.kfsoft.tech/config-hash" := Rollout.Annotation(hash, inputs)]);
      } else {
        TroubleWider(server.start, server.history, server.history, |h1|, |h0|, o);
      }
    }

    /** Certificates, genesis gate, configuration and Service, in this order. */
    method PrepareSidecar(o: Owner, issued: Option<seq<Certificate>>, config: Option<string>)
      returns (ok: bool, certs: seq<Certificate>)
      requires Valid()
      modifies server
      ensures Valid() && old(server.history) <= server.history && NoDeployment(server.history, |old(server.history)|)
      ensures certs == Certificates(o, issued)
      ensures ok ==> config.Some? && (o.enrolled ==> issued.Some?)
      ensures ok ==>
                && Prepared(server.start, server.history, |old(server.history)|, |server.history|, o, certs, Secret,
                            SidecarConfig(config))
                && Confirmed(server.start, server.history, |old(server.history)|, |server.history|,
                             Named(o, Kind.Service, "-service"), Holds(map["port" := "5050"]))
      ensures !ok ==> config.None? || Excused(server.start, server.history, |old(server.history)|, o, issued)
    {
      ghost var h0 := server.history;
      ok, certs := ReconcileCertificates(o, issued);
      if !ok { return; }
      ghost var h1 := server.history;
      ok := ReconcileGenesisBlock(o);
      NoDeploymentTwice(h0, h1, server.history);
      if !ok {
        GateClosedWider(server.start, server.history, server.history, |h1|, |h0|, o);
        return;
      }
      ghost var h2 := server.history;
      if config.None? { return false, certs; }
      var data := map["sidecar_config.yaml" := config.value];
      ok := CreateOrUpdate(o, Named(o, Secret, "-config"), data);
      NoDeploymentTwice(h0, h2, server.history);
      if !ok {
        TroubleWider(server.start, server.history, server.history, |h2|, |h0|, o);
        return;
      }
      ghost var h3 := server.history;
      StepsPrepare(server.start, h0, h1, h2, h3, o, certs, Secret, data);
      ok := CreateOrUpdate(o, Named(o, Kind.Service, "-service"), map["port" := "5050"]);
      LastStep(server.start, h0, h3, server.history, o, certs, Secret, data, Named(o, Kind.Service, "-service"),
               Holds(map["port" := "5050"]), ok);
    }

    /** reconcileDeployment of the sidecar: the annotation it writes is that of the
        secrets as they were read. */
    method ReconcileSidecarDeployment(o: Owner) returns (ok: bool, inputs: Rollout.Inputs)
      requires Valid()
      modifies server
      ensures Valid() && old(server.history) <= server.history
      ensures inputs.env == o.env
      ensures WasRead(server.start, server.history, |old(server.history)|, Named(o, Secret, "-config"), inputs.config)
      ensures WasRead(server.start, server.history, |old(server.history)|, Named(o, Secret, "-sign-cert"), inputs.sign)
      ensures WasRead(server.start, server.history, |old(server.history)|, Named(o, Secret, "-tls-cert"), inputs.tls)
      ensures ok ==> Confirmed(server.start, server.history, |old(server.history)|, |server.history|,
                               Named(o, Deployment, ""),
                               Holds(map["fabricx.kfsoft.tech/config-hash" := Rollout.Annotation(hash, inputs)]))
      ensures !ok ==> Trouble(server.start, server.history, |old(server.history)|, o)
    {
      ghost var h0 := server.history;
      var config := Read(Named(o, Secret, "-config"));
      ghost var h1 := server.history;
      var sign := Read(Named(o, Secret, "-sign-cert"));
      ghost var h2 := server.history;
      var tls := Read(Named(o, Secret, "-tls-cert"));
      ghost var h3 := server.history;
      inputs := Rollout.Inputs(config, sign, tls, o.env);
      var annotation := Rollout.CombinedHash(hash, inputs);
      var data := map["fabricx.kfsoft.tech/config-hash" := annotation];
      ok := WriteDeployment(o, data);
      WasReadLater(server.start, h1, server.history, |h0|, Named(o, Secret, "-config"), config);
      WasReadLater(server.start, h2, server.history, |h0|, Named(o, Secret, "-sign-cert"), sign);
      WasReadLater(server.start, h3, server.history, |h0|, Named(o, Secret, "-tls-cert"), tls);
      if ok {
        ConfirmedSooner(server.start, server.history, |h0|, |h3|, Named(o, Deployment, ""), Holds(data));
      } else {
        TroubleWider(server.start, server.history, server.history, |h3|, |h0|, o);
      }
    }

    /** updateDeployment of the sidecar: CreateOrUpdate again. */
    method WriteDeployment(o: Owner, data: Data) returns (ok: bool)
      requires Valid()
      modifies server
      ensures Valid() && old(server.history) <= server.history
      ensures ok ==> Confirmed(server.start, server.history, |old(server.history)|, |server.history|,
                               Named(o, Deployment, ""), Holds(data))
      ensures !ok ==> Trouble(server.start, server.history, |old(server.history)|, o)
      ensures Considered(server.start, server.history, |old(server.history)|, o)
    {
      ghost var h0 := server.history;
      var key := Named(o, Deployment, "");
      var got := Do(Get(key));
      ghost var h1 := server.history;
      ReadConsidered(server.start, h0, h1, Get(key), got, o);
      assert got.Err? || got.stored.owner in {None, Some(o.key)} || TroubleAt(server.start, h1, |h1| - 1, o);
      if got.Err? && got.error != NotFound {
        assert TroubleAt(server.start, h1, |h1| - 1, o);
        return false;
      }
      if got.Ok? && got.stored.owner !in {None, Some(o.key)} { return false; }
      var mutated := if got.Ok? then got.stored.(data := data, owner := Some(o.key))
                     else Object((), (), map[], data, [], false, Some(o.key), 0);
      if got == Ok(mutated) {
        assert Confirms(server.start, h1, |h1| - 1, key, Holds(data));
        return true;
      }
      var op := if got.Ok? then Update(key, mutated) else Create(key, mutated);
      var reply := Do(op);
      WriteConsidered(server.start, h0, h1, server.history, key, got, op, reply, o);
      ok := reply.Ok?;
      ghost var i := |server.history| - 1;
      assert if ok then Confirms(server.start, server.history, i, key, Holds(data))
             else TroubleAt(server.start, server.history, i, o);
    }

    /** The read of computeSecretHash. */
    method Read(key: Key) returns (r: Option<Data>)
      requires Valid() && key.kind != Deployment
      modifies server
      ensures Valid() && old(server.history) <= server.history && NoDeployment(server.history, |old(server.history)|)
      ensures forall from :: 0 <= from <= |old(server.history)| ==> WasRead(server.start, server.history, from, key, r)
    {
      var got := Do(Get(key));
      r := if got.Ok? then Some(got.stored.data) else None;
      assert ReadsAs(server.start, server.history, |server.history| - 1, key, r);
    }

    /** reconcileDeployMode of the assembler. */
    method DeployAssembler(o: Owner, issued: Option<seq<Certificate>>, config: string, template: Data)
      returns (ok: bool)
      requires Valid()
      modifies server
      ensures Valid() && old(server.history) <= server.history
      ensures WritesPrepared(server.start, server.history, |old(server.history)|, o, Certificates(o, issued), ConfigMap,
                             map["assembler.yaml" := config])
      ensures ok ==>
                && (o.enrolled ==> issued.Some?)
                && Deployed(server.start, server.history, |old(server.history)|, o, Certificates(o, issued), ConfigMap,
                            map["assembler.yaml" := config], template)
      ensures !ok ==> Excused(server.start, server.history, |old(server.history)|, o, issued)
    {
      ghost var h0 := server.history;
      var certs;
      ok, certs := PrepareAssembler(o, issued, config);
      if !ok { return; }
      ghost var h1 := server.history;
      ok := WriteAssemblerDeployment(o, template);
      PreparedThenWrites(server.start, h0, h1, server.history, o, certs, ConfigMap, map["assembler.yaml" := config]);
      if ok {
        PreparedThenDeployed(server.start, h0, h1, server.history, o, certs, ConfigMap,
                             map["assembler.yaml" := config], template);
      } else {
        TroubleWider(server.start, server.history, server.history, |h1|, |h0|, o);
      }
    }

    /** Certificates, genesis gate, configuration, Service and volume claim. */
    method PrepareAssembler(o: Owner, issued: Option<seq<Certificate>>, config: string)
      returns (ok: bool, certs: seq<Certificate>)
      requires Valid()
      modifies server
      ensures Valid() && old(server.history) <= server.history && NoDeployment(server.history, |old(server.history)|)
      ensures certs == Certificates(o, issued)
      ensures ok ==>
                && (o.enrolled ==> issued.Some?)
                && Prepared(server.start, server.history, |old(server.history)|, |server.history|, o, certs, ConfigMap,
                            map["assembler.yaml" := config])
                && Confirmed(server.start, server.history, |old(server.history)|, |server.history|,
                             Named(o, Kind.Service, "-service"), Holds(map["port" := "7050"]))
      ensures !ok ==> Excused(server.start, server.history, |old(server.history)|, o, issued)
    {
      ghost var h0 := server.history;
      ok, certs := ReconcileCertificates(o, issued);
      if !ok { return; }
      ghost var h1 := server.history;
      ok := ReconcileGenesisBlock(o);
      NoDeploymentTwice(h0, h1, server.history);
      if !ok {
        GateClosedWider(server.start, server.history, server.history, |h1|, |h0|, o);
        return;
      }
      ghost var h2 := server.history;
      var data := map["assembler.yaml" := config];
      ok := CreateElseUpdate(o, Named(o, ConfigMap, "-config"), data);
      NoDeploymentTwice(h0, h2, server.history);
      if !ok {
        TroubleWider(server.start, server.history, server.history, |h2|, |h0|, o);
        return;
      }
      ghost var h3 := server.history;
      StepsPrepare(server.start, h0, h1, h2, h3, o, certs, ConfigMap, data);
      ok := ReconcileServiceAndPvc(o);
      LastStep(server.start, h0, h3, server.history, o, certs, ConfigMap, data, Named(o, Kind.Service, "-service"),
               Holds(map["port" := "7050"]), ok);
    }

    /** updateDeployment of the assembler, with its pod template. */
    method WriteAssemblerDeployment(o: Owner, template: Data) returns (ok: bool)
      requires Valid()
      modifies server
      ensures Valid() && old(server.history) <= server.history
      ensures ok ==> Confirmed(server.start, server.history, |old(server.history)|, |server.history|,
                               Named(o, Deployment, ""), Holds(template))
      ensures !ok ==> Trouble(server.start, server.history, |old(server.history)|, o)
    {
      var key, wanted := Named(o, Deployment, ""), Object((), (), map[], template, [], false, Some(o.key), 0);
      var reply := Do(Create(key, wanted));
      if reply.Err? && reply.error == AlreadyExists {
        reply := Do(Update(key, wanted));
      }
      ok := reply.Ok?;
      ghost var i := |server.history| - 1;
      assert if ok then Confirms(server.start, server.history, i, key, Holds(template))
             else TroubleAt(server.start, server.history, i, o);
    }

    method ReconcileServiceAndPvc(o: Owner) returns (ok: bool)
      requires Valid()
      modifies server
      ensures Valid() && old(server.history) <= server.history && NoDeployment(server.history, |old(server.history)|)
      ensures ok ==> Confirmed(server.start, server.history, |old(server.history)|, |server.history|,
                               Named(o, Kind.Service, "-service"), Holds(map["port" := "7050"]))
      ensures ok && o.storage ==>
                Confirmed(server.start, server.history, |old(server.history)|, |server.history|,
                          Named(o, PersistentVolumeClaim, "-data-pvc"), Holds(map[]))
      ensures !ok ==> Trouble(server.start, server.history, |old(server.history)|, o)
    {
      ghost var h0 := server.history;
      ok := CreateElseUpdate(o, Named(o, Kind.Service, "-service"), map["port" := "7050"]);
      if !ok { return; }
      if o.storage {
        ghost var h1 := server.history;
        ok := CreateElseUpdate(o, Named(o, PersistentVolumeClaim, "-data-pvc"), map[]);
        NoDeploymentTwice(h0, h1, server.history);
        if ok {
          ConfirmedLater(server.start, h1, server.history, |h0|, |h1|, |server.history|,
                         Named(o, Kind.Service, "-service"), Holds(map["port" := "7050"]));
          ConfirmedSooner(server.start, server.history, |h0|, |h1|, Named(o, PersistentVolumeClaim, "-data-pvc"),
                          Holds(map[]));
        } else {
          TroubleWider(server.start, server.history, server.history, |h1|, |h0|, o);
        }
      }
    }
  }

  /** reflect.DeepEqual on the three entries of a certificate secret. */
  predicate SameEntries(data: Data, c: Certificate) {
    && "cert.pem" in data && data["cert.pem"] == c.cert
    && "key.pem" in data && data["key.pem"] == c.key
    && "ca.pem" in data && data["ca.pem"] == c.caCert
  }

  /** An earlier start of the stretch. */
  lemma ConfirmedSooner(start: State, h: Trace, from: nat, from': nat, key: Key, need: Need)
    requires from <= from' <= |h| && Confirmed(start, h, from', |h|, key, need)
    ensures Confirmed(start, h, from, |h|, key, need)
  {
  }

  /** The three steps in a row prepare the Deployment. */
  lemma StepsPrepare(start: State, h0: Trace, h1: Trace, h2: Trace, h3: Trace, o: Owner, certs: seq<Certificate>,
                     configKind: Kind, config: Data)
    requires h0 <= h1 <= h2 <= h3
    requires CertsReady(start, h1, |h0|, |h1|, o, certs) && GateOpen(start, h2, |h1|, |h2|, o)
    requires Confirmed(start, h3, |h2|, |h3|, Named(o, configKind, "-config"), Holds(config))
    ensures Prepared(start, h3, |h0|, |h3|, o, certs, configKind, config)
  {
    CertsReadyLater(start, h1, h3, |h0|, |h1|, |h3|, o, certs);
    GateOpenLater(start, h2, h3, |h1|, |h2|, |h3|, o);
  }

  /** The step after the three, the Service: it leaves everything prepared. */
  lemma LastStep(start: State, h0: Trace, h3: Trace, h: Trace, o: Owner, certs: seq<Certificate>, configKind: Kind,
                 config: Data, key: Key, need: Need, ok: bool)
    requires h0 <= h3 <= h && NoDeployment(h3, |h0|) && NoDeployment(h, |h3|)
    requires Prepared(start, h3, |h0|, |h3|, o, certs, configKind, config)
    requires if ok then Confirmed(start, h, |h3|, |h|, key, need) else Trouble(start, h, |h3|, o)
    ensures NoDeployment(h, |h0|)
    ensures Prepared(start, h, |h0|, |h|, o, certs, configKind, config)
    ensures if ok then Confirmed(start, h, |h0|, |h|, key, need) else Trouble(start, h, |h0|, o)
  {
    NoDeploymentTwice(h0, h3, h);
    PreparedLater(start, h3, h, |h0|, |h3|, |h|, o, certs, configKind, config);
    if ok {
      ConfirmedSooner(start, h, |h0|, |h3|, key, need);
    } else {
      TroubleWider(start, h, h, |h3|, |h0|, o);
    }
  }

  /** Where the gate looks and for what, spelled out. */
  lemma GateSpelledOut(o: Owner)
    ensures Gate.GateKey(o.genesis, o.key.namespace) ==
            Key(Secret, if o.genesis.secretNamespace != "" then o.genesis.secretNamespace else o.key.namespace,
                o.genesis.secretName)
    ensures Gate.GateEntry(o.genesis) == if o.genesis.secretKey != "" then o.genesis.secretKey else "genesis.block"
  {
  }
}
