/** The ChainNamespace reconciler, statement by statement, over the shared server. */
module ChainNamespaceController {
  import opened Prelude
  import opened ApiServer
  import opened ChainNamespaceProgram
  import opened ChainNamespaceSafety
  import Envelope

  /** updateStatus's loop over the conditions. */
  method UpsertCondition(conditions: seq<Condition>, c: Condition) returns (r: seq<Condition>)
    ensures r == WithCondition(conditions, c)
  {
    r := conditions;
    for i := 0 to |r|
      invariant r == conditions
      invariant WithCondition(conditions, c) == conditions[..i] + WithCondition(conditions[i..], c)
    {
      if r[i].kind == c.kind {
        assert conditions[i := c] == conditions[..i] + ([c] + conditions[i..][1..]);
        return r[i := c];
      }
      assert conditions[i..][1..] == conditions[i + 1..];
    }
    r := r + [c];
  }

  function CountKind(conditions: seq<Condition>, kind: string): nat {
    if conditions == [] then 0 else (if conditions[0].kind == kind then 1 else 0) + CountKind(conditions[1..], kind)
  }

  /** An upsert leaves the new condition in place of its kind's first one and all
      conditions of other kinds as they were; it never adds a second of a kind. */
  lemma {:induction false} UpsertExact(conditions: seq<Condition>, c: Condition, other: string)
    ensures var r := WithCondition(conditions, c);
            && c in r
            && CountKind(r, c.kind) == (if CountKind(conditions, c.kind) == 0 then 1 else CountKind(conditions, c.kind))
            && (other != c.kind ==> CountKind(r, other) == CountKind(conditions, other))
            && forall d: Condition :: d.kind != c.kind ==> (d in r <==> d in conditions)
  {
    if conditions != [] {
      assert conditions == [conditions[0]] + conditions[1..];
      if conditions[0].kind != c.kind {
        UpsertExact(conditions[1..], c, other);
      }
    }
  }

  /** What a deployment meets outside: the verification key or the signer's identity
      as PEM data (if the MSP could be set up and they be read), the nonce, whether
      the envelope reached the orderer and was accepted, and whether its answer was
      heard. */
  datatype Surroundings = Surroundings(pkData: Option<string>, nonce: string, reached: bool, heard: bool, error: string)

  /** validateNamespace */
  method ValidateNamespace(ns: NsSpec) returns (valid: bool)
    ensures valid <==> ValidSpec(ns)
    ensures !valid <==>
            || ns.name == "" || ns.orderer == "" || ns.mspID == ""
            || ns.identity.name == "" || ns.identity.namespace == ""
            || (ns.tls.Some? && ns.tls.value.enabled &&
                (ns.tls.value.caCert.None? || ns.tls.value.caCert.value.name == "" ||
                 ns.tls.value.caCert.value.namespace == ""))
  {
    if ns.name == "" { return false; }
    if ns.orderer == "" { return false; }
    if ns.mspID == "" { return false; }
    if ns.identity.name == "" || ns.identity.namespace == "" { return false; }
    if ns.tls.Some? && ns.tls.value.enabled {
      if ns.tls.value.caCert.None? { return false; }
      var caCert := ns.tls.value.caCert.value;
      if caCert.name == "" || caCert.namespace == "" { return false; }
    }
    return true;
  }

  class ChainNamespaceReconciler {
    const server: Server<NsSpec, NsStatus>
    const lib: Envelope.Library
    const pem: Envelope.Pem
    const metaID: string
    ghost var events: seq<Event>
    ghost var pc: Pc
    /** The fetches so far, one for each reconcile. */
    ghost var rounds: seq<Key>

    ghost predicate Valid()
      reads this, server
    {
      && server.Valid() && rounds == OwnGets(server.history, ChainNamespace)
      && (forall db, op :: server.rely(db, op) ==> OthersMay(db, op))
      && Envelope.Lawful(lib) && Envelope.Consumes(pem)
      && Follows(server.start, events)
      && Calls(events) == server.history
      && pc == PcAfter(server.start, events)
    }

    constructor (server: Server<NsSpec, NsStatus>, lib: Envelope.Library, pem: Envelope.Pem, metaID: string)
      requires server.Valid() && server.history == [] && Envelope.Lawful(lib) && Envelope.Consumes(pem)
      requires forall db, op :: server.rely(db, op) ==> OthersMay(db, op)
      ensures Valid() && pc.Idle? && this.server == server && events == []
    {
      this.server := server;
      this.lib, this.pem := lib, pem;
      this.metaID := metaID;
      events := [];
      pc, rounds := Idle, [];
    }

    /** One API call: the next one of the program. */
    method Do(op: Call) returns (reply: Answer)
      requires Valid() && (Fetches(op) || (!pc.Idle? && !pc.Deploy? && op == NextOp(pc)))
      modifies this, server
      ensures Valid() && old(events) <= events && pc == Resume(old(pc), op, reply)
      ensures rounds == old(rounds) + if Fetches(op) then [op.key] else []
    {
      ghost var h0 := server.history;
      ghost var before, fault;
      reply, before, fault := server.Call(op);
      OthersWithin(server.start, h0, before, server.rely, OthersMay);
      ghost var events' := Absorb(server.start, events, before);
      FollowsStep(server.start, events', Store(Mine(op, fault)));
      events := events' + [Store(Mine(op, fault))];
      pc := Resume(pc, op, reply);
      rounds := rounds + if Fetches(op) then [op.key] else [];
    }

    /** Reconcile. */
    method Reconcile(k: Key)
      requires Valid() && pc.Idle? && k.kind == ChainNamespace
      modifies this, server
      ensures Valid() && pc.Idle? && old(events) <= events
      ensures rounds == old(rounds) + [k]
      ensures WellFormed(server.start) && !DeployedIn(server.start, k) ==>
                |AcceptedIds(server.start, events, k)| <=
                1 + Removals(server.start, events, k) + Unrecorded(server.start, events, k)
    {
      ReconcileBody(k);
      if WellFormed(server.start) && !DeployedIn(server.start, k) {
        DuplicatesBounded(server.start, events, k);
      }
    }

    method ReconcileBody(k: Key)
      requires Valid() && pc.Idle? && k.kind == ChainNamespace
      modifies this, server
      ensures Valid() && pc.Idle? && old(events) <= events
      ensures rounds == old(rounds) + [k]
    {
      var fetched := Do(Get(k));
      if fetched.Err? { return; }
      var ns := fetched.stored;
      if ns.marked {
        HandleDeletion(k, ns);
        return;
      }
      if FINALIZER !in ns.finalizers {
        var reply := Do(Update(k, ns.(finalizers := ns.finalizers + [FINALIZER])));
        if reply.Err? { return; }
        ns := reply.stored;
      }
      if ns.status.status == "Deployed" && ns.status.txID != "" {
        return;
      }
      DeployAndRecord(k, ns);
    }

    /** The end of Reconcile: deploy, and record how it went. */
    method DeployAndRecord(k: Key, ns: Obj)
      requires Valid() && pc == Deploy(k, ns) && k.kind == ChainNamespace
      modifies this, server
      ensures Valid() && pc.Idle? && old(events) <= events
      ensures rounds == old(rounds)
    {
      var s: Surroundings := *;
      var result, now := DeployNamespace(k, ns, s);
      if result.Accepted? {
        UpdateStatus(k, ns, "Deployed", "Namespace deployed successfully", result.txID, now);
      } else {
        UpdateStatus(k, ns, "Failed", result.error, "", now);
      }
    }

    method HandleDeletion(k: Key, ns: Obj)
      requires Valid() && k.kind == ChainNamespace
      requires pc == if FINALIZER in ns.finalizers then RemoveFinalizer(k, ns) else Idle
      modifies this, server
      ensures Valid() && pc.Idle? && old(events) <= events
      ensures rounds == old(rounds)
    {
      if FINALIZER !in ns.finalizers { return; }
      var _ := Do(Update(k, ns.(finalizers := RemoveString(ns.finalizers, FINALIZER))));
    }

    /** What the orderer got for `ns`: an envelope that verifies, with one namespace,
        the meta namespace at version 0, and in it one write: the policy over the
        first usable key of the PEM data, under the name of `ns`, at its version
        unless that is negative. */
    ghost predicate Sent(ns: NsSpec, s: Surroundings, i: nat, sent: Envelope.TxNamespace,
                         env: Envelope.SignedEnvelope, txID: string)
    {
      Envelope.Consumes(pem) && s.pkData.Some? &&
      var blocks := Envelope.Blocks(pem, s.pkData.value);
      && Envelope.FirstUsable(pem, blocks, i)
      && Envelope.Sound(lib, s.nonce, if ns.channel != "" then ns.channel else "mychannel", [sent], env, txID)
      && sent.nsID == metaID && sent.nsVersion == 0 && |sent.readWrites| == 1
      && var write, key := sent.readWrites[0], Envelope.KeyOf(pem, blocks[i]).value;
         && write.key == ns.name
         && write.val == lib.marshalPolicy("ECDSA", pem.encode(Envelope.Block("PUBLIC KEY", key)))
         && (ns.version >= 0 ==> write.version == Some(ns.version))
         && (ns.version < 0 ==> write.version == None)
    }

    /** What can keep a deployment from reaching the orderer. */
    ghost predicate Hindered(ns: NsSpec, s: Surroundings) {
      || !ValidSpec(ns) || s.pkData.None? || !s.reached || Envelope.SigningFails(lib)
      || (Envelope.Consumes(pem) && Envelope.NoneUsable(pem, Envelope.Blocks(pem, s.pkData.value)))
    }

    /** deployNamespace: validate, extract the key, build and sign the transaction,
        broadcast it. */
    method DeployNamespace(k: Key, ns: Obj, s: Surroundings) returns (result: Deployment, now: int)
      requires Valid() && pc == Deploy(k, ns)
      modifies this
      ensures Valid() && old(events) <= events && pc == Record(k, ns, Verdict(ns.status, result, now))
      ensures rounds == old(rounds)
      ensures !result.Rejected? ==>
                && ValidSpec(ns.spec) && s.reached
                && exists i: nat, sent, env :: Sent(ns.spec, s, i, sent, env, result.txID)
      ensures result.Accepted? ==> s.heard
      ensures result.Rejected? ==> Hindered(ns.spec, s)
      ensures result.AcceptedUnheard? ==> !s.heard
    {
      now := *;
      result := SignAndSend(ns.spec, s);
      ghost var e := Event.Broadcast(result, now);
      FollowsStep(server.start, events, e);
      events := events + [e];
      pc := Record(k, ns, Verdict(ns.status, result, now));
    }

    method SignAndSend(ns: NsSpec, s: Surroundings) returns (result: Deployment)
      requires Valid()
      ensures !result.Rejected? ==>
                && ValidSpec(ns) && s.reached && result.txID != ""
                && exists i: nat, sent, env :: Sent(ns, s, i, sent, env, result.txID)
      ensures result.Accepted? ==> s.heard
      ensures result.Rejected? ==> Hindered(ns, s)
      ensures result.AcceptedUnheard? ==> !s.heard
    {
      result := Rejected("deployment failed");
      var valid := ValidateNamespace(ns);
      if !valid || s.pkData.None? { return; }
      var key := Envelope.GetPubKeyFromPemData(pem, s.pkData.value);
      if key.None? { return; }
      var tx := Envelope.NamespacesTx(metaID, lib.marshalPolicy("ECDSA", key.value), ns.name, ns.version);
      var channel := ns.channel;
      if channel == "" {
        channel := "mychannel";
      }
      var signed := Envelope.CreateSignedEnvelope(lib, s.nonce, channel, tx);
      if signed.None? { return; }
      ghost var i := Envelope.FirstOf(pem, Envelope.Blocks(pem, s.pkData.value));
      assert tx.namespaces == [tx.namespaces[0]];
      assert Sent(ns, s, i, tx.namespaces[0], signed.value.0, signed.value.1);
      result := Broadcast(signed.value.0, signed.value.1, s);
    }

    /** broadcast: the network and the orderer decide. */
    method Broadcast(env: Envelope.SignedEnvelope, txID: string, s: Surroundings) returns (result: Deployment)
      ensures result == if !s.reached then Rejected(s.error)
                        else if s.heard then Accepted(txID) else AcceptedUnheard(txID, s.error)
    {
      if !s.reached { return Rejected(s.error); }
      if !s.heard { return AcceptedUnheard(txID, s.error); }
      return Accepted(txID);
    }

    method UpdateStatus(k: Key, ns: Obj, status: string, message: string, txID: string, now: int)
      requires Valid() && pc == Record(k, ns, NewStatus(ns.status, status, message, txID, now))
      modifies this, server
      ensures Valid() && pc.Idle? && old(events) <= events
      ensures rounds == old(rounds)
    {
      var condition := Condition("Ready", true, now, status, message);
      if status == "Failed" {
        condition := condition.(holds := false);
      }
      var conditions := UpsertCondition(ns.status.conditions, condition);
      var _ := Do(StatusUpdate(k, ns.(status := NsStatus(status, message, txID, conditions))));
    }
  }

  /** Append the others' calls to the events. */
  lemma {:induction false} Absorb(start: State, events: seq<Event>, h: History<NsSpec, NsStatus>)
    returns (r: seq<Event>)
    requires Follows(start, events) && OthersOnly(start, Calls(events), h, OthersMay)
    ensures Follows(start, r) && Calls(r) == h && events <= r && PcAfter(start, r) == PcAfter(start, events)
    decreases |h|
  {
    if |h| == |Calls(events)| {
      r := events;
      assert h == Calls(events);
    } else {
      var before, last := h[..|h| - 1], h[|h| - 1];
      OthersOnlyShrink(start, Calls(events), h, OthersMay);
      assert h == before + [last];
      var r' := Absorb(start, events, before);
      r := r' + [Store(last)];
      assert Permits(start, r', Store(last));
      FollowsStep(start, r', Store(last));
      assert events <= r;
    }
  }
}
