/** The Identity reconciler, statement by statement, over the shared server. */
module IdentityController {
  import opened Prelude
  import opened ApiServer
  import opened IdentityProgram
  import opened IdentitySafety

  function Fetches(events: seq<Event>): nat {
    if events == [] then 0
    else Fetches(events[..|events| - 1]) + if events[|events| - 1].Fetch? then 1 else 0
  }

  class IdentityReconciler {
    const server: Server<Spec, Status>
    const parses: string -> bool
    const k: Key
    const sk: Key
    ghost var pc: Pc
    ghost var events: seq<Event>
    /** The fetches so far, one for each reconcile. */
    ghost var rounds: nat
    /** Have all reads been current so far? */
    ghost var current: bool

    ghost function First(): World {
      World(server.start, Idle)
    }

    ghost predicate Valid()
      reads this, server
    {
      && server.Valid() && k.kind == Identity && rounds == Fetches(events)
      && (forall db, op :: server.rely(db, op) ==> OthersMay(k, sk, db, op))
      && (current ==>
            Follows(parses, k, sk, First(), events) && Run(parses, k, First(), events) == World(server.db, pc))
    }

    constructor (server: Server<Spec, Status>, parses: string -> bool, k: Key, sk: Key)
      requires server.Valid() && server.history == [] && k.kind == Identity
      requires forall db, op :: server.rely(db, op) ==> OthersMay(k, sk, db, op)
      ensures Valid() && pc.Idle? && current && events == []
      ensures this.server == server && this.k == k && this.sk == sk && this.parses == parses
    {
      this.server, this.parses, this.k, this.sk := server, parses, k, sk;
      pc, events, rounds, current := Idle, [], 0, true;
    }

    /** One API call of the program. */
    method Do(op: Call) returns (reply: Answer)
      requires Valid() && !pc.Idle? && !pc.Enrol? && op == NextOp(k, pc)
      modifies this, server
      ensures Valid() && old(events) <= events && pc == Resume(parses, old(pc), reply)
      ensures rounds == old(rounds)
    {
      ghost var fault;
      reply, fault := Call(op);
      NextRun(parses, k, First(), events, Step(fault));
      events := events + [Step(fault)];
      pc := Resume(parses, pc, reply);
    }

    /** The fetch that starts a reconcile. */
    method FetchIdentity() returns (reply: Answer)
      requires Valid()
      modifies this, server
      ensures Valid() && old(events) <= events && pc == Begin(reply)
      ensures rounds == old(rounds) + 1
    {
      ghost var fault;
      reply, fault := Call(Get(k));
      NextRun(parses, k, First(), events, Fetch(fault));
      events := events + [Fetch(fault)];
      rounds := rounds + 1;
      pc := Begin(reply);
    }

    /** A call, with the others' calls before it put on record. */
    method Call(op: Call) returns (reply: Answer, ghost fault: Fault)
      requires Valid()
      modifies this, server
      ensures server.Valid() && pc == old(pc) && old(events) <= events && (current ==> !fault.Stale?)
      ensures rounds == old(rounds) == Fetches(events)
      ensures current ==> old(current) && Follows(parses, k, sk, First(), events)
      ensures current ==>
                var w := Run(parses, k, First(), events);
                && w.pc == pc && server.db == Perform(w.db, w.db, op, fault).db
                && reply == Perform(w.db, w.db, op, fault).reply
    {
      ghost var h0 := server.history;
      ghost var before;
      reply, before, fault := server.Call(op);
      OthersWithin(server.start, h0, before, server.rely, (db, op) => OthersMay(k, sk, db, op));
      if current {
        events := Absorb(parses, k, sk, First(), events, server.start, h0, before);
      }
      current := current && !fault.Stale?;
      assert server.history[..|before|] == before;
    }

    /** Reconcile.  Every run of it keeps the bound on issued certificates, as long
        as its reads are current. */
    method Reconcile()
      requires Valid() && pc.Idle?
      modifies this, server
      ensures Valid() && pc.Idle? && old(events) <= events
      ensures rounds == old(rounds) + 1
      ensures current && Starts(k, sk, First()) ==>
                var l := Watch(parses, k, sk, First(), events); l.issued <= 1 + l.needless + l.wasted
    {
      ReconcileBody();
      if current && Starts(k, sk, First()) {
        EnrolmentsBounded(parses, k, sk, First(), events);
      }
    }

    method ReconcileBody()
      requires Valid() && pc.Idle?
      modifies this, server
      ensures Valid() && pc.Idle? && old(events) <= events
      ensures rounds == old(rounds) + 1
    {
      var fetched := FetchIdentity();
      if fetched.Err? { return; }
      var me := fetched.stored;
      if me.marked {
        if FINALIZER in me.finalizers {
          var _ := Do(Update(k, me.(finalizers := RemoveString(me.finalizers, FINALIZER))));
        }
        return;
      }
      if FINALIZER !in me.finalizers {
        var reply := Do(Update(k, me.(finalizers := me.finalizers + [FINALIZER])));
        if reply.Err? { return; }
        me := reply.stored;
      }
      if !(me.spec.OfIdentity? && me.spec.enrollment.Some?) {
        UpdateStatus(me, INVALID_SPEC);
        return;
      }
      CheckOrEnrol(me);
    }

    method CheckOrEnrol(me: Obj)
      requires Valid() && pc == Exists(me)
      modifies this, server
      ensures Valid() && pc.Idle? && old(events) <= events
      ensures rounds == old(rounds)
    {
      var there := OutputSecretsExist(me);
      if there {
        var valid := ValidateExistingSecrets(me);
        UpdateStatus(me, if valid then READY_EXISTING else INVALID_SECRET);
        return;
      }
      HandleEnrollment(me);
    }

    /** outputSecretsExist: any error of the read means "no". */
    method OutputSecretsExist(me: Obj) returns (there: bool)
      requires Valid() && pc == Exists(me)
      modifies this, server
      ensures Valid() && old(events) <= events && pc == if there then Validate(me) else Enrol(me)
      ensures rounds == old(rounds)
    {
      var got := Do(Get(SecretKey(k, me, Idemix(me) == Some(Some(true)))));
      there := got.Ok?;
    }

    /** validateExistingSecrets */
    method ValidateExistingSecrets(me: Obj) returns (valid: bool)
      requires Valid() && pc == Validate(me)
      modifies this, server
      ensures Valid() && old(events) <= events
      ensures rounds == old(rounds)
      ensures pc == Refetch(me, if valid then READY_EXISTING else INVALID_SECRET)
    {
      var idemix := Idemix(me) == Some(Some(true));
      var got := Do(Get(SecretKey(k, me, idemix)));
      if got.Err? { return false; }
      var data := got.stored.data;
      if idemix {
        if "Cred" !in data { return false; }
        if "Sk" !in data { return false; }
        return true;
      }
      if "cert.pem" !in data || |data["cert.pem"]| == 0 { return false; }
      if "key.pem" !in data || |data["key.pem"]| == 0 { return false; }
      if "cacert.pem" !in data || |data["cacert.pem"]| == 0 { return false; }
      return parses(data["cert.pem"]);
    }

    /** handleEnrollment and handleIdemixEnrollment: the reads of the CA and its
        secrets, and the CA itself, decide the grant. */
    method HandleEnrollment(me: Obj)
      requires Valid() && pc == Enrol(me)
      modifies this, server
      ensures Valid() && pc.Idle? && old(events) <= events
      ensures rounds == old(rounds)
    {
      var grant := EnrolWithCa();
      if !grant.Granted? {
        UpdateStatus(me, NOT_ENROLLED);
        return;
      }
      var ok, me' := CreateOutputSecrets(me, grant.data);
      UpdateStatus(me', if ok then READY_ENROLLED else NOT_STORED);
    }

    method EnrolWithCa() returns (grant: Grant)
      requires Valid() && pc.Enrol?
      modifies `events, `pc
      ensures Valid() && old(events) <= events && pc == AfterGrant(old(pc), grant)
    {
      grant := *;
      NextRun(parses, k, First(), events, Ca(grant));
      events := events + [Ca(grant)];
      pc := AfterGrant(pc, grant);
    }

    /** createOutputSecrets and createIdemixSecret: create, or overwrite what is
        there; a success sets the names of the secrets on the copy. */
    method CreateOutputSecrets(me: Obj, data: Data) returns (ok: bool, me': Obj)
      requires Valid() && pc == CreateSecret(me, data)
      modifies this, server
      ensures Valid() && old(events) <= events && pc == Refetch(me', if ok then READY_ENROLLED else NOT_STORED)
      ensures me' == if ok then WithOutputs(me) else me
      ensures rounds == old(rounds)
    {
      var key := SecretKey(k, me, Idemix(me).Some?);
      var secret := NewSecret(k, me, data);
      var reply := Do(Create(key, secret));
      if reply.Err? && reply.error == AlreadyExists {
        reply := Do(Update(key, secret));
      }
      ok, me' := reply.Ok?, me;
      if ok {
        var name, outputs := OutputName(me), me.status.outputSecrets;
        if Idemix(me).Some? {
          outputs := outputs.(idemixCred := name + "-idemix");
        } else {
          outputs := Outputs(name, name, name, "");
        }
        me' := me.(status := me.status.(outputSecrets := outputs));
      }
    }

    /** updateStatus: the verdict goes on a fresh copy; whatever else was set on
        `me` is lost. */
    method UpdateStatus(me: Obj, v: Verdict)
      requires Valid() && pc == Refetch(me, v)
      modifies this, server
      ensures Valid() && pc.Idle? && old(events) <= events
      ensures rounds == old(rounds)
    {
      var got := Do(Get(k));
      if got.Err? { return; }
      var refetched := got.stored;
      refetched := refetched.(status := refetched.status.(status := v.status, message := v.message));
      var _ := Do(StatusUpdate(k, refetched));
    }
  }

  lemma NextRun(parses: string -> bool, k: Key, w: World, h: seq<Event>, e: Event)
    ensures Run(parses, k, w, h + [e]) == Next(parses, k, Run(parses, k, w, h), e)
    ensures Fetches(h + [e]) == Fetches(h) + if e.Fetch? then 1 else 0
    ensures forall sk :: Follows(parses, k, sk, w, h + [e]) <==>
              Follows(parses, k, sk, w, h) && Permits(k, sk, Run(parses, k, w, h), e)
  {
    assert (h + [e])[..|h|] == h;
  }

  /** Append the others' calls to the events. */
  lemma {:induction false} Absorb(parses: string -> bool, k: Key, sk: Key, w: World, events: seq<Event>,
                                  start: State, h0: History<Spec, Status>, h: History<Spec, Status>)
    returns (r: seq<Event>)
    requires Follows(parses, k, sk, w, events) && Run(parses, k, w, events).db == Replay(start, h0)
    requires OthersOnly(start, h0, h, (db, op) => OthersMay(k, sk, db, op))
    ensures Follows(parses, k, sk, w, r) && events <= r && Fetches(r) == Fetches(events)
    ensures Run(parses, k, w, r) == Run(parses, k, w, events).(db := Replay(start, h))
    decreases |h|
  {
    if |h| == |h0| {
      r := events;
      assert h == h0;
    } else {
      var before, last := h[..|h| - 1], h[|h| - 1];
      OthersOnlyShrink(start, h0, h, (db, op) => OthersMay(k, sk, db, op));
      r := Absorb(parses, k, sk, w, events, start, h0, before);
      NextRun(parses, k, w, r, Event.Other(last.op));
      r := r + [Event.Other(last.op)];
    }
  }
}
