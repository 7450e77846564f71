/** The Genesis reconciler, statement by statement, over the shared server. */
module GenesisController {
  import opened Prelude
  import opened ApiServer
  import opened GenesisProgram
  import opened GenesisSafety

  /** validateGenesisSpec: the loops stop at the first offence. */
  method ValidateGenesisSpec(s: Spec) returns (ok: bool)
    ensures ok <==> ValidSpec(s)
    ensures ok <==>
              && s.OfGenesis? && s.channelID != "" && s.secretName != "" && s.blockKey != ""
              && (s.ordererOrgs != [] || s.applicationOrgs != [])
              && (forall org :: org in s.ordererOrgs || org in s.applicationOrgs ==> org.name != "" && org.mspID != "")
              && forall c :: c in s.consenters ==> c.host != "" && c.port != 0 && c.mspID != ""
  {
    if !s.OfGenesis? { return false; }
    if s.channelID == "" { return false; }
    if |s.ordererOrgs| == 0 && |s.applicationOrgs| == 0 { return false; }
    if s.secretName == "" { return false; }
    if s.blockKey == "" { return false; }
    ok := ValidateOrgs(s.ordererOrgs);
    if !ok { return; }
    ok := ValidateOrgs(s.applicationOrgs);
    if !ok { return; }
    for i := 0 to |s.consenters|
      invariant forall c :: c in s.consenters[..i] ==> c.host != "" && c.port != 0 && c.mspID != ""
    {
      var c := s.consenters[i];
      if c.host == "" { return false; }
      if c.port == 0 { return false; }
      if c.mspID == "" { return false; }
    }
    assert s.consenters[..|s.consenters|] == s.consenters;
    return true;
  }

  method ValidateOrgs(orgs: seq<Org>) returns (ok: bool)
    ensures ok <==> forall org :: org in orgs ==> org.name != "" && org.mspID != ""
  {
    for i := 0 to |orgs|
      invariant forall org :: org in orgs[..i] ==> org.name != "" && org.mspID != ""
    {
      if orgs[i].name == "" { return false; }
      if orgs[i].mspID == "" { return false; }
    }
    assert orgs[..|orgs|] == orgs;
    return true;
  }

  /** The map of storeGenesisBlock, filled entry by entry. */
  method BuildSecretData(key: string, r: Result) returns (data: Data)
    ensures data == SecretData(key, r)
  {
    var genesisJSON := "{}";
    if r.json.Some? {
      genesisJSON := r.json.value;
    }
    data := map[key := r.block];
    data := data["genesis.json" := genesisJSON];
    if r.sharedProto.Some? {
      data := data["shared-config.pb" := r.sharedProto.value];
    }
    if r.sharedJson.Some? {
      data := data["shared-config.json" := r.sharedJson.value];
    }
  }

  class GenesisReconciler {
    const server: Server<Spec, Status>
    const k: Key
    const sk: Key
    ghost var pc: Pc
    /** The fetches so far, one for each reconcile. */
    ghost var rounds: seq<Key>
    ghost var events: seq<Event>
    /** Have all reads been current so far? */
    ghost var current: bool

    ghost function First(): World {
      World(server.start, Idle)
    }

    ghost predicate Valid()
      reads this, server
    {
      && server.Valid() && rounds == OwnGets(server.history, Genesis) && k.kind == Genesis
      && (forall db, op :: server.rely(db, op) ==> OthersMay(k, sk, db, op))
      && (current ==> Follows(k, sk, First(), events) && Run(k, First(), events) == World(server.db, pc))
    }

    constructor (server: Server<Spec, Status>, k: Key, sk: Key)
      requires server.Valid() && server.history == [] && k.kind == Genesis
      requires forall db, op :: server.rely(db, op) ==> OthersMay(k, sk, db, op)
      ensures Valid() && pc.Idle? && current && events == []
      ensures this.server == server && this.k == k && this.sk == sk
    {
      this.server, this.k, this.sk := server, k, sk;
      pc, rounds, events, current := Idle, [], [], true;
    }

    /** A call, with the others' calls before it put on record. */
    method Call(op: Call) returns (reply: Answer, ghost fault: Fault)
      requires Valid()
      modifies this, server
      ensures server.Valid() && rounds == OwnGets(server.history, Genesis)
      ensures pc == old(pc) && old(events) <= events && (current ==> !fault.Stale?)
      ensures rounds == old(rounds) + if op.Get? && op.key.kind == Genesis then [op.key] else []
      ensures current ==> old(current) && Follows(k, sk, First(), events)
      ensures current ==>
                var w := Run(k, First(), events);
                && w.pc == pc && server.db == Perform(w.db, w.db, op, fault).db
                && reply == Perform(w.db, w.db, op, fault).reply
    {
      ghost var h0 := server.history;
      ghost var before;
      reply, before, fault := server.Call(op);
      OthersWithin(server.start, h0, before, server.rely, (db, op) => OthersMay(k, sk, db, op));
      if current {
        events := Absorb(k, sk, First(), events, server.start, h0, before);
      }
      current := current && !fault.Stale?;
      rounds := rounds + if op.Get? && op.key.kind == Genesis then [op.key] else [];
      assert server.history[..|before|] == before;
    }

    /** One API call of the program. */
    method Do(op: Call) returns (reply: Answer)
      requires Valid() && !pc.Idle? && !pc.Generate? && op == NextOp(k, pc)
      modifies this, server
      ensures Valid() && old(events) <= events && pc == Resume(k, old(pc), reply)
      ensures rounds == old(rounds)
    {
      ghost var fault;
      reply, fault := Call(op);
      NextRun(k, First(), events, Step(fault));
      events := events + [Step(fault)];
      pc := Resume(k, pc, reply);
    }

    /** The fetch that starts a reconcile. */
    method FetchGenesis() returns (reply: Answer)
      requires Valid()
      modifies this, server
      ensures Valid() && old(events) <= events && pc == Begin(reply)
      ensures rounds == old(rounds) + [k]
    {
      ghost var fault;
      reply, fault := Call(Get(k));
      NextRun(k, First(), events, Fetch(fault));
      events := events + [Fetch(fault)];
      pc := Begin(reply);
    }

    /** Reconcile.  Every run of it keeps the hand-off, as long as reads are current. */
    method Reconcile()
      requires Valid() && pc.Idle?
      modifies this, server
      ensures Valid() && pc.Idle? && old(events) <= events
      ensures rounds == old(rounds) + [k]
      ensures current && Starts(k, sk, First()) ==>
                && k in server.db.objects
                && (Running(server.db, k) && (Reported(k, First(), events) || !Running(server.start, k)) ==>
                      HandedOver(sk, BlockKey(server.db.objects[k]), Generated(events), server.db))
    {
      ReconcileBody();
      if current && Starts(k, sk, First()) {
        AlwaysHandedOver(k, sk, First(), events);
      }
    }

    method ReconcileBody()
      requires Valid() && pc.Idle?
      modifies this, server
      ensures Valid() && pc.Idle? && old(events) <= events
      ensures rounds == old(rounds) + [k]
    {
      var fetched := FetchGenesis();
      if fetched.Err? { return; }
      var me := fetched.stored;
      if me.marked {
        HandleDeletion(me);
        return;
      }
      if me.status.status == "" {
        me := UpdateStatus(me, INITIALIZING);
      }
      if FINALIZER !in me.finalizers {
        var added := me.(finalizers := me.finalizers + [FINALIZER]);
        var reply := Do(Update(k, added));
        if reply.Err? {
          var _ := UpdateStatus(added, NO_FINALIZER);
          return;
        }
        me := reply.stored;
      }
      ReconcileGenesis(me);
    }

    /** reconcileGenesis */
    method ReconcileGenesis(me: Obj)
      requires Valid() && pc == AfterFinalizer(me)
      modifies this, server
      ensures Valid() && pc.Idle? && old(events) <= events
      ensures rounds == old(rounds)
    {
      var valid := ValidateGenesisSpec(me.spec);
      if !valid {
        var _ := UpdateStatus(me, NOT_VALID);
        return;
      }
      var result := CreateGenesisBlock();
      if result.None? || |result.value.block| == 0 {
        var _ := UpdateStatus(me, NO_BLOCK);
        return;
      }
      var ok := StoreGenesisBlock(me, result.value);
      var _ := UpdateStatus(me, if ok then STORED else NOT_STORED);
    }

    /** The genesis service is outside the model. */
    method CreateGenesisBlock() returns (result: Option<Result>)
      requires Valid() && pc.Generate?
      modifies `events, `pc
      ensures Valid() && old(events) <= events && pc == AfterService(old(pc), result)
    {
      result := *;
      NextRun(k, First(), events, Event.Service(result));
      events := events + [Event.Service(result)];
      pc := AfterService(pc, result);
    }

    /** storeGenesisBlock */
    method StoreGenesisBlock(me: Obj, r: Result) returns (ok: bool)
      requires Valid() && me.spec.OfGenesis? && pc == GetSecret(me, SecretData(me.spec.blockKey, r))
      modifies this, server
      ensures Valid() && old(events) <= events && pc == Report(me, if ok then STORED else NOT_STORED)
      ensures rounds == old(rounds)
    {
      var secretData := BuildSecretData(me.spec.blockKey, r);
      var key := Key(Secret, k.namespace, me.spec.secretName);
      var got := Do(Get(key));
      var reply: Answer;
      if got.Err? {
        if got.error != NotFound { return false; }
        reply := Do(Create(key, NewSecret(k, secretData)));
      } else {
        var existing := got.stored.(data := secretData);
        if existing.owner.Some? && existing.owner.value != k { return false; }
        reply := Do(Update(key, existing.(owner := Some(k))));
      }
      ok := reply.Ok?;
    }

    method HandleDeletion(me: Obj)
      requires Valid() && pc == DeleteStatus(me)
      modifies this, server
      ensures Valid() && pc.Idle? && old(events) <= events
      ensures rounds == old(rounds)
    {
      var me' := UpdateStatus(me, DELETING);
      me' := me'.(finalizers := RemoveString(me'.finalizers, FINALIZER));
      var reply := Do(Update(k, me'));
      if reply.Err? {
        var _ := UpdateStatus(me', NO_REMOVAL);
      }
    }

    /** updateGenesisStatus: the copy takes the status even if the write fails. */
    method UpdateStatus(me: Obj, status: Status) returns (me': Obj)
      requires Valid() && pc in {InitStatus(me), Report(me, status), DeleteStatus(me)}
      requires NextOp(k, pc) == StatusUpdate(k, me.(status := status))
      modifies this, server
      ensures Valid() && old(events) <= events
      ensures rounds == old(rounds)
      ensures old(pc).Report? ==> pc.Idle?
      ensures old(pc).InitStatus? ==> pc == AfterStatus(me')
      ensures old(pc).DeleteStatus? ==> pc == DropFinalizer(me')
    {
      me' := me.(status := status);
      var reply := Do(StatusUpdate(k, me'));
      if reply.Ok? {
        me' := reply.stored;
      }
    }
  }

  lemma NextRun(k: Key, w: World, h: seq<Event>, e: Event)
    ensures Run(k, w, h + [e]) == Next(k, Run(k, w, h), e)
    ensures forall sk :: Follows(k, sk, w, h + [e]) <==> Follows(k, sk, w, h) && Permits(k, sk, Run(k, w, h), e)
  {
    assert (h + [e])[..|h|] == h;
  }

  /** Append the others' calls to the events. */
  lemma {:induction false} Absorb(k: Key, sk: Key, w: World, events: seq<Event>,
                                  start: State, h0: History<Spec, Status>, h: History<Spec, Status>)
    returns (r: seq<Event>)
    requires Follows(k, sk, w, events) && Run(k, w, events).db == Replay(start, h0)
    requires OthersOnly(start, h0, h, (db, op) => OthersMay(k, sk, db, op))
    ensures Follows(k, sk, w, r) && events <= r
    ensures Run(k, w, r) == Run(k, w, events).(db := Replay(start, h))
    decreases |h|
  {
    if |h| == |h0| {
      r := events;
      assert h == h0;
    } else {
      var before, last := h[..|h| - 1], h[|h| - 1];
      OthersOnlyShrink(start, h0, h, (db, op) => OthersMay(k, sk, db, op));
      r := Absorb(k, sk, w, events, start, h0, before);
      NextRun(k, w, r, Others(last.op));
      r := r + [Others(last.op)];
    }
  }
}
