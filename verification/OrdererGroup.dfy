/** The OrdererGroup reconciler, statement by statement, over the shared server. */
module OrdererGroupController {
  import opened Prelude
  import opened ApiServer
  import opened OrdererSpecs
  import opened OrdererNames
  import opened OrdererGroupProgram
  import opened OrdererGroupSafety
  import opened OrdererChildren

  /** Nobody else writes orderer children. */
  ghost predicate HandsOff(rely: (State, Call) -> bool) {
    forall db, op :: rely(db, op) ==> op.Get? || !IsChildKind(op.key.kind)
  }

  ghost predicate NoneMarked(db: State) {
    forall k :: k in db.objects && IsChildKind(k.kind) ==> !db.objects[k].marked
  }

  ghost predicate SameAt(db: State, db': State, k: Key) {
    (k in db'.objects <==> k in db.objects) && (k in db.objects ==> db'.objects[k] == db.objects[k])
  }

  /** `db'` has the children of `db`, of any group, except perhaps at `at`. */
  ghost predicate SameChildren(db: State, db': State, at: Key) {
    forall k: Key :: IsChildKind(k.kind) && k != at ==> SameAt(db, db', k)
  }

  predicate OnTarget(db: State, c: Key, g: GroupSpec, slot: Slot)
    requires Configured(g, slot)
  {
    SlotKey(c, slot) in db.objects && db.objects[SlotKey(c, slot)].spec == OfChild(Wanted(g, slot))
  }

  lemma {:induction false} HandsOffKeeps(start: State, h0: Trace, h: Trace, rely: (State, Call) -> bool, k: Key)
    requires HandsOff(rely) && OthersOnly(start, h0, h, rely) && IsChildKind(k.kind)
    ensures SameAt(Replay(start, h0), Replay(start, h), k)
    decreases |h|
  {
    if |h| > |h0| {
      OthersOnlyShrink(start, h0, h, rely);
      HandsOffKeeps(start, h0, h[..|h| - 1], rely, k);
    } else {
      assert h == h0;
    }
  }

  /** What a call that does not delete may do to the children. */
  ghost predicate AtChild(db: State, db': State, op: Call, reply: Answer) {
    && NoneMarked(db') && SameChildren(db, db', op.key)
    && (IsChildKind(op.key.kind) ==>
         && (op.Get? ==> SameAt(db, db', op.key))
         && (reply.Ok? && (op.Create? || op.Update?) ==>
               op.key in db'.objects && db'.objects[op.key].spec == op.obj.spec))
  }

  lemma CallAtChild(db: State, past: State, op: Call, f: Fault)
    requires NoneMarked(db) && !op.Delete?
    ensures var out := Perform(db, past, op, f); AtChild(db, out.db, op, out.reply)
  {
  }

  lemma CalmCall(start: State, h0: Trace, before: Trace, rely: (State, Call) -> bool, op: Call, f: Fault)
    requires HandsOff(rely) && OthersOnly(start, h0, before, rely) && NoneMarked(Replay(start, h0)) && !op.Delete?
    ensures var out := Perform(Replay(start, before), Past(start, before, f), op, f);
            AtChild(Replay(start, h0), out.db, op, out.reply)
  {
    var db0, db := Replay(start, h0), Replay(start, before);
    forall k: Key | IsChildKind(k.kind)
      ensures SameAt(db0, db, k)
    {
      HandsOffKeeps(start, h0, before, rely, k);
    }
    CallAtChild(db, Past(start, before, f), op, f);
    SameThen(db0, db, Perform(db, Past(start, before, f), op, f).db, op.key);
  }

  lemma SameThen(db: State, db1: State, db2: State, at: Key)
    requires SameChildren(db, db1, at) && SameChildren(db1, db2, at)
    ensures SameChildren(db, db2, at)
  {
    forall k: Key | IsChildKind(k.kind) && k != at
      ensures SameAt(db, db2, k)
    {
      assert SameAt(db, db1, k) && SameAt(db1, db2, k);
    }
  }

  /** Every call of this controller from `from` on is about a batcher of `c` below `n`. */
  ghost predicate OnlyBatchers(h: Trace, from: nat, c: Key, n: nat) {
    forall j :: from <= j < |h| && h[j].Mine? ==> exists i: nat :: i < n && h[j].op.key == SlotKey(c, Batcher(i))
  }

  ghost predicate OnlyAbout(h: Trace, from: nat, k: Key) {
    forall j :: from <= j < |h| && h[j].Mine? ==> h[j].op.key == k
  }

  /** Writing one child changes no other one; a success brings it to target. */
  ghost predicate ChildPut(db: State, db': State, c: Key, g: GroupSpec, slot: Slot, ok: bool)
    requires Configured(g, slot)
  {
    && NoneMarked(db') && SameChildren(db, db', SlotKey(c, slot))
    && (ok ==> OnTarget(db', c, g, slot))
  }

  /** Reading a child and then writing it. */
  lemma ReadThenWrite(db: State, db1: State, db2: State, c: Key, g: GroupSpec, slot: Slot, got: Answer, put: Call,
                      ok: bool)
    requires Configured(g, slot) && put.key == SlotKey(c, slot) && (put.Create? || put.Update?)
    requires put.obj.spec == OfChild(Wanted(g, slot))
    requires AtChild(db, db1, Get(put.key), got)
    requires exists reply: Answer :: ok == reply.Ok? && AtChild(db1, db2, put, reply)
    ensures ChildPut(db, db2, c, g, slot, ok)
  {
    SameThen(db, db1, db2, put.key);
  }

  lemma AboutTwice(h0: Trace, h1: Trace, h2: Trace, k: Key)
    requires h0 <= h1 <= h2 && OnlyAbout(h1, |h0|, k) && OnlyAbout(h2, |h1|, k)
    ensures OnlyAbout(h2, |h0|, k)
  {
    assert forall j :: 0 <= j < |h1| ==> h2[j] == h1[j];
  }

  lemma BatcherPosition(g: GroupSpec, i: nat)
    requires Managed(g) && i <= |g.batchers|
    ensures |Slots(g)| == |Singles(g)| + |g.batchers|
    ensures i < |g.batchers| ==> Slots(g)[|Singles(g)| + i] == Batcher(i)
  {
  }

  lemma AfterLastBatcher(c: Key, me: Obj)
    requires Managed(SpecOf(me))
    ensures var g := SpecOf(me); AfterChildren(c, me, |Singles(g)| + |g.batchers|) == Settle(c, me, RECONCILED)
  {
    BatcherPosition(SpecOf(me), |SpecOf(me).batchers|);
  }

  predicate AmongFirst(c: Key, k: Key, n: nat) {
    exists i: nat :: i < n && k == SlotKey(c, Batcher(i))
  }

  /** The first `done` batchers have their wanted specification, and every other
      batcher but the first `touched`, of this or any other group, is as it was. */
  ghost predicate BatchersDone(db: State, db': State, c: Key, g: GroupSpec, done: nat, touched: nat)
    requires done <= |g.batchers|
  {
    FirstOnTarget(db', c, g, done) && BeyondSame(db, db', c, touched)
  }

  ghost predicate FirstOnTarget(db: State, c: Key, g: GroupSpec, done: nat)
    requires done <= |g.batchers|
  {
    forall i: nat :: i < done ==> OnTarget(db, c, g, Batcher(i))
  }

  lemma FirstAssembled(db: State, c: Key, g: GroupSpec, done: nat)
    requires done <= |g.batchers| && FirstOnTarget(db, c, g, done)
    ensures forall i: nat :: i < done ==> Assembled(db, c, g, Batcher(i))
  {
    forall i: nat | i < done
      ensures Assembled(db, c, g, Batcher(i))
    {
      assert OnTarget(db, c, g, Batcher(i));
      WantedAssembled(db, c, g, Batcher(i));
    }
  }

  ghost predicate BeyondSame(db: State, db': State, c: Key, touched: nat) {
    forall k: Key :: IsChildKind(k.kind) && !AmongFirst(c, k, touched) ==> SameAt(db, db', k)
  }

  /** Where the loop over the batchers stands; `calm` says nobody else writes them. */
  ghost predicate LoopState(h: Trace, h': Trace, db: State, db': State, c: Key, g: GroupSpec, done: nat, touched: nat,
                            calm: bool)
    requires done <= |g.batchers|
  {
    && h <= h' && OnlyBatchers(h', |h|, c, |g.batchers|)
    && (calm ==> NoneMarked(db') && BatchersDone(db, db', c, g, done, touched))
  }

  predicate Managed(g: GroupSpec) {
    g.manageChildCRDs != Some(false)
  }

  /** The position of a single child: how many configured ones come before it. */
  function Before(g: GroupSpec, slot: Slot): nat {
    (if slot != Consenter && g.consenter.Some? then 1 else 0) +
    (if slot in {Router} || slot.Batcher? then if g.assembler.Some? then 1 else 0 else 0) +
    if slot.Batcher? && g.router.Some? then 1 else 0
  }

  /** One kind's step of the children loop: others' children stay, this one is on
      target if the step succeeds and it is configured. */
  ghost predicate SingleStep(db: State, db': State, c: Key, g: GroupSpec, slot: Slot, ok: bool) {
    && NoneMarked(db') && SameChildren(db, db', SlotKey(c, slot))
    && (ok && Configured(g, slot) ==> OnTarget(db', c, g, slot))
  }

  ghost predicate InFamily(c: Key, k: Key) {
    exists slot: Slot :: k == SlotKey(c, slot)
  }

  ghost predicate ForeignSame(db: State, db': State, c: Key) {
    forall k: Key :: IsChildKind(k.kind) && !InFamily(c, k) ==> SameAt(db, db', k)
  }

  lemma StepIsForeignSame(db: State, db1: State, db2: State, c: Key, g: GroupSpec, slot: Slot, ok: bool)
    requires ForeignSame(db, db1, c) && SingleStep(db1, db2, c, g, slot, ok)
    ensures ForeignSame(db, db2, c)
  {
    forall k: Key | IsChildKind(k.kind) && !InFamily(c, k)
      ensures SameAt(db, db2, k)
    {
      assert k != SlotKey(c, slot) && SameAt(db, db1, k) && SameAt(db1, db2, k);
    }
  }

  /** A later step leaves an earlier single child on target. */
  lemma SingleStays(db1: State, db2: State, c: Key, g: GroupSpec, slot: Slot, later: Slot, ok: bool)
    requires c.kind == OrdererGroup && slot != later && SingleStep(db1, db2, c, g, later, ok)
    requires Configured(g, slot) ==> OnTarget(db1, c, g, slot)
    ensures Configured(g, slot) ==> OnTarget(db2, c, g, slot)
  {
    if SlotKey(c, slot) == SlotKey(c, later) {
      SlotKeyInjective(c, slot, c, later);
    }
    assert SameAt(db1, db2, SlotKey(c, slot));
  }

  /** So does the loop over the batchers. */
  lemma SingleOutlastsLoop(db1: State, db2: State, c: Key, g: GroupSpec, slot: Slot, done: nat, touched: nat)
    requires c.kind == OrdererGroup && !slot.Batcher?
    requires done <= |g.batchers| && BatchersDone(db1, db2, c, g, done, touched)
    requires Configured(g, slot) ==> OnTarget(db1, c, g, slot)
    ensures Configured(g, slot) ==> OnTarget(db2, c, g, slot)
  {
    if AmongFirst(c, SlotKey(c, slot), touched) {
      var i: nat :| i < touched && SlotKey(c, slot) == SlotKey(c, Batcher(i));
      SlotKeyInjective(c, slot, c, Batcher(i));
    }
    assert SameAt(db1, db2, SlotKey(c, slot));
  }

  lemma LoopIsForeignSame(db: State, db1: State, db2: State, c: Key, g: GroupSpec, done: nat, touched: nat)
    requires ForeignSame(db, db1, c) && done <= |g.batchers| && BatchersDone(db1, db2, c, g, done, touched)
    ensures ForeignSame(db, db2, c)
  {
    forall k: Key | IsChildKind(k.kind) && !InFamily(c, k)
      ensures SameAt(db, db2, k)
    {
      assert !AmongFirst(c, k, touched) && SameAt(db, db1, k) && SameAt(db1, db2, k);
    }
  }

  /** Every configured child is built from its own entry. */
  ghost predicate AllAssembled(db: State, c: Key, g: GroupSpec) {
    forall slot: Slot :: Configured(g, slot) ==> Assembled(db, c, g, slot)
  }

  /** What the children's part of a reconcile does, if none of them is being deleted:
      nothing to other children, and if it gets through every configured one is made
      of its own entry. */
  ghost predicate ChildrenMade(db: State, db': State, c: Key, g: GroupSpec, ok: bool) {
    NoneMarked(db) ==> ForeignSame(db, db', c) && (ok && Managed(g) ==> AllAssembled(db', c, g))
  }

  ghost predicate SinglesReady(db: State, c: Key, g: GroupSpec) {
    forall slot: Slot :: !slot.Batcher? && Configured(g, slot) ==> OnTarget(db, c, g, slot)
  }

  /** The three steps in a row, as far as they went. */
  lemma ThreeSteps(db0: State, db1: State, db2: State, db3: State, c: Key, g: GroupSpec, ok: bool)
    requires c.kind == OrdererGroup && SingleStep(db0, db1, c, g, Consenter, true)
    requires SingleStep(db1, db2, c, g, Assembler, true) && SingleStep(db2, db3, c, g, Router, ok)
    ensures NoneMarked(db3) && ForeignSame(db0, db3, c) && (ok ==> SinglesReady(db3, c, g))
  {
    StepIsForeignSame(db0, db0, db1, c, g, Consenter, true);
    StepIsForeignSame(db0, db1, db2, c, g, Assembler, true);
    StepIsForeignSame(db0, db2, db3, c, g, Router, ok);
    SingleStays(db1, db2, c, g, Consenter, Assembler, true);
    SingleStays(db2, db3, c, g, Consenter, Router, ok);
    SingleStays(db2, db3, c, g, Assembler, Router, ok);
  }

  lemma TwoSteps(db0: State, db1: State, db2: State, c: Key, g: GroupSpec, ok: bool)
    requires SingleStep(db0, db1, c, g, Consenter, true) && SingleStep(db1, db2, c, g, Assembler, ok)
    ensures NoneMarked(db2) && ForeignSame(db0, db2, c)
  {
    StepIsForeignSame(db0, db0, db1, c, g, Consenter, true);
    StepIsForeignSame(db0, db1, db2, c, g, Assembler, ok);
  }

  /** ...and then the loop. */
  lemma LoopCompletes(db0: State, db1: State, db2: State, c: Key, g: GroupSpec, done: nat, ok: bool)
    requires c.kind == OrdererGroup && ForeignSame(db0, db1, c) && SinglesReady(db1, c, g)
    requires done <= |g.batchers| && (ok <==> done == |g.batchers|)
    requires BatchersDone(db1, db2, c, g, done, if ok then done else done + 1)
    ensures ForeignSame(db0, db2, c) && (ok ==> AllAssembled(db2, c, g))
  {
    LoopIsForeignSame(db0, db1, db2, c, g, done, if ok then done else done + 1);
    if ok {
      SingleOutlastsLoop(db1, db2, c, g, Consenter, done, done);
      SingleOutlastsLoop(db1, db2, c, g, Assembler, done, done);
      SingleOutlastsLoop(db1, db2, c, g, Router, done, done);
      OnTargetAssembled(db2, c, g);
    }
  }

  lemma OnTargetAssembled(db: State, c: Key, g: GroupSpec)
    requires SinglesReady(db, c, g)
    requires FirstOnTarget(db, c, g, |g.batchers|)
    ensures AllAssembled(db, c, g)
  {
    forall slot: Slot | Configured(g, slot)
      ensures Assembled(db, c, g, slot)
    {
      if slot.Batcher? {
        assert OnTarget(db, c, g, Batcher(slot.index));
      }
      WantedAssembled(db, c, g, slot);
    }
  }

  lemma SinglesEnd(g: GroupSpec)
    requires Managed(g)
    ensures |Singles(g)| == Before(g, Batcher(0))
  {
  }

  /** Where the loop stands at a single child that is configured. */
  lemma AtSingle(c: Key, me: Obj, slot: Slot)
    requires Managed(SpecOf(me)) && !slot.Batcher? && Configured(SpecOf(me), slot)
    ensures var g := SpecOf(me); var p := Before(g, slot);
            && p < |Singles(g)| <= |Slots(g)| && Slots(g)[p] == slot
            && AfterChildren(c, me, p) == GetChild(c, me, p) && AfterClean(c, me, p) == CleanDelete(c, me, p)
  {
  }

  class OrdererGroupReconciler {
    const server: Server<Spec, Status>
    ghost var pc: Pc
    /** The fetches so far, one for each reconcile. */
    ghost var rounds: seq<Key>

    ghost predicate Valid()
      reads this, server
    {
      && server.Valid() && rounds == OwnGets(server.history, OrdererGroup)
      && Follows(server.start, server.history, server.rely)
      && pc == PcAfter(server.start, server.history)
      && InRange(pc)
    }

    constructor (server: Server<Spec, Status>)
      requires server.Valid() && server.history == []
      ensures Valid() && pc.Idle? && this.server == server
    {
      this.server := server;
      pc, rounds := Idle, [];
    }

    /** One API call: the next one of the program.  If nobody else writes
        batchers, it changes at most the one it is about. */
    method Do(op: Call) returns (reply: Answer)
      requires Valid() && Expects(pc, op)
      modifies this, server
      ensures Valid() && old(server.history) <= server.history
      ensures rounds == old(rounds) + if StartsReconcile(op) then [op.key] else []
      ensures pc == Resume(old(pc), op, reply)
      ensures OnlyAbout(server.history, |old(server.history)|, op.key)
      ensures HandsOff(server.rely) && NoneMarked(old(server.db)) && !op.Delete? ==>
                AtChild(old(server.db), server.db, op, reply)
    {
      ghost var h0 := server.history;
      ghost var before, fault;
      reply, before, fault := server.Call(op);
      OthersKeepPc(server.start, h0, before, server.rely);
      FollowsStep(server.start, before, Mine(op, fault), server.rely);
      ResumeInRange(pc, op, reply);
      pc := Resume(pc, op, reply);
      rounds := rounds + if StartsReconcile(op) then [op.key] else [];
      assert server.history[..|before|] == before;
      assert OnlyAbout(server.history, |h0|, op.key);
      if HandsOff(server.rely) && NoneMarked(old(server.db)) && !op.Delete? {
        CalmCall(server.start, h0, before, server.rely, op, fault);
      }
    }

    /** Reconcile.  Every run of it keeps the batchers of every group a prefix, as
        long as nothing is deleted. */
    method Reconcile(c: Key)
      requires Valid() && pc.Idle? && c.kind == OrdererGroup
      modifies this, server
      ensures Valid() && pc.Idle?
      ensures rounds == old(rounds) + [c]
      ensures Starts(server.start) && (forall db, op :: server.rely(db, op) ==> NoDeletes(db, op)) ==>
                exists m: nat :: m <= MaxSpecified(server.start, server.history, c) && Prefix(server.db, c, m)
    {
      ReconcileBody(c);
      if Starts(server.start) && forall db, op :: server.rely(db, op) ==> NoDeletes(db, op) {
        FollowsWider(server.start, server.history, server.rely, NoDeletes);
        var _, m := BatchersFormPrefix(server.start, server.history, server.history, c);
      }
    }

    method ReconcileBody(c: Key)
      requires Valid() && pc.Idle? && c.kind == OrdererGroup
      modifies this, server
      ensures Valid() && pc.Idle?
      ensures rounds == old(rounds) + [c]
    {
      var fetched := Do(Get(c));
      if fetched.Err? { return; }
      var me := fetched.stored;
      if me.marked {
        HandleDeletion(c, me);
        return;
      }
      if me.status.phase == Unset {
        me := UpdateStatus(c, me, INITIALIZING);
      }
      ReconcileInitialized(c, me);
    }

    /** The part of Reconcile after the first status: finalizer, children, report. */
    method ReconcileInitialized(c: Key, me: Obj)
      requires Valid() && c.kind == OrdererGroup && pc == AfterStatus(c, me)
      modifies this, server
      ensures Valid() && pc.Idle?
      ensures rounds == old(rounds)
    {
      var ok, me := EnsureFinalizerOn(c, me);
      if !ok {
        var _ := UpdateStatus(c, me, NO_FINALIZER);
        return;
      }
      ok := ReconcileChildCRDs(c, me);
      var _ := UpdateStatus(c, me, if ok then RECONCILED else NO_CHILDREN);
    }

    /** updateOrdererGroupStatus: nothing is written if nothing changes; the copy
        takes the status even if the write fails. */
    method UpdateStatus(c: Key, me: Obj, status: Status) returns (me': Obj)
      requires Valid() && c.kind == OrdererGroup
      requires if me.status == status then pc.Idle? || (me.marked && pc == AfterClean(c, me, 0))
               else pc in {Report(c, me, status), InitStatus(c, me), DeleteStatus(c, me)}
                    && NextOp(pc) == StatusUpdate(c, me.(status := status))
      modifies this, server
      ensures Valid()
      ensures rounds == old(rounds)
      ensures me.status == status ==> me' == me && pc == old(pc) && server.history == old(server.history)
      ensures old(pc).Report? ==> pc.Idle?
      ensures old(pc).InitStatus? ==> pc == AfterStatus(c, me')
      ensures old(pc).DeleteStatus? ==> pc == AfterClean(c, me', 0)
    {
      me' := me;
      if me.status != status {
        me' := me.(status := status);
        var reply := Do(StatusUpdate(c, me'));
        if reply.Ok? {
          me' := reply.stored;
        }
      }
    }

    /** ensureFinalizer */
    method EnsureFinalizerOn(c: Key, me: Obj) returns (ok: bool, me': Obj)
      requires Valid() && c.kind == OrdererGroup && pc == AfterStatus(c, me)
      modifies this, server
      ensures Valid()
      ensures rounds == old(rounds)
      ensures pc == if ok then AfterChildren(c, me', 0) else Settle(c, me', NO_FINALIZER)
    {
      ok, me' := true, me;
      if FINALIZER !in me.finalizers {
        me' := me.(finalizers := me.finalizers + [FINALIZER]);
        var reply := Do(Update(c, me'));
        ok := reply.Ok?;
        if ok {
          me' := reply.stored;
        }
      }
    }

    /** reconcileOrdererGroup up to its status, with reconcileChildCRDs; each
        kind's nil check is at the head of its method.  A success leaves every
        configured child built from its own entry, and nothing touches the children
        of other groups, or any of a group that does not manage its own. */
    method ReconcileChildCRDs(c: Key, me: Obj) returns (ok: bool)
      requires Valid() && c.kind == OrdererGroup && pc == AfterChildren(c, me, 0)
      modifies this, server
      ensures Valid()
      ensures rounds == old(rounds)
      ensures pc == Settle(c, me, if ok then RECONCILED else NO_CHILDREN)
      ensures !Managed(SpecOf(me)) ==> ok && server.history == old(server.history) && server.db == old(server.db)
      ensures HandsOff(server.rely) ==> ChildrenMade(old(server.db), server.db, c, SpecOf(me), ok)
    {
      if SpecOf(me).manageChildCRDs == Some(false) { return true; }
      ghost var calm := HandsOff(server.rely) && NoneMarked(server.db);
      ghost var db0, g := server.db, SpecOf(me);
      ok := ReconcileSingles(c, me);
      ghost var db1 := server.db;
      if !ok { return; }
      var done: nat;
      ok, done := ReconcileBatcherCRDs(c, me);
      if calm {
        LoopCompletes(db0, db1, server.db, c, g, done, ok);
      }
    }

    /** The three kinds there is one of. */
    method ReconcileSingles(c: Key, me: Obj) returns (ok: bool)
      requires Valid() && c.kind == OrdererGroup && Managed(SpecOf(me)) && pc == AfterChildren(c, me, 0)
      modifies this, server
      ensures Valid() && old(server.history) <= server.history
      ensures rounds == old(rounds)
      ensures pc == if ok then AfterChildren(c, me, |Singles(SpecOf(me))|) else Settle(c, me, NO_CHILDREN)
      ensures HandsOff(server.rely) && NoneMarked(old(server.db)) ==>
                && NoneMarked(server.db) && ForeignSame(old(server.db), server.db, c)
                && (ok ==> SinglesReady(server.db, c, SpecOf(me)))
    {
      ghost var calm := HandsOff(server.rely) && NoneMarked(server.db);
      ghost var db0, g := server.db, SpecOf(me);
      ok := ReconcileConsenterCRDs(c, me);
      ghost var db1 := server.db;
      if !ok {
        if calm { StepIsForeignSame(db0, db0, db1, c, g, Consenter, ok); }
        return;
      }
      ok := ReconcileAssemblerCRD(c, me);
      ghost var db2 := server.db;
      if !ok {
        if calm { TwoSteps(db0, db1, db2, c, g, ok); }
        return;
      }
      ok := ReconcileRouterCRD(c, me);
      if calm { ThreeSteps(db0, db1, db2, server.db, c, g, ok); }
    }

    method ReconcileConsenterCRDs(c: Key, me: Obj) returns (ok: bool)
      requires Valid() && c.kind == OrdererGroup && Managed(SpecOf(me))
      requires pc == AfterChildren(c, me, 0)
      modifies this, server
      ensures Valid() && old(server.history) <= server.history
      ensures rounds == old(rounds)
      ensures pc == if ok then AfterChildren(c, me, Before(SpecOf(me), Assembler)) else Settle(c, me, NO_CHILDREN)
      ensures HandsOff(server.rely) && NoneMarked(old(server.db)) ==>
                SingleStep(old(server.db), server.db, c, SpecOf(me), Consenter, ok)
    {
      var g := SpecOf(me);
      ok := true;
      if g.consenter.Some? {
        AtSingle(c, me, Consenter);
        var spec := BuildConsenterSpecFromInstance(g, g.consenter.value);
        ok := CreateOrUpdate(c, me, 0, Consenter, ForConsenter(spec));
      }
    }

    method ReconcileAssemblerCRD(c: Key, me: Obj) returns (ok: bool)
      requires Valid() && c.kind == OrdererGroup && Managed(SpecOf(me))
      requires pc == AfterChildren(c, me, Before(SpecOf(me), Assembler))
      modifies this, server
      ensures Valid() && old(server.history) <= server.history
      ensures rounds == old(rounds)
      ensures pc == if ok then AfterChildren(c, me, Before(SpecOf(me), Router)) else Settle(c, me, NO_CHILDREN)
      ensures HandsOff(server.rely) && NoneMarked(old(server.db)) ==>
                SingleStep(old(server.db), server.db, c, SpecOf(me), Assembler, ok)
    {
      var g := SpecOf(me);
      ok := true;
      if g.assembler.Some? {
        AtSingle(c, me, Assembler);
        var spec := BuildAssemblerSpec(g, g.assembler.value);
        ok := CreateOrUpdate(c, me, Before(g, Assembler), Assembler, ForAssembler(spec));
      }
    }

    method ReconcileRouterCRD(c: Key, me: Obj) returns (ok: bool)
      requires Valid() && c.kind == OrdererGroup && Managed(SpecOf(me))
      requires pc == AfterChildren(c, me, Before(SpecOf(me), Router))
      modifies this, server
      ensures Valid() && old(server.history) <= server.history
      ensures rounds == old(rounds)
      ensures pc == if ok then AfterChildren(c, me, |Singles(SpecOf(me))|) else Settle(c, me, NO_CHILDREN)
      ensures HandsOff(server.rely) && NoneMarked(old(server.db)) ==>
                SingleStep(old(server.db), server.db, c, SpecOf(me), Router, ok)
    {
      var g := SpecOf(me);
      ok := true;
      SinglesEnd(g);
      if g.router.Some? {
        AtSingle(c, me, Router);
        var spec := BuildRouterSpec(g, g.router.value);
        ok := CreateOrUpdate(c, me, Before(g, Router), Router, ForRouter(spec));
      }
    }

    /** The body shared by the three single children: any error of the read counts
        as "not there". */
    method CreateOrUpdate(c: Key, me: Obj, p: nat, slot: Slot, spec: OrdererSpec) returns (ok: bool)
      requires Valid() && c.kind == OrdererGroup && p < |Slots(SpecOf(me))| && Slots(SpecOf(me))[p] == slot
      requires pc == GetChild(c, me, p)
      requires Configured(SpecOf(me), slot) && spec == Wanted(SpecOf(me), slot)
      modifies this, server
      ensures Valid() && old(server.history) <= server.history
      ensures rounds == old(rounds)
      ensures pc == if ok then AfterChildren(c, me, p + 1) else Settle(c, me, NO_CHILDREN)
      ensures OnlyAbout(server.history, |old(server.history)|, SlotKey(c, slot))
      ensures HandsOff(server.rely) && NoneMarked(old(server.db)) ==>
                ChildPut(old(server.db), server.db, c, SpecOf(me), slot, ok)
    {
      var key := SlotKey(c, slot);
      var got := Do(Get(key));
      ghost var h1, db1 := server.history, server.db;
      var found := if got.Ok? then Some(got.stored) else None;
      ghost var put;
      ok, put := WriteChild(c, me, p, slot, spec, found);
      AboutTwice(old(server.history), h1, server.history, key);
      if HandsOff(server.rely) && NoneMarked(old(server.db)) {
        ReadThenWrite(old(server.db), db1, server.db, c, SpecOf(me), slot, got, put, ok);
      }
    }

    /** Update what was found, else create. */
    method WriteChild(c: Key, me: Obj, p: nat, slot: Slot, spec: OrdererSpec, found: Option<Obj>)
      returns (ok: bool, ghost put: Call)
      requires Valid() && c.kind == OrdererGroup && p < |Slots(SpecOf(me))| && Slots(SpecOf(me))[p] == slot
      requires pc == PutChild(c, me, p, found)
      requires Configured(SpecOf(me), slot) && spec == Wanted(SpecOf(me), slot)
      modifies this, server
      ensures Valid() && old(server.history) <= server.history
      ensures rounds == old(rounds)
      ensures pc == if ok then AfterChildren(c, me, p + 1) else Settle(c, me, NO_CHILDREN)
      ensures OnlyAbout(server.history, |old(server.history)|, SlotKey(c, slot))
      ensures put.key == SlotKey(c, slot) && (put.Create? || put.Update?) && put.obj.spec == OfChild(spec)
      ensures HandsOff(server.rely) && NoneMarked(old(server.db)) ==>
                exists reply: Answer :: ok == reply.Ok? && AtChild(old(server.db), server.db, put, reply)
    {
      var key := SlotKey(c, slot);
      var op := if found.Some? then Update(key, found.value.(spec := OfChild(spec)))
                else Create(key, NewChild(c, OfChild(spec)));
      put := op;
      var reply := Do(op);
      ok := reply.Ok?;
    }

    /** The loop over the batchers: what it leaves behind is `BatchersDone`. */
    method ReconcileBatcherCRDs(c: Key, me: Obj) returns (ok: bool, done: nat)
      requires Valid() && c.kind == OrdererGroup && Managed(SpecOf(me))
      requires pc == AfterChildren(c, me, |Singles(SpecOf(me))|)
      modifies this, server
      ensures Valid() && old(server.history) <= server.history
      ensures rounds == old(rounds)
      ensures pc == Settle(c, me, if ok then RECONCILED else NO_CHILDREN)
      ensures done <= |SpecOf(me).batchers| && (ok <==> done == |SpecOf(me).batchers|)
      ensures LoopState(old(server.history), server.history, old(server.db), server.db, c, SpecOf(me), done,
                        if ok then done else done + 1, HandsOff(server.rely) && NoneMarked(old(server.db)))
      ensures HandsOff(server.rely) && NoneMarked(old(server.db)) ==>
                forall i: nat :: i < done ==> Assembled(server.db, c, SpecOf(me), Batcher(i))
    {
      var g := SpecOf(me);
      ghost var calm := HandsOff(server.rely) && NoneMarked(server.db);
      ghost var h, db := server.history, server.db;
      var i := 0;
      while i < |g.batchers|
        invariant i <= |g.batchers| && Valid() && rounds == old(rounds)
        invariant pc == AfterChildren(c, me, |Singles(g)| + i)
        invariant LoopState(h, server.history, db, server.db, c, g, i, i, calm)
        invariant calm ==> forall j: nat :: j < i ==> Assembled(server.db, c, g, Batcher(j))
      {
        ghost var h0, db0 := server.history, server.db;
        ok := ReconcileBatcher(c, me, i);
        LoopAdvances(h, h0, server.history, db, db0, server.db, c, g, i, ok, calm);
        if calm { FirstAssembled(server.db, c, g, if ok then i + 1 else i); }
        if !ok { return false, i; }
        i := i + 1;
      }
      AfterLastBatcher(c, me);
      return true, i;
    }

    /** The body of the loop. */
    method ReconcileBatcher(c: Key, me: Obj, i: nat) returns (ok: bool)
      requires Valid() && c.kind == OrdererGroup && Managed(SpecOf(me)) && i < |SpecOf(me).batchers|
      requires pc == AfterChildren(c, me, |Singles(SpecOf(me))| + i)
      modifies this, server
      ensures Valid() && old(server.history) <= server.history
      ensures rounds == old(rounds)
      ensures pc == if ok then AfterChildren(c, me, |Singles(SpecOf(me))| + i + 1) else Settle(c, me, NO_CHILDREN)
      ensures OnlyAbout(server.history, |old(server.history)|, SlotKey(c, Batcher(i)))
      ensures HandsOff(server.rely) && NoneMarked(old(server.db)) ==>
                ChildPut(old(server.db), server.db, c, SpecOf(me), Batcher(i), ok)
    {
      var g := SpecOf(me);
      BatcherPosition(g, i);
      var spec := BuildBatcherSpec(g, g.batchers[i]);
      ok := CreateOrUpdate(c, me, |Singles(g)| + i, Batcher(i), ForBatcher(spec));
    }

    method HandleDeletion(c: Key, me: Obj)
      requires Valid() && c.kind == OrdererGroup && me.marked
      requires pc == if me.status == DELETING then AfterClean(c, me, 0) else DeleteStatus(c, me)
      modifies this, server
      ensures Valid() && pc.Idle?
      ensures rounds == old(rounds)
    {
      var me' := UpdateStatus(c, me, DELETING);
      CleanupChildCRDs(c, me');
      RemoveFinalizerFrom(c, me');
    }

    /** removeFinalizer, with the report of its failure */
    method RemoveFinalizerFrom(c: Key, me: Obj)
      requires Valid() && c.kind == OrdererGroup && pc == DropFinalizer(c, me)
      modifies this, server
      ensures Valid() && pc.Idle?
      ensures rounds == old(rounds)
    {
      var me' := me.(finalizers := RemoveString(me.finalizers, FINALIZER));
      var reply := Do(Update(c, me'));
      if reply.Err? {
        var _ := UpdateStatus(c, me', NO_REMOVAL);
      }
    }

    /** cleanupChildCRDs: errors are only logged. */
    method CleanupChildCRDs(c: Key, me: Obj)
      requires Valid() && c.kind == OrdererGroup && pc == AfterClean(c, me, 0)
      modifies this, server
      ensures Valid() && pc == DropFinalizer(c, me)
      ensures rounds == old(rounds)
    {
      if SpecOf(me).manageChildCRDs == Some(false) { return; }
      CleanupSingle(c, me, Consenter, Assembler);
      CleanupSingle(c, me, Assembler, Router);
      CleanupSingle(c, me, Router, Batcher(0));
      CleanupBatcherCRDs(c, me);
    }

    /** cleanupConsenterCRDs, cleanupAssemblerCRD and cleanupRouterCRD, each with
        its nil check; `next` is the kind that follows. */
    method CleanupSingle(c: Key, me: Obj, slot: Slot, next: Slot)
      requires Valid() && c.kind == OrdererGroup && Managed(SpecOf(me))
      requires (slot, next) in {(Consenter, Assembler), (Assembler, Router), (Router, Batcher(0))}
      requires pc == AfterClean(c, me, Before(SpecOf(me), slot))
      modifies this, server
      ensures Valid()
      ensures rounds == old(rounds)
      ensures pc == AfterClean(c, me, Before(SpecOf(me), next))
    {
      if Configured(SpecOf(me), slot) {
        AtSingle(c, me, slot);
        var _ := Do(Delete(SlotKey(c, slot)));
      }
    }

    /** The loop over the batchers ends at the first error. */
    method CleanupBatcherCRDs(c: Key, me: Obj)
      requires Valid() && c.kind == OrdererGroup && Managed(SpecOf(me))
      requires pc == AfterClean(c, me, Before(SpecOf(me), Batcher(0)))
      modifies this, server
      ensures Valid() && pc == DropFinalizer(c, me)
      ensures rounds == old(rounds)
    {
      var g := SpecOf(me);
      SinglesEnd(g);
      for i := 0 to |g.batchers|
        invariant Valid() && rounds == old(rounds)
        invariant pc == AfterClean(c, me, |Singles(g)| + i)
      {
        var ok := CleanupBatcher(c, me, i);
        if !ok { return; }
      }
      BatcherPosition(g, |g.batchers|);
    }

    /** The body of the loop. */
    method CleanupBatcher(c: Key, me: Obj, i: nat) returns (ok: bool)
      requires Valid() && c.kind == OrdererGroup && Managed(SpecOf(me)) && i < |SpecOf(me).batchers|
      requires pc == AfterClean(c, me, |Singles(SpecOf(me))| + i)
      modifies this, server
      ensures Valid()
      ensures rounds == old(rounds)
      ensures pc == if ok then AfterClean(c, me, |Singles(SpecOf(me))| + i + 1) else DropFinalizer(c, me)
    {
      BatcherPosition(SpecOf(me), i);
      var reply := Do(Delete(SlotKey(c, Batcher(i))));
      ok := reply.Ok?;
    }
  }

  lemma BatchersExtend(h: Trace, h0: Trace, h1: Trace, c: Key, n: nat, i: nat)
    requires h <= h0 <= h1 && i < n && OnlyBatchers(h0, |h|, c, n)
    requires OnlyAbout(h1, |h0|, SlotKey(c, Batcher(i)))
    ensures OnlyBatchers(h1, |h|, c, n)
  {
    forall j | |h| <= j < |h1| && h1[j].Mine?
      ensures exists i: nat :: i < n && h1[j].op.key == SlotKey(c, Batcher(i))
    {
      if j < |h0| {
        assert h1[j] == h0[j];
      }
    }
  }

  /** Writing batcher `i` leaves the earlier ones on target... */
  lemma EarlierStayOnTarget(db1: State, db2: State, c: Key, g: GroupSpec, i: nat)
    requires c.kind == OrdererGroup && i < |g.batchers| && SameChildren(db1, db2, SlotKey(c, Batcher(i)))
    requires FirstOnTarget(db1, c, g, i)
    ensures FirstOnTarget(db2, c, g, i) && (OnTarget(db2, c, g, Batcher(i)) ==> FirstOnTarget(db2, c, g, i + 1))
  {
    forall j: nat | j < i
      ensures OnTarget(db2, c, g, Batcher(j))
    {
      DistinctBatchers(c, j, i);
      assert OnTarget(db1, c, g, Batcher(j)) && SameAt(db1, db2, SlotKey(c, Batcher(j)));
    }
  }

  /** ...and everything beyond as it was. */
  lemma OthersStaySame(db: State, db1: State, db2: State, c: Key, i: nat)
    requires BeyondSame(db, db1, c, i) && SameChildren(db1, db2, SlotKey(c, Batcher(i)))
    ensures BeyondSame(db, db2, c, i + 1)
  {
    forall k: Key | IsChildKind(k.kind) && !AmongFirst(c, k, i + 1)
      ensures SameAt(db, db2, k)
    {
      assert !AmongFirst(c, k, i) && k != SlotKey(c, Batcher(i));
      assert SameAt(db, db1, k) && SameAt(db1, db2, k);
    }
  }

  /** Writing batcher `i` after the first `i` of them. */
  lemma OneMoreDone(db: State, db1: State, db2: State, c: Key, g: GroupSpec, i: nat, ok: bool)
    requires c.kind == OrdererGroup && i < |g.batchers| && BatchersDone(db, db1, c, g, i, i)
    requires ChildPut(db1, db2, c, g, Batcher(i), ok)
    ensures BatchersDone(db, db2, c, g, if ok then i + 1 else i, i + 1)
  {
    EarlierStayOnTarget(db1, db2, c, g, i);
    OthersStaySame(db, db1, db2, c, i);
  }

  /** One round of the loop over the batchers. */
  lemma LoopAdvances(h: Trace, h0: Trace, h1: Trace, db: State, db0: State, db1: State, c: Key, g: GroupSpec, i: nat,
                     ok: bool, calm: bool)
    requires c.kind == OrdererGroup && i < |g.batchers| && h <= h0 <= h1
    requires LoopState(h, h0, db, db0, c, g, i, i, calm) && OnlyAbout(h1, |h0|, SlotKey(c, Batcher(i)))
    requires calm ==> ChildPut(db0, db1, c, g, Batcher(i), ok)
    ensures LoopState(h, h1, db, db1, c, g, if ok then i + 1 else i, i + 1, calm)
  {
    BatchersExtend(h, h0, h1, c, |g.batchers|, i);
    if calm {
      OneMoreDone(db, db0, db1, c, g, i, ok);
    }
  }

  lemma DistinctBatchers(c: Key, j: nat, i: nat)
    requires c.kind == OrdererGroup && j != i
    ensures SlotKey(c, Batcher(j)) != SlotKey(c, Batcher(i))
  {
    if SlotKey(c, Batcher(j)) == SlotKey(c, Batcher(i)) {
      SlotKeyInjective(c, Batcher(j), c, Batcher(i));
    }
  }

  lemma {:induction false} FollowsWider(start: State, h: Trace, rely: (State, Call) -> bool,
                                        wider: (State, Call) -> bool)
    requires Follows(start, h, rely) && forall db, op :: rely(db, op) ==> wider(db, op)
    ensures Follows(start, h, wider)
    decreases |h|
  {
    if h != [] {
      FollowsWider(start, h[..|h| - 1], rely, wider);
    }
  }
}
