/** The Committer reconciler itself, statement by statement, over the shared
    server.  Its methods are proved to make exactly the calls of
    `CommitterProgram`, so everything proved about histories that follow the
    program holds of every run of this code. */
module CommitterController {
  import opened Prelude
  import opened ApiServer
  import opened CommitterSpecs
  import opened CommitterProgram
  import opened CommitterSafety

  class CommitterReconciler {
    const server: Server<Spec, Status>
    ghost var pc: Pc
    /** The fetches so far, one for each reconcile. */
    ghost var rounds: seq<Key>

    ghost predicate Valid()
      reads this, server
    {
      && server.Valid() && rounds == OwnGets(server.history, Committer)
      && (forall db, op :: server.rely(db, op) ==> OthersMay(db, op))
      && Follows(server.start, server.history)
      && pc == PcAfter(server.start, server.history)
    }

    constructor (server: Server<Spec, Status>)
      requires server.Valid() && server.history == []
      requires forall db, op :: server.rely(db, op) ==> OthersMay(db, op)
      ensures Valid() && pc.Idle? && this.server == server
    {
      this.server := server;
      pc, rounds := Idle, [];
    }

    /** One API call: the next one of the program. */
    method Do(op: Call) returns (reply: Answer)
      requires Valid() && Expects(pc, op)
      modifies this, server
      ensures Valid()
      ensures rounds == old(rounds) + if StartsReconcile(op) then [op.key] else []
      ensures pc == Resume(old(pc), op, reply)
    {
      ghost var h0 := server.history;
      ghost var before, fault;
      reply, before, fault := server.Call(op);
      OthersWithin(server.start, h0, before, server.rely, OthersMay);
      OthersKeepPc(server.start, h0, before);
      FollowsStep(server.start, before, Mine(op, fault));
      pc := Resume(pc, op, reply);
      rounds := rounds + if StartsReconcile(op) then [op.key] else [];
    }

    /** Reconcile.  Every run of it keeps the no-orphans promise, as long as its
        reads are dependable. */
    method Reconcile(c: Key)
      requires Valid() && pc.Idle? && c.kind == Committer
      modifies this, server
      ensures Valid() && pc.Idle?
      ensures rounds == old(rounds) + [c]
      ensures NoOrphans(server.start) && DependableReads(server.start, server.history) ==> NoOrphans(server.db)
    {
      var fetched := Do(Get(c));
      if fetched.Ok? {
        var me := fetched.stored;
        if me.marked {
          HandleDeletion(c, me);
        } else {
          if me.status.phase == Unset {
            me := UpdateStatus(c, me, INITIALIZING);
          }
          var ok: bool;
          ok, me := EnsureFinalizerOn(c, me);
          if !ok {
            var _ := UpdateStatus(c, me, NO_FINALIZER);
          } else {
            ok := ReconcileCommitter(c, me);
            if !ok && me.status.phase != Failed {
              var _ := UpdateStatus(c, me, NO_CHILDREN);
            }
          }
        }
      }
      if NoOrphans(server.start) && DependableReads(server.start, server.history) {
        NeverOrphans(server.start, server.history);
      }
    }

    /** updateCommitterStatus: the copy takes the status even if the write fails. */
    method UpdateStatus(c: Key, me: Obj, status: Status) returns (me': Obj)
      requires Valid() && !pc.Idle? && InRange(pc) && NextOp(pc) == StatusUpdate(c, me.(status := status))
      modifies this, server
      ensures Valid()
      ensures rounds == old(rounds)
      ensures old(pc).Report? ==> pc.Idle?
      ensures old(pc).InitStatus? ==> pc == AfterStatus(c, me')
      ensures old(pc).DeleteStatus? ==> pc == CleanGet(c, me', 0)
    {
      me' := me.(status := status);
      var reply := Do(StatusUpdate(c, me'));
      if reply.Ok? {
        me' := reply.stored;
      }
    }

    /** ensureFinalizer */
    method EnsureFinalizerOn(c: Key, me: Obj) returns (ok: bool, me': Obj)
      requires Valid() && c.kind == Committer && pc == AfterStatus(c, me)
      modifies this, server
      ensures Valid()
      ensures rounds == old(rounds)
      ensures pc == if ok then GetChild(c, me', 0) else Report(c, me', NO_FINALIZER)
    {
      ok, me' := true, me;
      if FINALIZER !in me.finalizers {
        me' := me.(finalizers := me.finalizers + [FINALIZER]);
        var reply := Do(Update(c, me'));
        ok := reply.Ok?;
        if ok {
          me' := reply.stored;
        }
      }
    }

    /** reconcileCommitter with reconcileChildCRDs */
    method ReconcileCommitter(c: Key, me: Obj) returns (ok: bool)
      requires Valid() && c.kind == Committer && pc == GetChild(c, me, 0)
      modifies this, server
      ensures Valid()
      ensures rounds == old(rounds)
      ensures pc == if ok then Idle else Abort(c, me)
    {
      ok := ReconcileCoordinatorCRD(c, me);
      if !ok { return; }
      ok := ReconcileSidecarCRD(c, me);
      if !ok { return; }
      ok := ReconcileValidatorCRD(c, me);
      if !ok { return; }
      ok := ReconcileVerifierCRD(c, me);
      if !ok { return; }
      ok := ReconcileQueryServiceCRD(c, me);
      if !ok { return; }
      var _ := UpdateStatus(c, me, RECONCILED);
    }

    method ReconcileCoordinatorCRD(c: Key, me: Obj) returns (ok: bool)
      requires Valid() && c.kind == Committer && pc == GetChild(c, me, 0)
      modifies this, server
      ensures Valid()
      ensures rounds == old(rounds)
      ensures pc == if ok then GetChild(c, me, 1) else Abort(c, me)
    {
      var spec := BuildCoordinatorSpec(SpecOf(me));
      ok := CreateOrUpdate(c, me, 0, Coordinator, spec);
    }

    method ReconcileSidecarCRD(c: Key, me: Obj) returns (ok: bool)
      requires Valid() && c.kind == Committer && pc == GetChild(c, me, 1)
      modifies this, server
      ensures Valid()
      ensures rounds == old(rounds)
      ensures pc == if ok then GetChild(c, me, 2) else Abort(c, me)
    {
      var spec := BuildSidecarSpec(SpecOf(me));
      ok := CreateOrUpdate(c, me, 1, Sidecar, spec);
    }

    method ReconcileValidatorCRD(c: Key, me: Obj) returns (ok: bool)
      requires Valid() && c.kind == Committer && pc == GetChild(c, me, 2)
      modifies this, server
      ensures Valid()
      ensures rounds == old(rounds)
      ensures pc == if ok then GetChild(c, me, 3) else Abort(c, me)
    {
      var spec := BuildValidatorSpec(SpecOf(me));
      ok := CreateOrUpdate(c, me, 2, Validator, spec);
    }

    method ReconcileVerifierCRD(c: Key, me: Obj) returns (ok: bool)
      requires Valid() && c.kind == Committer && pc == GetChild(c, me, 3)
      modifies this, server
      ensures Valid()
      ensures rounds == old(rounds)
      ensures pc == if ok then GetChild(c, me, 4) else Abort(c, me)
    {
      var spec := BuildVerifierSpec(SpecOf(me));
      ok := CreateOrUpdate(c, me, 3, Verifier, spec);
    }

    method ReconcileQueryServiceCRD(c: Key, me: Obj) returns (ok: bool)
      requires Valid() && c.kind == Committer && pc == GetChild(c, me, 4)
      modifies this, server
      ensures Valid()
      ensures rounds == old(rounds)
      ensures pc == if ok then Report(c, me, RECONCILED) else Abort(c, me)
    {
      var spec := BuildQueryServiceSpec(SpecOf(me));
      ok := CreateOrUpdate(c, me, 4, QueryService, spec);
    }

    /** The body the five share: create the child if it is not found, else
        overwrite its specification. */
    method CreateOrUpdate(c: Key, me: Obj, i: nat, role: Role, spec: ChildSpec) returns (ok: bool)
      requires Valid() && c.kind == Committer && i < |ROLES| && ROLES[i] == role && pc == GetChild(c, me, i)
      requires spec == Target(role, SpecOf(me))
      modifies this, server
      ensures Valid()
      ensures rounds == old(rounds)
      ensures pc == if ok then AfterChild(c, me, i) else Abort(c, me)
    {
      var key := ChildKey(c, role);
      var got := Do(Get(key));
      if got.Err? && got.error != NotFound {
        return false;
      }
      var reply: Answer;
      if got.Err? {
        reply := Do(Create(key, NewChild(OfChild(spec))));
      } else {
        reply := Do(Update(key, got.stored.(spec := OfChild(spec))));
      }
      ok := reply.Ok?;
    }

    method HandleDeletion(c: Key, me: Obj)
      requires Valid() && c.kind == Committer && pc == DeleteStatus(c, me)
      modifies this, server
      ensures Valid() && pc.Idle?
      ensures rounds == old(rounds)
    {
      var me' := UpdateStatus(c, me, DELETING);
      var ok := CleanupChildCRDs(c, me');
      if !ok {
        var _ := UpdateStatus(c, me', NO_CLEANUP);
        return;
      }
      me' := me'.(finalizers := RemoveString(me'.finalizers, FINALIZER));
      var reply := Do(Update(c, me'));
      if reply.Err? {
        var _ := UpdateStatus(c, me', NO_REMOVAL);
      }
    }

    method CleanupChildCRDs(c: Key, me: Obj) returns (ok: bool)
      requires Valid() && c.kind == Committer && pc == CleanGet(c, me, 0)
      modifies this, server
      ensures Valid()
      ensures rounds == old(rounds)
      ensures pc == if ok then DropFinalizer(c, me) else Report(c, me, NO_CLEANUP)
    {
      ok := CleanupChild(c, me, 0, Coordinator);
      if !ok { return; }
      ok := CleanupChild(c, me, 1, Sidecar);
      if !ok { return; }
      ok := CleanupChild(c, me, 2, Validator);
      if !ok { return; }
      ok := CleanupChild(c, me, 3, Verifier);
      if !ok { return; }
      ok := CleanupChild(c, me, 4, QueryService);
    }

    /** The body of the five cleanup functions. */
    method CleanupChild(c: Key, me: Obj, i: nat, role: Role) returns (ok: bool)
      requires Valid() && c.kind == Committer && i < |ROLES| && ROLES[i] == role && pc == CleanGet(c, me, i)
      modifies this, server
      ensures Valid()
      ensures rounds == old(rounds)
      ensures pc == if ok then AfterClean(c, me, i) else Report(c, me, NO_CLEANUP)
    {
      ok := true;
      var got := Do(Get(ChildKey(c, role)));
      if got.Ok? {
        var reply := Do(Delete(ChildKey(c, role)));
        ok := reply.Ok?;
      }
    }
  }
}
