/** No orphans: in every reachable state a child that is not being deleted has a
    Committer that still carries the finalizer. */
module CommitterSafety {
  import opened ApiServer
  import opened CommitterSpecs
  import opened CommitterProgram

  predicate Live(db: State, k: Key) {
    k in db.objects && !db.objects[k].marked
  }

  predicate Guarded(db: State, c: Key) {
    c in db.objects && FINALIZER in db.objects[c].finalizers
  }

  ghost predicate NoOrphans(db: State) {
    forall c: Key, role: Role :: c.kind == Committer && Live(db, ChildKey(c, role)) ==> Guarded(db, c)
  }

  /** The first `n` children are gone or marked. */
  ghost predicate Cleaned(db: State, c: Key, n: nat)
    requires n <= |ROLES|
  {
    forall j :: 0 <= j < n ==> !Live(db, ChildKey(c, ROLES[j]))
  }

  /** What the reconciler knows about the store at each suspension point. */
  ghost predicate Knows(db: State, pc: Pc) {
    && InRange(pc)
    && match pc
       case InitStatus(c, me) => FINALIZER in me.finalizers ==> Guarded(db, c)
       case GetChild(c, _, _) => Guarded(db, c)
       case PutChild(c, _, _, _) => Guarded(db, c)
       case CleanGet(c, _, i) => Cleaned(db, c, i)
       case CleanDelete(c, _, i) => Cleaned(db, c, i)
       case DropFinalizer(c, _) => Cleaned(db, c, |ROLES|)
       case _ => true
  }

  /** A call that cannot orphan anything: it creates a child only under a guarded
      Committer and drops the finalizer only of a Committer without live children. */
  ghost predicate Harmless(db: State, op: Call) {
    match op
    case Create(k, _) => forall c: Key, role: Role :: c.kind == Committer && k == ChildKey(c, role) ==> Guarded(db, c)
    case Update(k, o) =>
      k.kind == Committer && Guarded(db, k) && FINALIZER !in o.finalizers ==> Cleaned(db, k, |ROLES|)
    case _ => true
  }

  /** A call never revives a marked child and only Create adds one. */
  lemma LiveOnlyByCreate(db: State, op: Call, k: Key)
    ensures Live(Effect(db, op).db, k) && !Live(db, k) ==> op.Create? && op.key == k
  {
  }

  /** A Committer stays guarded unless its own Update removes the finalizer. */
  lemma GuardedStays(db: State, op: Call, c: Key)
    requires Guarded(db, c)
    requires op.Update? && op.key == c ==> FINALIZER in op.obj.finalizers
    ensures Guarded(Effect(db, op).db, c)
  {
  }

  lemma CleanedStays(db: State, op: Call, c: Key, n: nat)
    requires n <= |ROLES| && Cleaned(db, c, n)
    requires op.Create? ==> forall j :: 0 <= j < n ==> op.key != ChildKey(c, ROLES[j])
    ensures Cleaned(Effect(db, op).db, c, n)
  {
    forall j | 0 <= j < n
      ensures !Live(Effect(db, op).db, ChildKey(c, ROLES[j]))
    {
      LiveOnlyByCreate(db, op, ChildKey(c, ROLES[j]));
    }
  }

  lemma RoleListed(role: Role)
    ensures exists j :: 0 <= j < |ROLES| && ROLES[j] == role
  {
    assert ROLES[0] == Coordinator && ROLES[1] == Sidecar && ROLES[2] == Validator;
    assert ROLES[3] == Verifier && ROLES[4] == QueryService;
  }

  lemma HarmlessKeepsNoOrphans(db: State, op: Call)
    requires NoOrphans(db) && Harmless(db, op)
    ensures NoOrphans(Effect(db, op).db)
  {
    var db' := Effect(db, op).db;
    forall c: Key, role: Role | c.kind == Committer && Live(db', ChildKey(c, role))
      ensures Guarded(db', c)
    {
      LiveOnlyByCreate(db, op, ChildKey(c, role));
      assert Guarded(db, c);
      RoleListed(role);
      if op.Update? && op.key == c && FINALIZER !in op.obj.finalizers {
        assert false;
      }
      GuardedStays(db, op, c);
    }
  }

  /** The other actors leave the reconciler's knowledge true. */
  lemma OthersKeepKnowledge(db: State, pc: Pc, op: Call)
    requires NoOrphans(db) && Knows(db, pc) && OthersMay(db, op)
    ensures NoOrphans(Effect(db, op).db) && Knows(Effect(db, op).db, pc)
  {
    HarmlessKeepsNoOrphans(db, op);
    if !pc.Idle? && Guarded(db, pc.c) {
      GuardedStays(db, op, pc.c);
    }
    if pc.CleanGet? || pc.CleanDelete? {
      CleanedStays(db, op, pc.c, pc.i);
    } else if pc.DropFinalizer? {
      CleanedStays(db, op, pc.c, |ROLES|);
    }
  }

  /** What the reads must not get wrong: a fetch gives an unmarked copy with the
      finalizer only of a guarded Committer, and a read of the cleanup fails only
      if the child is not live.  How they fail otherwise, and how outdated they
      are, does not matter; nor do the reads of the children that are built. */
  predicate Dependable(db: State, pc: Pc, op: Call, reply: Answer) {
    && (StartsReconcile(op) && reply.Ok? && !reply.stored.marked && FINALIZER in reply.stored.finalizers ==>
          Guarded(db, op.key))
    && (pc.CleanGet? && !StartsReconcile(op) && reply.Err? ==> !Live(db, op.key))
  }

  ghost predicate DependableReads(start: State, h: Trace) {
    h == [] ||
    var before, last := h[..|h| - 1], h[|h| - 1];
    && DependableReads(start, before)
    && (last.Mine? ==>
          Dependable(Replay(start, before), PcAfter(start, before), last.op,
                     Answered(start, before, last.op, last.fault)))
  }

  /** In particular a fetch that is not outdated is dependable, and so is a read of
      the cleanup that is answered from the current state. */
  lemma CurrentIsDependable(db: State, past: State, pc: Pc, op: Call, f: Fault)
    requires Expects(pc, op) && (StartsReconcile(op) ==> !f.Stale?)
    requires pc.CleanGet? && !StartsReconcile(op) ==> f.Clear?
    ensures Dependable(db, pc, op, Perform(db, past, op, f).reply)
  {
  }

  /** Every call of the program is harmless where it is made. */
  lemma ProgramIsHarmless(db: State, pc: Pc, op: Call)
    requires NoOrphans(db) && Knows(db, pc) && Expects(pc, op)
    ensures Harmless(db, op)
  {
    if pc.PutChild? && op.Create? {
      forall c: Key, role: Role | c.kind == Committer && op.key == ChildKey(c, role)
        ensures Guarded(db, c)
      {
        ChildKeyInjective(pc.c, ROLES[pc.i], c, role);
      }
    }
  }

  /** The knowledge a fetch brings. */
  lemma FetchKnows(db: State, past: State, pc: Pc, op: Call, f: Fault)
    requires StartsReconcile(op) && Dependable(db, pc, op, Perform(db, past, op, f).reply)
    ensures Knows(db, Begin(op.key, Perform(db, past, op, f).reply))
  {
  }

  /** The knowledge at the next point after a call about the Committer itself... */
  lemma PreambleKnows(db: State, past: State, pc: Pc, f: Fault)
    requires Knows(db, pc) && (pc.InitStatus? || pc.EnsureFinalizer?)
    ensures var out := Perform(db, past, NextOp(pc), f);
            Knows(out.db, Resume(pc, NextOp(pc), out.reply))
  {
    if Guarded(db, pc.c) {
      GuardedStays(db, NextOp(pc), pc.c);
    }
  }

  /** ...after the look at a child that is built... */
  lemma ReadKnows(db: State, past: State, pc: Pc, f: Fault)
    requires Knows(db, pc) && pc.GetChild?
    ensures var out := Perform(db, past, NextOp(pc), f);
            Knows(out.db, Resume(pc, NextOp(pc), out.reply))
  {
  }

  /** ...after its write... */
  lemma WriteKnows(db: State, past: State, pc: Pc, f: Fault)
    requires Knows(db, pc) && pc.PutChild?
    ensures var out := Perform(db, past, NextOp(pc), f);
            Knows(out.db, Resume(pc, NextOp(pc), out.reply))
  {
    GuardedStays(db, NextOp(pc), pc.c);
  }

  /** ...after the look at a child that is cleaned up... */
  lemma LookKnows(db: State, past: State, pc: Pc, f: Fault)
    requires Knows(db, pc) && pc.CleanGet?
    requires Dependable(db, pc, NextOp(pc), Perform(db, past, NextOp(pc), f).reply)
    ensures var out := Perform(db, past, NextOp(pc), f);
            Knows(out.db, Resume(pc, NextOp(pc), out.reply))
  {
  }

  /** ...after its deletion... */
  lemma DeleteKnows(db: State, past: State, pc: Pc, f: Fault)
    requires Knows(db, pc) && pc.CleanDelete?
    ensures var out := Perform(db, past, NextOp(pc), f);
            Knows(out.db, Resume(pc, NextOp(pc), out.reply))
  {
    CleanedStays(db, NextOp(pc), pc.c, pc.i);
  }

  /** ...and at either end of a deletion. */
  lemma EndKnows(db: State, past: State, pc: Pc, f: Fault)
    requires Knows(db, pc) && (pc.DeleteStatus? || pc.DropFinalizer? || pc.Report?)
    ensures var out := Perform(db, past, NextOp(pc), f);
            Knows(out.db, Resume(pc, NextOp(pc), out.reply))
  {
  }

  /** One call of the program re-establishes its knowledge at the next point. */
  lemma ProgramKeepsKnowledge(db: State, past: State, pc: Pc, op: Call, f: Fault)
    requires NoOrphans(db) && Knows(db, pc) && Expects(pc, op)
    requires Dependable(db, pc, op, Perform(db, past, op, f).reply)
    ensures var out := Perform(db, past, op, f);
            NoOrphans(out.db) && Knows(out.db, Resume(pc, op, out.reply))
  {
    ProgramIsHarmless(db, pc, op);
    HarmlessKeepsNoOrphans(db, op);
    if StartsReconcile(op) {
      FetchKnows(db, past, pc, op, f);
    } else if pc.InitStatus? || pc.EnsureFinalizer? {
      PreambleKnows(db, past, pc, f);
    } else if pc.GetChild? {
      ReadKnows(db, past, pc, f);
    } else if pc.PutChild? {
      WriteKnows(db, past, pc, f);
    } else if pc.CleanGet? {
      LookKnows(db, past, pc, f);
    } else if pc.CleanDelete? {
      DeleteKnows(db, past, pc, f);
    } else {
      EndKnows(db, past, pc, f);
    }
  }

  /** Safety over whole runs: however calls fail, whatever the others do between
      any two of them, and wherever the operator restarts. */
  lemma {:induction false} NeverOrphans(start: State, h: Trace)
    requires NoOrphans(start) && Follows(start, h) && DependableReads(start, h)
    ensures NoOrphans(Replay(start, h)) && Knows(Replay(start, h), PcAfter(start, h))
    decreases |h|
  {
    if h != [] {
      var before := h[..|h| - 1];
      NeverOrphans(start, before);
      var db, pc := Replay(start, before), PcAfter(start, before);
      match h[|h| - 1]
      case Other(op) => OthersKeepKnowledge(db, pc, op);
      case Mine(op, f) => ProgramKeepsKnowledge(db, Past(start, before, f), pc, op, f);
    }
  }

  /** The finalizer goes last: a call after which `c` is no longer guarded leaves
      all five children gone or marked. */
  lemma FinalizerGoesLast(start: State, h: Trace, e: Entry<Spec, Status>, c: Key)
    requires NoOrphans(start) && Follows(start, h + [e]) && DependableReads(start, h + [e])
    requires c.kind == Committer
    requires Guarded(Replay(start, h), c) && !Guarded(Replay(start, h + [e]), c)
    ensures Cleaned(Replay(start, h + [e]), c, |ROLES|)
  {
    NeverOrphans(start, h + [e]);
  }

  predicate Deleting(pc: Pc) {
    || pc.DeleteStatus? || pc.CleanGet? || pc.CleanDelete? || pc.DropFinalizer?
    || (pc.Report? && pc.status in {NO_CLEANUP, NO_REMOVAL})
    || pc.Idle?
  }

  /** A reconcile that found its Committer marked never creates or updates a
      child, up to the next fetch. */
  lemma {:induction false} DeletionNeverBuilds(start: State, h0: Trace, h: Trace, j: nat)
    requires h0 <= h && Follows(start, h) && Deleting(PcAfter(start, h0))
    requires forall i :: |h0| <= i < |h| && h[i].Mine? ==> !StartsReconcile(h[i].op)
    ensures Deleting(PcAfter(start, h))
    ensures |h0| <= j < |h| && h[j].Mine? ==> !h[j].op.Create? && !(h[j].op.Update? && IsChildKind(h[j].op.key.kind))
    decreases |h|
  {
    if |h| > |h0| {
      var before := h[..|h| - 1];
      DeletionNeverBuilds(start, h0, before, j);
      assert Permits(start, before, h[|h| - 1]);
    } else {
      assert h == h0;
    }
  }
}
