/** Two-level teardown: a deleted Committer and its five children disappear under
    every schedule of undisturbed reconciles that runs each controller often enough. */
module CommitterTeardown {
  import opened Prelude
  import opened ApiServer
  import opened CommitterSpecs
  import opened CommitterProgram
  import opened CommitterSafety
  import opened CommitterPasses

  function ChildFinalizer(role: Role): string {
    match role
    case Coordinator => "committercoordinator.fabricx.kfsoft.tech/finalizer"
    case Sidecar => "committersidecar.fabricx.kfsoft.tech/finalizer"
    case Validator => "committervalidator.fabricx.kfsoft.tech/finalizer"
    case Verifier => "committerverifier.fabricx.kfsoft.tech/finalizer"
    case QueryService => "committerqueryservice.fabricx.kfsoft.tech/finalizer"
  }

  const CHILD_DELETING := Status(Pending, "Deleting CommitterSidecar resources")
  const CHILD_INITIALIZING := Status(Pending, "Initializing CommitterSidecar")

  function Set(db: State, k: Key, me: Obj, status: Status): State {
    Effect(db, StatusUpdate(k, me.(status := status))).db
  }

  /** One undisturbed reconcile of a child.  A marked child records the deletion
      and drops its finalizer.  A live one gets the finalizer and, after its own
      resources were brought up (`outcome`), a status. */
  function ChildPass(db: State, k: Key, finalizer: string, outcome: Status): State {
    if k !in db.objects then db
    else if db.objects[k].marked then
      var db1 := Set(db, k, db.objects[k], CHILD_DELETING);
      Drop(db1, k, finalizer)
    else
      var db1 := if db.objects[k].status.phase == Unset then Set(db, k, db.objects[k], CHILD_INITIALIZING) else db;
      var db2 := Ensure(db1, k, finalizer);
      if k in db2.objects then Set(db2, k, db2.objects[k], outcome) else db2
  }

  function Drop(db: State, k: Key, finalizer: string): State {
    if k !in db.objects then db
    else
      var me := db.objects[k];
      Effect(db, Update(k, me.(finalizers := RemoveString(me.finalizers, finalizer)))).db
  }

  function Ensure(db: State, k: Key, finalizer: string): State {
    if k !in db.objects || finalizer in db.objects[k].finalizers then db
    else
      var me := db.objects[k];
      Effect(db, Update(k, me.(finalizers := me.finalizers + [finalizer]))).db
  }

  datatype Actor = Parent | Child(role: Role, outcome: Status)

  function Act(db: State, c: Key, actor: Actor): State
    requires c.kind == Committer
  {
    match actor
    case Parent => Pass(db, c, {})
    case Child(role, outcome) => ChildPass(db, ChildKey(c, role), ChildFinalizer(role), outcome)
  }

  /** `states` are the stores before, between and after the reconciles of a schedule. */
  ghost predicate IsRun(states: seq<State>, c: Key, schedule: seq<Actor>)
    requires c.kind == Committer
  {
    && |states| == |schedule| + 1
    && forall j :: 0 <= j < |schedule| ==> Acts(states[j], c, schedule[j], states[j + 1])
  }

  predicate Acts(db: State, c: Key, actor: Actor, db': State)
    requires c.kind == Committer
  {
    db' == Act(db, c, actor)
  }

  /** Only the operator's own finalizers are on the six objects. */
  ghost predicate OwnFinalizers(db: State, c: Key) {
    && (c in db.objects ==> forall x :: x in db.objects[c].finalizers ==> x == FINALIZER)
    && forall role: Role :: ChildKey(c, role) in db.objects ==>
         forall x :: x in db.objects[ChildKey(c, role)].finalizers ==> x == ChildFinalizer(role)
  }

  /** The situation throughout a teardown: the Committer is marked, or gone and
      then without live children. */
  ghost predicate TearingDown(db: State, c: Key) {
    && WellFormed(db) && OwnFinalizers(db, c)
    && (if c in db.objects then db.objects[c].marked else forall role: Role :: !Live(db, ChildKey(c, role)))
  }

  /** A child's reconcile touches the child alone. */
  lemma ChildPassFrame(db: State, k: Key, finalizer: string, outcome: Status, other: Key)
    requires other != k
    ensures var db' := ChildPass(db, k, finalizer, outcome);
            && (other in db'.objects <==> other in db.objects)
            && (other in db.objects ==> db'.objects[other] == db.objects[other])
  {
  }

  /** A marked child with no foreign finalizer is gone after its reconcile; a
      live one stays live and gains at most its own finalizer; nothing appears. */
  lemma ChildPassExact(db: State, k: Key, finalizer: string, outcome: Status)
    requires WellFormed(db)
    requires k in db.objects ==> forall x :: x in db.objects[k].finalizers ==> x == finalizer
    ensures var db' := ChildPass(db, k, finalizer, outcome);
            && WellFormed(db')
            && (k in db'.objects <==> k in db.objects && !db.objects[k].marked)
            && (k in db'.objects ==>
                && !db'.objects[k].marked && db'.objects[k].status == outcome && finalizer in db'.objects[k].finalizers
                && forall x :: x in db'.objects[k].finalizers ==> x == finalizer)
  {
    if k in db.objects && db.objects[k].marked {
      var db1 := Set(db, k, db.objects[k], CHILD_DELETING);
      RemoveOnly(db1.objects[k].finalizers, finalizer);
    }
  }

  /** The children's side of the teardown situation. */
  ghost predicate Children(db: State, c: Key) {
    && WellFormed(db)
    && forall role: Role :: ChildKey(c, role) in db.objects ==>
         forall x :: x in db.objects[ChildKey(c, role)].finalizers ==> x == ChildFinalizer(role)
  }

  /** A call that neither creates nor updates a child adds no child and no
      finalizer to one. */
  lemma ChildrenKept(db: State, op: Call, c: Key)
    requires Children(db, c) && !op.Create? && !(op.Update? && IsChildKind(op.key.kind))
    ensures Children(Effect(db, op).db, c)
    ensures forall role: Role :: ChildKey(c, role) in Effect(db, op).db.objects ==> ChildKey(c, role) in db.objects
  {
    EffectKeepsWellFormed(db, op);
  }

  /** The deleting branch makes no other calls and stays in the branch. */
  lemma DeletingCalls(pc: Pc, reply: Answer)
    requires InRange(pc) && Deleting(pc) && !pc.Idle?
    ensures var op := NextOp(pc); !op.Create? && !(op.Update? && IsChildKind(op.key.kind))
    ensures InRange(Resume(pc, NextOp(pc), reply)) && Deleting(Resume(pc, NextOp(pc), reply))
  {
  }

  /** The deleting branch adds no child and no finalizer to a child. */
  lemma {:induction false} DeletingKeepsChildren(db: State, pc: Pc, c: Key, role: Role)
    requires InRange(pc) && Deleting(pc) && Children(db, c)
    ensures Children(Solo(db, pc, {}), c)
    ensures ChildKey(c, role) in Solo(db, pc, {}).objects ==> ChildKey(c, role) in db.objects
    decreases Rank(pc)
  {
    if !pc.Idle? {
      var out := Perform(db, db, NextOp(pc), SoloFault(pc, {}));
      ProgramNeverRestarts(pc);
      ResumeAdvances(pc, out.reply);
      DeletingCalls(pc, out.reply);
      ChildrenKept(db, NextOp(pc), c);
      DeletingKeepsChildren(out.db, Resume(pc, NextOp(pc), out.reply), c, role);
    }
  }

  /** The parent's reconcile: the Committer is gone, no child is live, none is new. */
  lemma ParentPassExact(db: State, c: Key, role: Role)
    requires c.kind == Committer && TearingDown(db, c) && c in db.objects
    ensures var db' := Pass(db, c, {});
            && TearingDown(db', c) && c !in db'.objects
            && !Live(db', ChildKey(c, role))
            && (ChildKey(c, role) in db'.objects ==> ChildKey(c, role) in db.objects)
  {
    var me := db.objects[c];
    var out := Effect(db, NextOp(DeleteStatus(c, me)));
    var me' := out.reply.stored;
    RemoveOnly(me'.finalizers, FINALIZER);
    assert Pass(db, c, {}) == Solo(out.db, CleanGet(c, me', 0), {});
    forall r: Role {
      CleanupExact(out.db, c, me', 0, {}, r);
    }
    assert Children(db, c);
    DeletingKeepsChildren(db, DeleteStatus(c, me), c, role);
  }

  lemma AbsentPassIdle(db: State, c: Key)
    requires c.kind == Committer && c !in db.objects
    ensures Pass(db, c, {}) == db
  {
  }

  function Weight(db: State, c: Key, role: Role): nat {
    var k := ChildKey(c, role);
    if k !in db.objects then 0 else if db.objects[k].marked then 1 else 2
  }

  /** Live children count twice, marked ones once, the Committer once. */
  function Measure(db: State, c: Key): nat {
    Weight(db, c, Coordinator) + Weight(db, c, Sidecar) + Weight(db, c, Validator) +
    Weight(db, c, Verifier) + Weight(db, c, QueryService) + if c in db.objects then 1 else 0
  }

  /** Has this actor something to tear down? */
  predicate Busy(db: State, c: Key, actor: Actor) {
    match actor
    case Parent => c in db.objects
    case Child(role, _) => ChildKey(c, role) in db.objects && db.objects[ChildKey(c, role)].marked
  }

  /** A child's act on itself. */
  lemma OwnAct(db: State, c: Key, role: Role, outcome: Status)
    requires c.kind == Committer && TearingDown(db, c)
    ensures var k, db' := ChildKey(c, role), Act(db, c, Child(role, outcome));
            && Weight(db', c, role) == (if Weight(db, c, role) == 1 then 0 else Weight(db, c, role))
            && (k in db'.objects ==> forall x :: x in db'.objects[k].finalizers ==> x == ChildFinalizer(role))
  {
    ChildPassExact(db, ChildKey(c, role), ChildFinalizer(role), outcome);
  }

  /** One child's reconcile, seen at any child. */
  lemma ChildActAt(db: State, c: Key, role: Role, outcome: Status, other: Role)
    requires c.kind == Committer && TearingDown(db, c)
    ensures var k, db' := ChildKey(c, other), Act(db, c, Child(role, outcome));
            && Weight(db', c, other) == (if other == role && Weight(db, c, role) == 1 then 0 else Weight(db, c, other))
            && (k in db'.objects ==> forall x :: x in db'.objects[k].finalizers ==> x == ChildFinalizer(other))
  {
    if other == role {
      OwnAct(db, c, role, outcome);
    } else {
      var k := ChildKey(c, role);
      if ChildKey(c, other) == k {
        ChildKeyInjective(c, other, c, role);
      }
      ChildPassFrame(db, k, ChildFinalizer(role), outcome, ChildKey(c, other));
    }
  }

  lemma ChildActKeeps(db: State, c: Key, role: Role, outcome: Status)
    requires c.kind == Committer && TearingDown(db, c)
    ensures var db' := Act(db, c, Child(role, outcome));
            TearingDown(db', c) && (c in db'.objects <==> c in db.objects)
  {
    var k, db' := ChildKey(c, role), Act(db, c, Child(role, outcome));
    ChildPassFrame(db, k, ChildFinalizer(role), outcome, c);
    ChildPassExact(db, k, ChildFinalizer(role), outcome);
    forall r: Role {
      ChildActAt(db, c, role, outcome, r);
    }
    if c !in db.objects {
      forall r: Role
        ensures !Live(db', ChildKey(c, r))
      {
        assert !Live(db, ChildKey(c, r)) && Weight(db, c, r) <= 1;
      }
    }
  }

  /** What one reconcile of any of the six controllers may do to the family. */
  ghost predicate Progress(db: State, c: Key, actor: Actor, db': State) {
    && TearingDown(db', c)
    && (c in db'.objects <==> c in db.objects && !actor.Parent?)
    && forall role: Role :: ProgressAt(db, c, actor, db', role)
  }

  ghost predicate ProgressAt(db: State, c: Key, actor: Actor, db': State, role: Role) {
    var w, w' := Weight(db, c, role), Weight(db', c, role);
    && w' <= w
    && (actor.Parent? ==> w' <= 1)
    && (!Busy(db, c, actor) ==> w' == w)
    && (actor.Child? && actor.role == role && w <= 1 ==> w' == 0)
  }

  lemma ActProgresses(db: State, c: Key, actor: Actor)
    requires c.kind == Committer && TearingDown(db, c)
    ensures Progress(db, c, actor, Act(db, c, actor))
  {
    forall role: Role
      ensures TearingDown(Act(db, c, actor), c)
      ensures c in Act(db, c, actor).objects <==> c in db.objects && !actor.Parent?
      ensures ProgressAt(db, c, actor, Act(db, c, actor), role)
    {
      match actor
      case Parent =>
        if c in db.objects {
          ParentPassExact(db, c, role);
        } else {
          AbsentPassIdle(db, c);
        }
      case Child(r, outcome) =>
        ChildActKeeps(db, c, r, outcome);
        ChildActAt(db, c, r, outcome, role);
    }
    assert ProgressAt(db, c, actor, Act(db, c, actor), Sidecar);
  }

  /** Every reconcile that has something to do strictly lowers the measure, and
      no reconcile raises it. */
  lemma TeardownProgress(db: State, c: Key, actor: Actor, db': State)
    requires c.kind == Committer && TearingDown(db, c) && db' == Act(db, c, actor)
    ensures TearingDown(db', c)
    ensures if Busy(db, c, actor) then Measure(db', c) < Measure(db, c) else Measure(db', c) == Measure(db, c)
  {
    ActProgresses(db, c, actor);
    MeasureDrops(db, c, actor, db');
  }

  lemma MeasureDrops(db: State, c: Key, actor: Actor, db': State)
    requires Progress(db, c, actor, db')
    ensures if Busy(db, c, actor) then Measure(db', c) < Measure(db, c) else Measure(db', c) == Measure(db, c)
  {
    assert ProgressAt(db, c, actor, db', Coordinator) && ProgressAt(db, c, actor, db', Sidecar);
    assert ProgressAt(db, c, actor, db', Validator) && ProgressAt(db, c, actor, db', Verifier);
    assert ProgressAt(db, c, actor, db', QueryService);
  }

  lemma ActsProgresses(db: State, c: Key, actor: Actor, db': State)
    requires c.kind == Committer && TearingDown(db, c) && Acts(db, c, actor, db')
    ensures TearingDown(db', c) && Progress(db, c, actor, db')
  {
    ActProgresses(db, c, actor);
  }

  /** A run of a teardown is a teardown throughout, and every reconcile progresses. */
  ghost predicate Stages(states: seq<State>, c: Key, schedule: seq<Actor>) {
    && |states| == |schedule| + 1
    && forall j :: 0 <= j < |schedule| ==> Progress(states[j], c, schedule[j], states[j + 1])
  }

  lemma {:induction false} RunProgresses(states: seq<State>, c: Key, schedule: seq<Actor>, n: nat)
    requires c.kind == Committer && IsRun(states, c, schedule) && TearingDown(states[0], c) && n <= |schedule|
    ensures TearingDown(states[n], c)
    ensures forall j :: 0 <= j < n ==> Progress(states[j], c, schedule[j], states[j + 1])
  {
    if n > 0 {
      RunProgresses(states, c, schedule, n - 1);
      ActsProgresses(states[n - 1], c, schedule[n - 1], states[n]);
    }
  }

  /** Once the parent ran, the Committer is gone and no child is live; once a
      child ran after it, that child is gone.  Nothing comes back. */
  lemma {:induction false} StageReached(states: seq<State>, c: Key, schedule: seq<Actor>, p: nat, n: nat, role: Role)
    requires Stages(states, c, schedule) && p < n <= |schedule| && schedule[p].Parent?
    ensures c !in states[n].objects && Weight(states[n], c, role) <= 1
    ensures (exists j :: p < j < n && schedule[j].Child? && schedule[j].role == role) ==>
              Weight(states[n], c, role) == 0
    decreases n
  {
    assert Progress(states[n - 1], c, schedule[n - 1], states[n]);
    assert ProgressAt(states[n - 1], c, schedule[n - 1], states[n], role);
    if p + 1 < n {
      StageReached(states, c, schedule, p, n - 1, role);
    }
  }

  /** Does the controller of `role` run after position `p`? */
  ghost predicate RunsAfter(schedule: seq<Actor>, p: nat, role: Role) {
    exists j :: p < j < |schedule| && schedule[j].Child? && schedule[j].role == role
  }

  /** Teardown under every fair schedule: if the Committer's controller runs once
      and every child's controller runs once after it, in any order and with any
      number of further reconciles anywhere, all six objects are gone. */
  lemma TeardownCompletes(states: seq<State>, c: Key, schedule: seq<Actor>, p: nat, final: State)
    requires c.kind == Committer && IsRun(states, c, schedule) && TearingDown(states[0], c)
    requires p < |schedule| && schedule[p].Parent?
    requires forall role: Role :: RunsAfter(schedule, p, role)
    requires final == states[|schedule|]
    ensures c !in final.objects && Measure(final, c) == 0
    ensures forall role: Role :: ChildKey(c, role) !in final.objects
  {
    RunProgresses(states, c, schedule, |schedule|);
    forall role: Role
      ensures c !in final.objects && Weight(final, c, role) == 0
    {
      assert RunsAfter(schedule, p, role);
      StageReached(states, c, schedule, p, |schedule|, role);
    }
    assert Weight(final, c, Coordinator) == 0;
  }
}
