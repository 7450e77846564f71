/** Undisturbed reconciles of an OrdererGroup: it quiesces after one pass, and a
    deletion pass leaves exactly the children it does not reach.  The only
    failures considered are refused deletions of the slots in `refused`. */
module OrdererGroupPasses {
  import opened Prelude
  import opened ApiServer
  import opened OrdererSpecs
  import opened OrdererNames
  import opened OrdererGroupProgram
  import opened OrdererGroupSafety

  function Stage(pc: Pc): nat {
    match pc
    case Idle => 0
    case Report(_, _, _) => 1
    case DropFinalizer(_, _) => 2
    case EnsureFinalizer(_, _) => 4
    case InitStatus(_, _) => 5
    case DeleteStatus(_, _) => 5
    case _ => 3
  }

  function Remaining(pc: Pc): nat
    requires InRange(pc)
  {
    match pc
    case GetChild(_, me, p) => 2 * (|Slots(SpecOf(me))| - p)
    case PutChild(_, me, p, _) => 2 * (|Slots(SpecOf(me))| - p) - 1
    case CleanDelete(_, me, p) => |Slots(SpecOf(me))| - p
    case _ => 0
  }

  /** Every call brings the reconcile closer to its end, whatever the answer. */
  lemma ResumeAdvances(pc: Pc, reply: Answer)
    requires InRange(pc) && !pc.Idle?
    ensures var pc' := Resume(pc, NextOp(pc), reply);
            InRange(pc') && (Stage(pc') < Stage(pc) || (Stage(pc') == Stage(pc) && Remaining(pc') < Remaining(pc)))
  {
    ResumeInRange(pc, NextOp(pc), reply);
    if pc.CleanDelete? {
      assert !StartsReconcile(NextOp(pc));
    } else if pc.GetChild? || pc.PutChild? {
      assert !StartsReconcile(NextOp(pc));
    }
  }

  function SoloFault(pc: Pc, refused: set<Slot>): Fault
    requires InRange(pc)
  {
    if pc.CleanDelete? && SlotAt(pc) in refused then Refused else Clear
  }

  /** The status and finalizer writes to the group itself. */
  datatype Tally = Tally(status: nat, finalizer: nat)

  function Counted(pc: Pc, rest: Tally): Tally {
    if pc.InitStatus? || pc.Report? || pc.DeleteStatus? then rest.(status := rest.status + 1)
    else if pc.EnsureFinalizer? || pc.DropFinalizer? then rest.(finalizer := rest.finalizer + 1)
    else rest
  }

  datatype Ending = Ending(db: State, writes: Tally)

  function Solo(db: State, pc: Pc, refused: set<Slot>): Ending
    requires InRange(pc)
    decreases Stage(pc), Remaining(pc)
  {
    if pc.Idle? then Ending(db, Tally(0, 0))
    else
      var out := Perform(db, db, NextOp(pc), SoloFault(pc, refused));
      ResumeAdvances(pc, out.reply);
      var rest := Solo(out.db, Resume(pc, NextOp(pc), out.reply), refused);
      Ending(rest.db, Counted(pc, rest.writes))
  }

  function Pass(db: State, c: Key, refused: set<Slot>): Ending
    requires c.kind == OrdererGroup
  {
    Solo(db, Begin(c, Effect(db, Get(c)).reply), refused)
  }

  /** One step of an undisturbed run. */
  lemma SoloStep(db: State, pc: Pc, refused: set<Slot>, out: Outcome<Spec, Status>, pc': Pc)
    requires InRange(pc) && !pc.Idle?
    requires out == Perform(db, db, NextOp(pc), SoloFault(pc, refused)) && pc' == Resume(pc, NextOp(pc), out.reply)
    ensures InRange(pc')
    ensures Solo(db, pc, refused).db == Solo(out.db, pc', refused).db
    ensures Solo(db, pc, refused).writes == Counted(pc, Solo(out.db, pc', refused).writes)
  {
    ResumeAdvances(pc, out.reply);
  }

  /** Writing a child succeeds and leaves the group alone. */
  lemma ChildWriteSucceeds(db: State, op: Call, c: Key)
    requires WellFormed(db) && op.key != c && c in db.objects
    requires op.Create? || op.Update?
    requires op.Create? ==> op.key !in db.objects
    requires op.Update? ==> op.key in db.objects && op.obj.version == db.objects[op.key].version
    ensures var out := Effect(db, op);
            WellFormed(out.db) && out.reply.Ok? && c in out.db.objects && out.db.objects[c] == db.objects[c]
  {
    EffectKeepsWellFormed(db, op);
  }

  /** One child of the loop. */
  lemma ReadLeads(db: State, c: Key, me: Obj, p: nat) returns (found: Option<Obj>)
    requires c.kind == OrdererGroup && p < |Slots(SpecOf(me))|
    ensures Solo(db, GetChild(c, me, p), {}) == Solo(db, PutChild(c, me, p, found), {})
    ensures var k := SlotKey(c, Slots(SpecOf(me))[p]);
            if k in db.objects then found == Some(db.objects[k]) else found == None
  {
    var pc := GetChild(c, me, p);
    var got := Effect(db, NextOp(pc));
    assert !StartsReconcile(NextOp(pc)) && got.db == db;
    found := if got.reply.Ok? then Some(got.reply.stored) else None;
    SoloStep(db, pc, {}, got, PutChild(c, me, p, found));
  }

  lemma ChildSettles(db: State, c: Key, me: Obj, p: nat) returns (db': State)
    requires WellFormed(db) && c.kind == OrdererGroup && c in db.objects && p < |Slots(SpecOf(me))|
    ensures WellFormed(db') && c in db'.objects && db'.objects[c] == db.objects[c]
    ensures InRange(AfterChildren(c, me, p + 1))
    ensures Solo(db, GetChild(c, me, p), {}) == Solo(db', AfterChildren(c, me, p + 1), {})
  {
    var found := ReadLeads(db, c, me, p);
    var pc := PutChild(c, me, p, found);
    var out := Effect(db, NextOp(pc));
    ChildWriteSucceeds(db, NextOp(pc), c);
    SoloStep(db, pc, {}, out, AfterChildren(c, me, p + 1));
    db' := out.db;
  }

  /** The group as `me` had it, with the report of success and the write that took. */
  ghost predicate Reported(end: Ending, c: Key, me: Obj) {
    && WellFormed(end.db) && c in end.db.objects
    && end.db.objects[c].(version := me.version) == me.(status := RECONCILED)
    && (me.status == RECONCILED ==> end.db.objects[c] == me)
    && end.writes == Tally(if me.status == RECONCILED then 0 else 1, 0)
  }

  /** The report of success is written unless it is there already. */
  lemma ReportSettles(db: State, c: Key, me: Obj)
    requires WellFormed(db) && c.kind == OrdererGroup && c in db.objects && db.objects[c] == me && !me.marked
    ensures Reported(Solo(db, Settle(c, me, RECONCILED), {}), c, me)
  {
    if me.status != RECONCILED {
      var pc := Report(c, me, RECONCILED);
      var out := Effect(db, NextOp(pc));
      EffectKeepsWellFormed(db, NextOp(pc));
      SoloStep(db, pc, {}, out, Idle);
    }
  }

  /** The children loop leaves the group alone; then the status settles. */
  lemma {:induction false} ChildrenSettle(db: State, c: Key, me: Obj, p: nat)
    requires WellFormed(db) && c.kind == OrdererGroup && c in db.objects && db.objects[c] == me && !me.marked
    requires p <= |Slots(SpecOf(me))|
    ensures Reported(Solo(db, AfterChildren(c, me, p), {}), c, me)
    decreases |Slots(SpecOf(me))| - p
  {
    if p < |Slots(SpecOf(me))| {
      assert AfterChildren(c, me, p) == GetChild(c, me, p);
      var db' := ChildSettles(db, c, me, p);
      ChildrenSettle(db', c, me, p + 1);
    } else {
      assert AfterChildren(c, me, p) == Settle(c, me, RECONCILED);
      ReportSettles(db, c, me);
    }
  }

  lemma FinalizerSettles(db: State, c: Key, me: Obj)
    requires WellFormed(db) && c.kind == OrdererGroup && c in db.objects && db.objects[c] == me && !me.marked
    ensures var out := Solo(db, AfterStatus(c, me), {});
            && WellFormed(out.db) && c in out.db.objects && Settled(out.db.objects[c])
            && out.db.objects[c].spec == me.spec
            && (Settled(me) ==> out.db.objects[c] == me)
            && out.writes ==
               Tally(if me.status == RECONCILED then 0 else 1, if FINALIZER in me.finalizers then 0 else 1)
  {
    if FINALIZER in me.finalizers {
      ChildrenSettle(db, c, me, 0);
    } else {
      var pc := EnsureFinalizer(c, me);
      var out := Effect(db, NextOp(pc));
      EffectKeepsWellFormed(db, NextOp(pc));
      SoloStep(db, pc, {}, out, AfterChildren(c, out.reply.stored, 0));
      ChildrenSettle(out.db, c, out.reply.stored, 0);
    }
  }

  predicate Settled(me: Obj) {
    !me.marked && FINALIZER in me.finalizers && me.status == RECONCILED
  }

  /** The status and finalizer writes a group still has before it. */
  function Unsettled(me: Obj): Tally {
    Tally((if me.status.phase == Unset then 1 else 0) + (if me.status == RECONCILED then 0 else 1),
          if FINALIZER in me.finalizers then 0 else 1)
  }

  /** Quiescence: from any state of the group one undisturbed pass makes exactly
      the outstanding writes, at most two to the status and one to the finalizers,
      and the next pass finds nothing to write and leaves the group as it is. */
  lemma Quiesces(db: State, c: Key)
    requires WellFormed(db) && c.kind == OrdererGroup && c in db.objects && !db.objects[c].marked
    ensures var first := Pass(db, c, {});
            && first.writes == Unsettled(db.objects[c])
            && first.writes.status <= 2 && first.writes.finalizer <= 1
            && c in first.db.objects && Settled(first.db.objects[c])
            && first.db.objects[c].status.phase == Running
            && "orderergroup.fabricx.kfsoft.tech/finalizer" in first.db.objects[c].finalizers
            && first.db.objects[c].spec == db.objects[c].spec
            && var second := Pass(first.db, c, {});
               && second.writes == Tally(0, 0)
               && c in second.db.objects && second.db.objects[c] == first.db.objects[c]
  {
    var me := db.objects[c];
    if me.status.phase == Unset {
      var pc := InitStatus(c, me);
      var out := Effect(db, NextOp(pc));
      EffectKeepsWellFormed(db, NextOp(pc));
      SoloStep(db, pc, {}, out, AfterStatus(c, out.reply.stored));
      FinalizerSettles(out.db, c, out.reply.stored);
    } else {
      FinalizerSettles(db, c, me);
    }
    var db' := Pass(db, c, {}).db;
    FinalizerSettles(db', c, db'.objects[c]);
  }

  predicate Live(db: State, k: Key) {
    k in db.objects && !db.objects[k].marked
  }

  lemma SlotsDistinct(g: GroupSpec, p: nat, q: nat)
    requires p < q < |Slots(g)|
    ensures Slots(g)[p] != Slots(g)[q]
  {
    SlotsExact(g, p);
    SlotsExact(g, q);
  }

  /** A batcher whose deletion fails ends the cleanup loop. */
  predicate Stops(db: State, c: Key, g: GroupSpec, refused: set<Slot>, r: nat)
    requires r < |Slots(g)|
  {
    Slots(g)[r].Batcher? && (Slots(g)[r] in refused || SlotKey(c, Slots(g)[r]) !in db.objects)
  }

  /** The cleanup that is at position `p` will delete the slot at `q`. */
  ghost predicate Reaches(db: State, c: Key, g: GroupSpec, refused: set<Slot>, p: nat, q: nat)
    requires q < |Slots(g)|
  {
    p <= q && Slots(g)[q] !in refused && forall r :: p <= r < q ==> !Stops(db, c, g, refused, r)
  }

  /** One deletion of the cleanup. */
  lemma DeleteExact(db: State, c: Key, slot: Slot, slot': Slot)
    requires c.kind == OrdererGroup
    ensures var db' := Effect(db, Delete(SlotKey(c, slot))).db;
            && (Live(db', SlotKey(c, slot')) <==> Live(db, SlotKey(c, slot')) && slot != slot')
            && (slot != slot' ==> (SlotKey(c, slot') in db'.objects <==> SlotKey(c, slot') in db.objects))
            && (c in db'.objects <==> c in db.objects) && (c in db.objects ==> db'.objects[c] == db.objects[c])
  {
    if slot != slot' && SlotKey(c, slot) == SlotKey(c, slot') {
      SlotKeyInjective(c, slot, c, slot');
    }
  }

  lemma DropExact(db: State, c: Key, me: Obj, refused: set<Slot>, k: Key)
    requires c.kind == OrdererGroup && c in db.objects && db.objects[c].version == me.version && k != c
    ensures var db' := Solo(db, DropFinalizer(c, me), refused).db;
            && (Live(db', k) <==> Live(db, k))
            && (c in db'.objects ==> FINALIZER !in db'.objects[c].finalizers)
  {
    var pc := DropFinalizer(c, me);
    SoloStep(db, pc, refused, Effect(db, NextOp(pc)), Idle);
  }

  /** Where the cleanup goes after one deletion. */
  lemma CleanupResumes(c: Key, me: Obj, p: nat, reply: Answer)
    requires c.kind == OrdererGroup && p < |Slots(SpecOf(me))|
    ensures var pc := CleanDelete(c, me, p);
            && NextOp(pc) == Delete(SlotKey(c, Slots(SpecOf(me))[p])) && !StartsReconcile(NextOp(pc))
            && Resume(pc, NextOp(pc), reply) ==
               if !reply.Ok? && Slots(SpecOf(me))[p].Batcher? then DropFinalizer(c, me) else AfterClean(c, me, p + 1)
  {
    SlotsExact(SpecOf(me), p);
  }

  /** One step of the cleanup. */
  lemma CleanupStep(db: State, c: Key, me: Obj, p: nat, refused: set<Slot>) returns (db': State)
    requires c.kind == OrdererGroup && p < |Slots(SpecOf(me))|
    ensures var slot := Slots(SpecOf(me))[p];
            db' == if slot in refused then db else Effect(db, Delete(SlotKey(c, slot))).db
    ensures InRange(AfterClean(c, me, p + 1))
    ensures Solo(db, CleanDelete(c, me, p), refused).db ==
            Solo(db', if Stops(db, c, SpecOf(me), refused, p) then DropFinalizer(c, me) else AfterClean(c, me, p + 1),
                 refused).db
  {
    var pc := CleanDelete(c, me, p);
    var out := Perform(db, db, NextOp(pc), SoloFault(pc, refused));
    CleanupResumes(c, me, p, out.reply);
    var pc' := Resume(pc, NextOp(pc), out.reply);
    assert pc' == if Stops(db, c, SpecOf(me), refused, p) then DropFinalizer(c, me) else AfterClean(c, me, p + 1);
    SoloStep(db, pc, refused, out, pc');
    db' := out.db;
  }

  /** `q` is the position of `slot`, or none if the group does not ask for it. */
  predicate IsAt(g: GroupSpec, slot: Slot, q: nat) {
    if q < |Slots(g)| then Slots(g)[q] == slot else slot !in Slots(g)
  }

  /** Will a cleanup at position `p` leave the slot at `q` live? */
  ghost predicate Leaves(db: State, c: Key, g: GroupSpec, refused: set<Slot>, p: nat, slot: Slot, q: nat) {
    Live(db, SlotKey(c, slot)) && !(q < |Slots(g)| && Reaches(db, c, g, refused, p, q))
  }

  /** What one step of the cleanup settles. */
  lemma CleanupMovesOn(db: State, db': State, c: Key, g: GroupSpec, refused: set<Slot>, p: nat, slot: Slot, q: nat)
    requires c.kind == OrdererGroup && p < |Slots(g)| && IsAt(g, slot, q)
    requires var s := Slots(g)[p]; db' == if s in refused then db else Effect(db, Delete(SlotKey(c, s))).db
    ensures if Stops(db, c, g, refused, p) then Live(db', SlotKey(c, slot)) <==> Leaves(db, c, g, refused, p, slot, q)
            else Leaves(db', c, g, refused, p + 1, slot, q) <==> Leaves(db, c, g, refused, p, slot, q)
  {
    DeleteExact(db, c, Slots(g)[p], slot);
    if p < q < |Slots(g)| {
      SlotsDistinct(g, p, q);
      forall r | p < r < q
        ensures Stops(db, c, g, refused, r) <==> Stops(db', c, g, refused, r)
      {
        SlotsDistinct(g, p, r);
        DeleteExact(db, c, Slots(g)[p], Slots(g)[r]);
      }
    } else if q < p {
      SlotsDistinct(g, q, p);
    }
  }

  /** The cleanup from position `p` on, seen at any slot. */
  lemma {:induction false} CleanupExact(db: State, c: Key, me: Obj, p: nat, refused: set<Slot>, slot: Slot, q: nat)
    requires c.kind == OrdererGroup && c in db.objects && db.objects[c].version == me.version
    requires p <= |Slots(SpecOf(me))| && IsAt(SpecOf(me), slot, q)
    ensures var db' := Solo(db, AfterClean(c, me, p), refused).db;
            && (Live(db', SlotKey(c, slot)) <==> Leaves(db, c, SpecOf(me), refused, p, slot, q))
            && (c in db'.objects ==> FINALIZER !in db'.objects[c].finalizers)
    decreases |Slots(SpecOf(me))| - p
  {
    var g := SpecOf(me);
    if p == |Slots(g)| {
      DropExact(db, c, me, refused, SlotKey(c, slot));
    } else {
      var db' := CleanupStep(db, c, me, p, refused);
      CleanupMovesOn(db, db', c, g, refused, p, slot, q);
      DeleteExact(db, c, Slots(g)[p], slot);
      assert c in db'.objects && db'.objects[c] == db.objects[c];
      assert AfterClean(c, me, p) == CleanDelete(c, me, p);
      if Stops(db, c, g, refused, p) {
        DropExact(db', c, me, refused, SlotKey(c, slot));
      } else {
        CleanupExact(db', c, me, p + 1, refused, slot, q);
      }
    }
  }

  /** A status write leaves what the cleanup will leave. */
  lemma StatusIsNoStop(db: State, c: Key, me: Obj, g: GroupSpec, refused: set<Slot>, slot: Slot, q: nat)
    requires WellFormed(db) && c.kind == OrdererGroup && c in db.objects && db.objects[c] == me && me.marked
    ensures var db' := Effect(db, NextOp(DeleteStatus(c, me))).db;
            Leaves(db', c, g, refused, 0, slot, q) <==> Leaves(db, c, g, refused, 0, slot, q)
  {
    var db' := Effect(db, NextOp(DeleteStatus(c, me))).db;
    if q < |Slots(g)| {
      assert forall r :: 0 <= r < q ==> (Stops(db, c, g, refused, r) <==> Stops(db', c, g, refused, r));
    }
  }

  /** What a deletion pass leaves: the finalizer goes in any case, although every
      live child that was not configured, whose deletion was refused, or that came
      after a batcher that could not be deleted, is still there. */
  lemma DeletionLeaves(db: State, c: Key, refused: set<Slot>, slot: Slot, q: nat)
    requires WellFormed(db) && c.kind == OrdererGroup && c in db.objects && db.objects[c].marked
    requires IsAt(SpecOf(db.objects[c]), slot, q)
    ensures var db' := Pass(db, c, refused).db;
            && (Live(db', SlotKey(c, slot)) <==> Leaves(db, c, SpecOf(db.objects[c]), refused, 0, slot, q))
            && (c in db'.objects ==> FINALIZER !in db'.objects[c].finalizers)
  {
    var me := db.objects[c];
    if me.status == DELETING {
      CleanupExact(db, c, me, 0, refused, slot, q);
    } else {
      var pc := DeleteStatus(c, me);
      var out := Effect(db, NextOp(pc));
      SoloStep(db, pc, refused, out, AfterClean(c, out.reply.stored, 0));
      CleanupExact(out.db, c, out.reply.stored, 0, refused, slot, q);
      StatusIsNoStop(db, c, me, SpecOf(me), refused, slot, q);
    }
  }

  /** Some listed batcher before this one is missing. */
  predicate Gap(db: State, c: Key, g: GroupSpec, slot: Slot) {
    slot.Batcher? && exists i: nat :: i < slot.index && i < |g.batchers| && !Has(db, c, i)
  }

  /** The cleanup stops before a listed slot exactly at such a gap. */
  lemma StopsAtGap(db: State, c: Key, g: GroupSpec, slot: Slot, q: nat)
    requires q < |Slots(g)| && Slots(g)[q] == slot
    ensures (exists r: nat :: r < q && Stops(db, c, g, {}, r)) <==> Gap(db, c, g, slot)
  {
    SlotsExact(g, q);
    if r: nat :| r < q && Stops(db, c, g, {}, r) {
      SlotsExact(g, r);
      assert Slots(g)[r] == Batcher(r - |Singles(g)|);
      assert !Has(db, c, r - |Singles(g)|);
    }
    if Gap(db, c, g, slot) {
      var i: nat :| i < slot.index && i < |g.batchers| && !Has(db, c, i);
      SlotsExact(g, |Singles(g)| + i);
      assert Stops(db, c, g, {}, |Singles(g)| + i);
    }
  }

  /** The position of a slot: where it is listed, or behind all. */
  lemma Position(g: GroupSpec, slot: Slot) returns (q: nat)
    ensures IsAt(g, slot, q)
  {
    if slot in Slots(g) {
      q :| 0 <= q < |Slots(g)| && Slots(g)[q] == slot;
    } else {
      q := |Slots(g)|;
    }
  }

  lemma LeavesIff(db: State, c: Key, g: GroupSpec, slot: Slot, q: nat)
    requires IsAt(g, slot, q) && Live(db, SlotKey(c, slot))
    ensures Leaves(db, c, g, {}, 0, slot, q) <==> slot !in Slots(g) || Gap(db, c, g, slot)
  {
    if q < |Slots(g)| {
      StopsAtGap(db, c, g, slot, q);
      assert Reaches(db, c, g, {}, 0, q) <==> !(exists r: nat :: r < q && Stops(db, c, g, {}, r));
    }
  }

  lemma NoGap(db: State, c: Key, g: GroupSpec, slot: Slot)
    requires c.kind == OrdererGroup && DownwardClosed(db) && Live(db, SlotKey(c, slot))
    ensures !Gap(db, c, g, slot)
  {
    assert slot.Batcher? ==> Has(db, c, slot.index);
  }

  /** Even if no call fails, a deletion pass leaves exactly the live children that
      are not listed any more, and the listed batchers behind a missing one; where
      batchers form a prefix nothing is missing. */
  lemma DeletionLeaksIff(db: State, c: Key, slot: Slot)
    requires WellFormed(db) && c.kind == OrdererGroup && c in db.objects && db.objects[c].marked
    requires Live(db, SlotKey(c, slot))
    ensures var g := SpecOf(db.objects[c]);
            && (Live(Pass(db, c, {}).db, SlotKey(c, slot)) <==> slot !in Slots(g) || Gap(db, c, g, slot))
            && (DownwardClosed(db) ==> !Gap(db, c, g, slot))
  {
    var g := SpecOf(db.objects[c]);
    var q := Position(g, slot);
    DeletionLeaves(db, c, {}, slot, q);
    LeavesIff(db, c, g, slot, q);
    if DownwardClosed(db) {
      NoGap(db, c, g, slot);
    }
  }
}
