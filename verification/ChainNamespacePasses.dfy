/** Undisturbed reconciles of a ChainNamespace: what one of them leaves behind. */
module ChainNamespacePasses {
  import opened Prelude
  import opened ApiServer
  import opened ChainNamespaceProgram
  import opened ChainNamespaceSafety

  function Rank(pc: Pc): nat {
    match pc
    case Idle => 0
    case RemoveFinalizer(_, _) => 1
    case Record(_, _, _) => 1
    case Deploy(_, _) => 2
    case AddFinalizer(_, _) => 3
  }

  function Solo(db: State, pc: Pc, d: Deployment, now: int): State
    decreases Rank(pc)
  {
    if pc.Idle? then db
    else if pc.Deploy? then Solo(db, Record(pc.k, pc.me, Verdict(pc.me.status, d, now)), d, now)
    else
      var out := Effect(db, NextOp(pc));
      if Fetches(NextOp(pc)) then out.db
      else Solo(out.db, Resume(pc, NextOp(pc), out.reply), d, now)
  }

  /** One reconcile; should it come to a deployment, that ends with `d` at `now`. */
  function Pass(db: State, k: Key, d: Deployment, now: int): State {
    Solo(db, Begin(k, Effect(db, Get(k)).reply), d, now)
  }

  lemma RecordLands(db: State, k: Key, me: Obj, d: Deployment, now: int)
    requires WellFormed(db) && k in db.objects && db.objects[k] == me && !me.marked
    ensures var db' := Solo(db, Deploy(k, me), d, now);
            && k in db'.objects && !db'.objects[k].marked && db'.objects[k].finalizers == me.finalizers
            && db'.objects[k].spec == me.spec
            && db'.objects[k].status == Verdict(me.status, d, now)
  {
    var pc := Record(k, me, Verdict(me.status, d, now));
    var out := Effect(db, NextOp(pc));
    assert Solo(db, Deploy(k, me), d, now) == Solo(db, pc, d, now) == Solo(out.db, Idle, d, now);
  }

  /** One reconcile of a namespace that is not being deleted puts the finalizer on
      and, unless it was deployed, records how the deployment ended: the TxID and a
      Ready condition that holds, or the error and one that does not. */
  lemma PassExact(db: State, k: Key, d: Deployment, now: int)
    requires k.kind == ChainNamespace && WellFormed(db) && k in db.objects && !db.objects[k].marked
    ensures var me, db' := db.objects[k], Pass(db, k, d, now);
            && k in db'.objects && !db'.objects[k].marked && db'.objects[k].spec == me.spec
            && "chainnamespace.fabricx.kfsoft.tech/finalizer" in db'.objects[k].finalizers
            && var after := db'.objects[k].status;
               if me.status.status == "Deployed" && me.status.txID != "" then after == me.status
               else if d.Accepted? then
                 && after.status == "Deployed" && after.txID == d.txID
                 && Condition("Ready", true, now, "Deployed", after.message) in after.conditions
               else
                 && after.status == "Failed" && after.txID == "" && after.message == d.error
                 && Condition("Ready", false, now, "Failed", d.error) in after.conditions
  {
    var me, db1 := db.objects[k], db;
    if FINALIZER !in me.finalizers {
      var pc := AddFinalizer(k, me);
      var out := Effect(db, NextOp(pc));
      EffectKeepsWellFormed(db, NextOp(pc));
      assert Solo(db, pc, d, now) == Solo(out.db, AfterFinalizer(k, out.reply.stored), d, now);
      db1, me := out.db, out.reply.stored;
    }
    assert Pass(db, k, d, now) == Solo(db1, AfterFinalizer(k, me), d, now);
    if !IsDeployed(me.status) {
      RecordLands(db1, k, me, d, now);
      UpsertHolds(me.status.conditions,
                  if d.Accepted? then Condition("Ready", true, now, "Deployed", "Namespace deployed successfully")
                  else Condition("Ready", false, now, "Failed", d.error));
    }
  }

  lemma {:induction false} UpsertHolds(conditions: seq<Condition>, c: Condition)
    ensures c in WithCondition(conditions, c)
  {
    if conditions != [] && conditions[0].kind != c.kind {
      UpsertHolds(conditions[1..], c);
    }
  }

  /** One reconcile of a deleted namespace takes the finalizer off, and with it the
      namespace unless somebody else holds it; nothing is deployed. */
  lemma DeletionPass(db: State, k: Key, d: Deployment, now: int)
    requires k.kind == ChainNamespace && WellFormed(db) && k in db.objects && db.objects[k].marked
    ensures var me, db' := db.objects[k], Pass(db, k, d, now);
            && (k in db'.objects ==>
                  FINALIZER !in db'.objects[k].finalizers && db'.objects[k].status == me.status)
            && ((forall x :: x in me.finalizers ==> x == FINALIZER) ==> k !in db'.objects)
  {
    var me := db.objects[k];
    if FINALIZER in me.finalizers {
      var pc := RemoveFinalizer(k, me);
      var out := Effect(db, NextOp(pc));
      assert Solo(db, pc, d, now) == Solo(out.db, Idle, d, now);
      if forall x :: x in me.finalizers ==> x == FINALIZER {
        RemoveOnly(me.finalizers, FINALIZER);
      }
    } else {
      assert me.finalizers != [] && me.finalizers[0] in me.finalizers;
    }
  }

  /** In every run the orderer is only asked about an unmarked copy that carries the
      finalizer. */
  ghost predicate Guarded(pc: Pc) {
    pc.Deploy? || pc.Record? ==> !pc.me.marked && FINALIZER in pc.me.finalizers
  }

  lemma {:induction false} AlwaysGuarded(start: State, h: seq<Event>)
    requires WellFormed(start) && Follows(start, h)
    ensures Guarded(PcAfter(start, h)) && (PcAfter(start, h).AddFinalizer? ==> !PcAfter(start, h).me.marked)
    decreases |h|
  {
    if h != [] {
      var before, last := h[..|h| - 1], h[|h| - 1];
      assert h == before + [last];
      AlwaysGuarded(start, before);
      AlwaysKnows(start, before);
      FollowsStep(start, before, last);
      if last.Store? && last.entry.Mine? {
        CallKeepsGuarded(DbAfter(start, before), Past(start, Calls(before), last.entry.fault), PcAfter(start, before),
                         last.entry.op, last.entry.fault);
      }
    }
  }

  lemma CallKeepsGuarded(db: State, past: State, pc: Pc, op: Call, f: Fault)
    requires Knows(db, pc) && Guarded(pc) && (pc.AddFinalizer? ==> !pc.me.marked)
    requires Fetches(op) || (!pc.Idle? && !pc.Deploy? && op == NextOp(pc))
    ensures var pc' := Resume(pc, op, Perform(db, past, op, f).reply);
            Guarded(pc') && (pc'.AddFinalizer? ==> !pc'.me.marked)
  {
  }
}
