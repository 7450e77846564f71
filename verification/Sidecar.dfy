/** One undisturbed reconcile of a sidecar, statement by statement: the child's side
    of the two-level teardown. */
module SidecarController {
  import opened Prelude
  import opened ApiServer
  import opened CommitterSpecs
  import opened CommitterProgram
  import opened CommitterTeardown

  const CHILD_FINALIZER := "committersidecar.fabricx.kfsoft.tech/finalizer"

  class SidecarReconciler {
    var db: State

    constructor (db: State)
      ensures this.db == db
    {
      this.db := db;
    }

    method Call(op: Op<Spec, Status>) returns (reply: Answer)
      modifies this
      ensures db == Effect(old(db), op).db && reply == Effect(old(db), op).reply
    {
      var out := Effect(db, op);
      db, reply := out.db, out.reply;
    }

    /** Reconcile; `outcome` is the status its own resources lead to. */
    method Reconcile(k: Key, outcome: Status)
      modifies this
      ensures db == ChildPass(old(db), k, CHILD_FINALIZER, outcome)
      ensures k in old(db).objects && !old(db).objects[k].marked ==>
                && k in db.objects && db.objects[k].spec == old(db).objects[k].spec && db.objects[k].status == outcome
                && "committersidecar.fabricx.kfsoft.tech/finalizer" in db.objects[k].finalizers
      ensures k in old(db).objects && old(db).objects[k].marked && k in db.objects ==>
                "committersidecar.fabricx.kfsoft.tech/finalizer" !in db.objects[k].finalizers
    {
      var got := Call(Get(k));
      if got.Err? { return; }
      var sidecar := got.stored;
      if sidecar.marked {
        HandleDeletion(k, sidecar);
        return;
      }
      if sidecar.status.phase == Unset {
        sidecar := UpdateStatus(k, sidecar, CHILD_INITIALIZING);
      }
      if CHILD_FINALIZER !in sidecar.finalizers {
        sidecar := sidecar.(finalizers := sidecar.finalizers + [CHILD_FINALIZER]);
        var reply := Call(Update(k, sidecar));
        if reply.Err? { return; }
        sidecar := reply.stored;
      }
      var _ := UpdateStatus(k, sidecar, outcome);
    }

    /** handleDeletion cleans nothing up: it reports and drops the finalizer. */
    method HandleDeletion(k: Key, sidecar: Obj)
      requires k in db.objects && db.objects[k] == sidecar && sidecar.marked
      modifies this
      ensures db == ChildPass(old(db), k, CHILD_FINALIZER, CHILD_DELETING)
    {
      var me := UpdateStatus(k, sidecar, CHILD_DELETING);
      var _ := Call(Update(k, me.(finalizers := RemoveString(me.finalizers, CHILD_FINALIZER))));
    }

    method UpdateStatus(k: Key, sidecar: Obj, status: Status) returns (me: Obj)
      modifies this
      ensures db == Effect(old(db), StatusUpdate(k, sidecar.(status := status))).db
      ensures k in old(db).objects && old(db).objects[k] == sidecar ==>
                me == sidecar.(status := status, version := old(db).next)
    {
      me := sidecar.(status := status);
      var reply := Call(StatusUpdate(k, me));
      if reply.Ok? {
        me := reply.stored;
      }
    }
  }

  /** The pass above is the one the teardown schedules for the sidecar. */
  lemma SidecarIsChild(db: State, c: Key, outcome: Status)
    requires c.kind == Committer
    ensures Act(db, c, Child(Sidecar, outcome)) == ChildPass(db, ChildKey(c, Sidecar), CHILD_FINALIZER, outcome)
  {
  }
}
