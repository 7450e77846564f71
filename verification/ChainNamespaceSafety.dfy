/** Once-only deployment: "Deployed with a TxID" is absorbing however stale the
    reads are, a recorded TxID was accepted by the orderer, and acceptances beyond
    the first are exactly those that failed to be recorded. */
module ChainNamespaceSafety {
  import opened ApiServer
  import opened ChainNamespaceProgram

  /** The copy a reconcile works on is a faithful memory, and past the skip test
      it is not one of a deployed namespace. */
  ghost predicate Knows(db: State, pc: Pc) {
    match pc
    case Idle => true
    case AddFinalizer(k, me) => k.kind == ChainNamespace && Remembers(db, k, me)
    case Deploy(k, me) => k.kind == ChainNamespace && Remembers(db, k, me) && !IsDeployed(me.status)
    case Record(k, me, _) => k.kind == ChainNamespace && Remembers(db, k, me) && !IsDeployed(me.status)
    case RemoveFinalizer(k, _) => k.kind == ChainNamespace
  }

  lemma EffectKeepsKnowledge(db: State, op: Call, pc: Pc)
    requires Knows(db, pc)
    ensures Knows(Effect(db, op).db, pc)
  {
    if pc.AddFinalizer? || pc.Deploy? || pc.Record? {
      EffectKeepsMemory(db, op, pc.k, pc.me);
    }
  }

  /** Any object a read can return, current or outdated, is remembered. */
  lemma FetchRemembers(start: State, h: seq<Event>, k: Key, f: Fault)
    requires WellFormed(start) && Served(start, h, Get(k), f).reply.Ok?
    ensures Remembers(DbAfter(start, h), k, Served(start, h, Get(k), f).reply.stored)
  {
    var calls := Calls(h);
    if f.Stale? && f.at < |calls| {
      PastIsRemembered(start, calls, f.at, k);
    } else {
      assert calls[..|calls|] == calls;
      PastIsRemembered(start, calls, |calls|, k);
    }
  }

  lemma UpdateRemembers(db: State, k: Key, o: Obj)
    requires WellFormed(db) && Effect(db, Update(k, o)).reply.Ok?
    ensures var out := Effect(db, Update(k, o)); Remembers(out.db, k, out.reply.stored)
  {
  }

  lemma {:induction false} AlwaysKnows(start: State, h: seq<Event>)
    requires WellFormed(start) && Follows(start, h)
    ensures WellFormed(DbAfter(start, h)) && Knows(DbAfter(start, h), PcAfter(start, h))
    decreases |h|
  {
    ReplayWellFormed(start, Calls(h));
    if h != [] {
      var before, last := h[..|h| - 1], h[|h| - 1];
      assert h == before + [last];
      AlwaysKnows(start, before);
      FollowsStep(start, before, last);
      StoreStep(start, before, last);
      if last.Store? {
        EffectKeepsKnowledge(DbAfter(start, before), last.entry.op, PcAfter(start, before));
        if last.entry.Mine? {
          MyStepKnows(start, before, last.entry.op, last.entry.fault);
        }
      }
    }
  }

  /** The database after one more event. */
  lemma StoreStep(start: State, h: seq<Event>, e: Event)
    ensures DbAfter(start, h + [e]) ==
            (match e
             case Broadcast(_, _) => DbAfter(start, h)
             case Store(entry) =>
               if entry.Other? then Effect(DbAfter(start, h), entry.op).db
               else Served(start, h, entry.op, entry.fault).db)
  {
    assert (h + [e])[..|h|] == h;
    if e.Store? {
      var calls := Calls(h) + [e.entry];
      assert Calls(h + [e]) == calls && calls[..|calls| - 1] == Calls(h);
    }
  }

  lemma MyStepKnows(start: State, h: seq<Event>, op: Call, f: Fault)
    requires WellFormed(start) && WellFormed(DbAfter(start, h)) && Knows(DbAfter(start, h), PcAfter(start, h))
    requires Permits(start, h, Store(Mine(op, f)))
    ensures var out := Served(start, h, op, f); Knows(out.db, Resume(PcAfter(start, h), op, out.reply))
  {
    var db, pc, out := DbAfter(start, h), PcAfter(start, h), Served(start, h, op, f);
    if Fetches(op) {
      if out.reply.Ok? {
        FetchRemembers(start, h, op.key, f);
      }
    } else if pc.AddFinalizer? && out.reply.Ok? {
      UpdateRemembers(db, op.key, op.obj);
    }
  }

  /** A verdict that reaches the store replaces a status that was not "Deployed". */
  lemma RecordNeedsUndeployed(db: State, k: Key, me: Obj, verdict: NsStatus)
    requires Knows(db, Record(k, me, verdict)) && k in db.objects && IsDeployed(db.objects[k].status)
    ensures Effect(db, NextOp(Record(k, me, verdict))).db == db
  {
  }

  lemma OthersKeepStatus(db: State, op: Call, k: Key)
    requires k.kind == ChainNamespace && k in db.objects && OthersMay(db, op)
    ensures var db' := Effect(db, op).db; k in db'.objects ==> db'.objects[k].status == db.objects[k].status
  {
  }

  lemma MineKeepsDeployed(db: State, past: State, pc: Pc, op: Call, f: Fault, k: Key)
    requires k.kind == ChainNamespace && k in db.objects && IsDeployed(db.objects[k].status) && Knows(db, pc)
    requires Fetches(op) || (!pc.Idle? && !pc.Deploy? && op == NextOp(pc))
    ensures var db' := Perform(db, past, op, f).db; k in db'.objects ==> db'.objects[k].status == db.objects[k].status
  {
    if !Fetches(op) && pc.Record? && pc.k == k {
      RecordNeedsUndeployed(db, k, pc.me, pc.verdict);
    }
  }

  /** One event at a deployed namespace: its status stays, or the object goes. */
  lemma DeployedStep(start: State, h: seq<Event>, e: Event, k: Key)
    requires WellFormed(start) && Follows(start, h + [e]) && k.kind == ChainNamespace
    requires k in DbAfter(start, h).objects && IsDeployed(DbAfter(start, h).objects[k].status)
    ensures var db' := DbAfter(start, h + [e]);
            k in db'.objects ==> db'.objects[k].status == DbAfter(start, h).objects[k].status
  {
    assert (h + [e])[..|h|] == h;
    AlwaysKnows(start, h);
    StoreStep(start, h, e);
    var db, pc := DbAfter(start, h), PcAfter(start, h);
    match e
    case Broadcast(_, _) =>
    case Store(Other(op)) => OthersKeepStatus(db, op, k);
    case Store(Mine(op, f)) => MineKeepsDeployed(db, Past(start, Calls(h), f), pc, op, f, k);
  }

  ghost predicate PresentThroughout(start: State, h0: seq<Event>, h: seq<Event>, k: Key) {
    && h0 <= h
    && forall j :: |h0| <= j <= |h| ==> k in DbAfter(start, h[..j]).objects
  }

  /** "Deployed with a TxID" is absorbing: however many reconciles start from
      however outdated reads, the status never changes while the object exists. */
  lemma {:induction false} DeployedIsAbsorbing(start: State, h0: seq<Event>, h: seq<Event>, k: Key)
    requires WellFormed(start) && Follows(start, h) && k.kind == ChainNamespace
    requires PresentThroughout(start, h0, h, k)
    requires k in DbAfter(start, h0).objects && IsDeployed(DbAfter(start, h0).objects[k].status)
    ensures k in DbAfter(start, h).objects
    ensures DbAfter(start, h).objects[k].status == DbAfter(start, h0).objects[k].status
    decreases |h|
  {
    if |h| > |h0| {
      var before, last := h[..|h| - 1], h[|h| - 1];
      assert h[..|h|] == h == before + [last];
      assert PresentThroughout(start, h0, before, k) by {
        assert forall j :: 0 <= j <= |before| ==> before[..j] == h[..j];
      }
      DeployedIsAbsorbing(start, h0, before, k);
      DeployedStep(start, before, last, k);
    } else {
      assert h == h0;
    }
  }

  /** Acceptances of envelopes for `k`, in order. */
  function AcceptedIds(start: State, h: seq<Event>, k: Key): seq<string> {
    if h == [] then []
    else
      var before, last := h[..|h| - 1], h[|h| - 1];
      var pc := PcAfter(start, before);
      if last.Broadcast? && pc.Deploy? && pc.k == k && !last.result.Rejected?
      then AcceptedIds(start, before, k) + [last.result.txID]
      else AcceptedIds(start, before, k)
  }

  predicate Holding(pc: Pc, k: Key) {
    pc.Record? && pc.k == k && IsDeployed(pc.verdict)
  }

  /** Does this event write the success verdict for `k` into the store? */
  predicate Records(start: State, h: seq<Event>, e: Event, k: Key) {
    && Holding(PcAfter(start, h), k)
    && e.Store? && e.entry.Mine? && !Fetches(e.entry.op)
    && Served(start, h, e.entry.op, e.entry.fault).db != DbAfter(start, h)
  }

  /** Does this event lose an acceptance?  Its answer is lost on the way back, or
      the status write has no effect, or the operator restarts before it. */
  predicate Loses(start: State, h: seq<Event>, e: Event, k: Key) {
    var pc := PcAfter(start, h);
    || (pc.Deploy? && pc.k == k && e.Broadcast? && e.result.AcceptedUnheard?)
    || (Holding(pc, k) && e.Store? && e.entry.Mine? &&
        (Fetches(e.entry.op) || Served(start, h, e.entry.op, e.entry.fault).db == DbAfter(start, h)))
  }

  function Recorded(start: State, h: seq<Event>, k: Key): nat {
    if h == [] then 0
    else Recorded(start, h[..|h| - 1], k) + if Records(start, h[..|h| - 1], h[|h| - 1], k) then 1 else 0
  }

  function Unrecorded(start: State, h: seq<Event>, k: Key): nat {
    if h == [] then 0
    else Unrecorded(start, h[..|h| - 1], k) + if Loses(start, h[..|h| - 1], h[|h| - 1], k) then 1 else 0
  }

  /** Every acceptance is recorded, lost, or about to be written. */
  lemma {:induction false} AcceptancesAccounted(start: State, h: seq<Event>, k: Key)
    requires Follows(start, h)
    ensures |AcceptedIds(start, h, k)| ==
            Recorded(start, h, k) + Unrecorded(start, h, k) + if Holding(PcAfter(start, h), k) then 1 else 0
    decreases |h|
  {
    if h != [] {
      var before, last := h[..|h| - 1], h[|h| - 1];
      assert h == before + [last];
      AcceptancesAccounted(start, before, k);
      FollowsStep(start, before, last);
    }
  }

  /** Nobody deletes `k`, and it does not start out marked. */
  ghost predicate NeverDeleted(start: State, h: seq<Event>, k: Key) {
    && (k in start.objects ==> !start.objects[k].marked)
    && forall j :: 0 <= j < |h| ==> h[j] != Store(Other(Delete(k)))
  }

  lemma EffectKeepsUnmarked(db: State, op: Call, k: Key)
    requires op != Delete(k) && (k in db.objects ==> !db.objects[k].marked)
    ensures var db' := Effect(db, op).db;
            (k in db'.objects ==> !db'.objects[k].marked) && (k in db.objects ==> k in db'.objects)
  {
  }

  lemma {:induction false} StaysUnmarked(start: State, h: seq<Event>, k: Key)
    requires Follows(start, h) && k.kind == ChainNamespace && NeverDeleted(start, h, k)
    ensures k in DbAfter(start, h).objects ==> !DbAfter(start, h).objects[k].marked
    ensures h != [] && k in DbAfter(start, h[..|h| - 1]).objects ==> k in DbAfter(start, h).objects
    decreases |h|
  {
    if h != [] {
      var before, last := h[..|h| - 1], h[|h| - 1];
      assert h == before + [last];
      StaysUnmarked(start, before, k);
      StoreStep(start, before, last);
      if last.Store? {
        assert Permits(start, before, last);
        EffectKeepsUnmarked(DbAfter(start, before), last.entry.op, k);
      }
    }
  }

  /** How often `k` went away: the incarnations it has behind it. */
  function Removals(start: State, h: seq<Event>, k: Key): nat {
    if h == [] then 0
    else
      var before := h[..|h| - 1];
      Removals(start, before, k) +
      if k in DbAfter(start, before).objects && k !in DbAfter(start, h).objects then 1 else 0
  }

  predicate DeployedIn(db: State, k: Key) {
    k in db.objects && IsDeployed(db.objects[k].status)
  }

  /** Recording turns an undeployed namespace into a deployed one. */
  lemma RecordsDeploys(start: State, h: seq<Event>, e: Event, k: Key)
    requires WellFormed(start) && Follows(start, h + [e]) && k.kind == ChainNamespace
    requires Records(start, h, e, k)
    ensures k in DbAfter(start, h).objects && !DeployedIn(DbAfter(start, h), k)
    ensures DeployedIn(DbAfter(start, h + [e]), k)
  {
    assert (h + [e])[..|h|] == h;
    AlwaysKnows(start, h);
    StoreStep(start, h, e);
  }

  /** At most one acceptance is recorded for each incarnation. */
  lemma {:induction false} RecordedOnce(start: State, h: seq<Event>, k: Key)
    requires WellFormed(start) && Follows(start, h) && k.kind == ChainNamespace && !DeployedIn(start, k)
    ensures Recorded(start, h, k) <= Removals(start, h, k) + if DeployedIn(DbAfter(start, h), k) then 1 else 0
    decreases |h|
  {
    if h != [] {
      var before, last := h[..|h| - 1], h[|h| - 1];
      assert h == before + [last];
      RecordedOnce(start, before, k);
      if Records(start, before, last, k) {
        RecordsDeploys(start, before, last, k);
      } else if DeployedIn(DbAfter(start, before), k) {
        DeployedStep(start, before, last, k);
      }
    }
  }

  lemma {:induction false} NoRemovals(start: State, h: seq<Event>, k: Key)
    requires Follows(start, h) && k.kind == ChainNamespace && NeverDeleted(start, h, k)
    ensures Removals(start, h, k) == 0
    decreases |h|
  {
    if h != [] {
      NoRemovals(start, h[..|h| - 1], k);
      StaysUnmarked(start, h, k);
    }
  }

  /** Bounded duplicates: the orderer accepted at most one envelope for each
      incarnation of `k`, plus those whose acceptance was lost and the one in
      hand; if nobody deletes `k` there is one incarnation. */
  lemma DuplicatesBounded(start: State, h: seq<Event>, k: Key)
    requires WellFormed(start) && Follows(start, h) && k.kind == ChainNamespace && !DeployedIn(start, k)
    ensures |AcceptedIds(start, h, k)| <=
            1 + Removals(start, h, k) + Unrecorded(start, h, k) + if Holding(PcAfter(start, h), k) then 1 else 0
    ensures NeverDeleted(start, h, k) ==> Removals(start, h, k) == 0
  {
    AcceptancesAccounted(start, h, k);
    RecordedOnce(start, h, k);
    if NeverDeleted(start, h, k) {
      NoRemovals(start, h, k);
    }
  }

  /** The TxIDs of `k` in the store and in the verdict at hand were accepted. */
  ghost predicate TxIDsAccepted(db: State, pc: Pc, k: Key, ids: seq<string>) {
    && (k in db.objects && db.objects[k].status.txID != "" ==> db.objects[k].status.txID in ids)
    && (pc.Record? && pc.k == k && pc.verdict.txID != "" ==> pc.verdict.txID in ids)
  }

  lemma TxIDsOthers(db: State, pc: Pc, k: Key, ids: seq<string>, op: Call)
    requires k.kind == ChainNamespace && TxIDsAccepted(db, pc, k, ids) && OthersMay(db, op)
    ensures TxIDsAccepted(Effect(db, op).db, pc, k, ids)
  {
  }

  lemma TxIDsMine(db: State, past: State, pc: Pc, k: Key, ids: seq<string>, op: Call, f: Fault)
    requires k.kind == ChainNamespace && TxIDsAccepted(db, pc, k, ids)
    requires Fetches(op) || (!pc.Idle? && !pc.Deploy? && op == NextOp(pc))
    ensures var out := Perform(db, past, op, f); TxIDsAccepted(out.db, Resume(pc, op, out.reply), k, ids)
  {
  }

  /** A TxID in the store, or about to be stored, was accepted by the orderer. */
  lemma {:induction false} RecordedTxIDWasAccepted(start: State, h: seq<Event>, k: Key)
    requires Follows(start, h) && k.kind == ChainNamespace
    requires k in start.objects ==> start.objects[k].status.txID == ""
    ensures TxIDsAccepted(DbAfter(start, h), PcAfter(start, h), k, AcceptedIds(start, h, k))
    decreases |h|
  {
    if h != [] {
      var before, last := h[..|h| - 1], h[|h| - 1];
      assert h == before + [last];
      RecordedTxIDWasAccepted(start, before, k);
      FollowsStep(start, before, last);
      StoreStep(start, before, last);
      var db, pc, ids := DbAfter(start, before), PcAfter(start, before), AcceptedIds(start, before, k);
      match last
      case Store(Other(op)) => TxIDsOthers(db, pc, k, ids, op);
      case Store(Mine(op, f)) => TxIDsMine(db, Past(start, Calls(before), f), pc, k, ids, op, f);
      case Broadcast(_, _) => assert ids <= AcceptedIds(start, h, k);
    }
  }
}
