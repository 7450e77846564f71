/** The batchers of a group over runs: as long as nothing is deleted they form a
    prefix 0..m-1 that never shrinks, never outgrows the longest list ever
    specified, and covers the list of every reconcile that succeeds. */
module OrdererGroupSafety {
  import opened ApiServer
  import opened OrdererSpecs
  import opened OrdererNames
  import opened OrdererGroupProgram

  /** The others create no batchers and delete neither batchers nor groups. */
  predicate NoDeletes(db: State, op: Call) {
    match op
    case Create(k, _) => k.kind != OrdererBatcher
    case Delete(k) => k.kind !in {OrdererGroup, OrdererBatcher}
    case _ => true
  }

  predicate Has(db: State, g: Key, i: nat) {
    SlotKey(g, Batcher(i)) in db.objects
  }

  /** Batchers `0` to `m - 1` exist and no others of this group. */
  ghost predicate Prefix(db: State, g: Key, m: nat) {
    forall i: nat :: Has(db, g, i) <==> i < m
  }

  ghost predicate DownwardClosed(db: State) {
    forall g: Key, i: nat, j: nat :: g.kind == OrdererGroup && j < i && Has(db, g, i) ==> Has(db, g, j)
  }

  ghost predicate Undeleted(db: State) {
    forall k :: k in db.objects && k.kind in {OrdererGroup, OrdererBatcher} ==> !db.objects[k].marked
  }

  function Specified(db: State, g: Key): nat {
    if g in db.objects then |SpecOf(db.objects[g]).batchers| else 0
  }

  function Max(a: nat, b: nat): nat {
    if a < b then b else a
  }

  /** The longest batcher list the group ever had. */
  function MaxSpecified(start: State, h: Trace, g: Key): nat {
    if h == [] then Specified(start, g)
    else Max(MaxSpecified(start, h[..|h| - 1], g), Specified(Replay(start, h), g))
  }

  lemma {:induction false} SpecifiedBelowMax(start: State, h: Trace, j: nat, g: Key)
    requires j <= |h|
    ensures Specified(Replay(start, h[..j]), g) <= MaxSpecified(start, h, g)
    decreases |h|
  {
    if j == |h| {
      assert h[..j] == h;
    } else {
      var before := h[..|h| - 1];
      assert before[..j] == h[..j];
      SpecifiedBelowMax(start, before, j, g);
    }
  }

  /** No batcher of `g` lies beyond `bound`. */
  ghost predicate Within(db: State, g: Key, bound: nat) {
    forall i: nat :: Has(db, g, i) ==> i < bound
  }

  /** The batchers among the first `p` slots exist. */
  ghost predicate Built(db: State, c: Key, g: GroupSpec, p: nat) {
    forall i: nat :: |Singles(g)| + i < p ==> Has(db, c, i)
  }

  predicate Tearing(pc: Pc) {
    pc.DeleteStatus? || pc.CleanDelete? || pc.DropFinalizer?
  }

  /** What the reconciler knows at each suspension point. */
  ghost predicate Knows(db: State, pc: Pc) {
    && InRange(pc) && !Tearing(pc)
    && (pc.GetChild? || pc.PutChild? ==> Built(db, pc.c, SpecOf(pc.me), pc.p))
  }

  /** The copy's list is one the group once had. */
  ghost predicate CopyOk(pc: Pc, start: State, h: Trace) {
    !pc.Idle? ==> |SpecOf(pc.me).batchers| <= MaxSpecified(start, h, pc.c)
  }

  lemma NothingVanishes(db: State, op: Call)
    requires Undeleted(db) && !(op.Delete? && op.key.kind in {OrdererGroup, OrdererBatcher})
    ensures Undeleted(Effect(db, op).db)
    ensures forall k :: k in db.objects && k.kind in {OrdererGroup, OrdererBatcher} ==> k in Effect(db, op).db.objects
    ensures forall k :: k in Effect(db, op).db.objects && k !in db.objects ==> op.Create? && k == op.key
  {
  }

  /** No batcher goes away. */
  ghost predicate Grows(db: State, db': State) {
    forall g: Key, i: nat :: Has(db, g, i) ==> Has(db', g, i)
  }

  lemma NothingVanishesHas(db: State, op: Call)
    requires Undeleted(db) && !(op.Delete? && op.key.kind in {OrdererGroup, OrdererBatcher})
    ensures Grows(db, Effect(db, op).db)
    ensures forall g: Key, i: nat :: Has(Effect(db, op).db, g, i) && !Has(db, g, i) ==>
              op.Create? && op.key == SlotKey(g, Batcher(i))
  {
    NothingVanishes(db, op);
  }

  /** A call of the others. */
  lemma OthersKeep(db: State, pc: Pc, op: Call)
    requires Undeleted(db) && DownwardClosed(db) && Knows(db, pc) && NoDeletes(db, op)
    ensures var db' := Effect(db, op).db;
            Undeleted(db') && DownwardClosed(db') && Knows(db', pc)
            && forall g: Key, i: nat :: Has(db', g, i) <==> Has(db, g, i)
  {
    NothingVanishes(db, op);
    NothingVanishesHas(db, op);
  }

  /** What a call of the program may add: the next batcher of its own group. */
  lemma MineAdds(db: State, pc: Pc, op: Call)
    requires Undeleted(db) && DownwardClosed(db) && Knows(db, pc) && Expects(pc, op)
    ensures !(op.Delete? && op.key.kind in {OrdererGroup, OrdererBatcher})
    ensures var db' := Effect(db, op).db;
            && Undeleted(db') && DownwardClosed(db')
            && Grows(db, db')
            && (forall g: Key, i: nat :: g.kind == OrdererGroup && Has(db', g, i) && !Has(db, g, i) ==>
                 pc.PutChild? && g == pc.c && i < |SpecOf(pc.me).batchers|)
  {
    NothingVanishes(db, op);
    NothingVanishesHas(db, op);
    var db' := Effect(db, op).db;
    if op.Create? && pc.PutChild? {
      SlotsExact(SpecOf(pc.me), pc.p);
      forall g: Key, i: nat | g.kind == OrdererGroup && Has(db', g, i) && !Has(db, g, i)
        ensures g == pc.c && i < |SpecOf(pc.me).batchers| && pc.p == |Singles(SpecOf(pc.me))| + i
      {
        SlotKeyInjective(pc.c, SlotAt(pc), g, Batcher(i));
      }
    }
  }

  /** A successful child write extends what is built. */
  lemma PutBuilds(db: State, db': State, c: Key, g: GroupSpec, p: nat)
    requires Built(db, c, g, p) && p < |Slots(g)|
    requires Slots(g)[p].Batcher? ==> SlotKey(c, Slots(g)[p]) in db'.objects
    requires Grows(db, db')
    ensures Built(db', c, g, p + 1)
  {
    SlotsExact(g, p);
    forall i: nat | |Singles(g)| + i < p + 1
      ensures Has(db', c, i)
    {
      if |Singles(g)| + i == p {
        assert Slots(g)[p] == Batcher(i);
      } else {
        assert Has(db, c, i);
      }
    }
  }

  lemma FetchKnows(db: State, op: Call, reply: Answer)
    requires StartsReconcile(op) && (reply.Ok? ==> !reply.stored.marked)
    ensures Knows(db, Begin(op.key, reply))
  {
  }

  /** The knowledge at the next point of a building reconcile, unless a child
      write succeeded. */
  lemma ResumeKnows(db: State, db': State, pc: Pc, reply: Answer)
    requires Knows(db, pc) && !pc.Idle? && !(pc.PutChild? && reply.Ok?)
    requires Grows(db, db')
    ensures Knows(db', Resume(pc, NextOp(pc), reply))
  {
    if pc.GetChild? || pc.PutChild? {
      assert Built(db', pc.c, SpecOf(pc.me), pc.p);
    }
  }

  /** A successful write leaves its object in place. */
  lemma PutIsThere(db: State, past: State, op: Call, f: Fault)
    requires Undeleted(db) && op.key.kind in {OrdererGroup, OrdererBatcher} && (op.Create? || op.Update?)
    requires Perform(db, past, op, f).reply.Ok?
    ensures op.key in Perform(db, past, op, f).db.objects
  {
  }

  /** The knowledge at the next point after a child write that succeeded. */
  lemma PutKnows(db: State, db': State, past: State, pc: Pc, f: Fault)
    requires Knows(db, pc) && pc.PutChild? && Undeleted(db) && Grows(db, db')
    requires db' == Perform(db, past, NextOp(pc), f).db && Perform(db, past, NextOp(pc), f).reply.Ok?
    ensures Knows(db', AfterChildren(pc.c, pc.me, pc.p + 1))
  {
    if SlotAt(pc).Batcher? {
      PutIsThere(db, past, NextOp(pc), f);
    }
    PutBuilds(db, db', pc.c, SpecOf(pc.me), pc.p);
  }

  lemma StepKnows(db: State, db': State, past: State, pc: Pc, op: Call, f: Fault)
    requires Knows(db, pc) && Expects(pc, op) && Undeleted(db) && Undeleted(past)
    requires db' == Perform(db, past, op, f).db && Grows(db, db')
    ensures Knows(db', Resume(pc, op, Perform(db, past, op, f).reply))
  {
    var reply := Perform(db, past, op, f).reply;
    if StartsReconcile(op) {
      FetchKnows(db', op, reply);
    } else if pc.PutChild? && reply.Ok? {
      PutKnows(db, db', past, pc, f);
    } else {
      ResumeKnows(db, db', pc, reply);
    }
  }

  /** Where the next point's copy comes from. */
  lemma ResumeCopy(db: State, past: State, pc: Pc, op: Call, f: Fault)
    requires Knows(db, pc) && Expects(pc, op) && Undeleted(db)
    ensures var out := Perform(db, past, op, f); var pc' := Resume(pc, op, out.reply);
            pc'.Idle?
            || (!pc.Idle? && pc'.c == pc.c && SpecOf(pc'.me) == SpecOf(pc.me))
            || (pc'.c in out.db.objects && SpecOf(pc'.me) == SpecOf(out.db.objects[pc'.c]))
            || (f.Stale? && StartsReconcile(op) && pc'.c in past.objects
                && SpecOf(pc'.me) == SpecOf(past.objects[pc'.c]))
  {
  }

  lemma {:induction false} PrefixFollows(start: State, h1: Trace, h: Trace, rely: (State, Call) -> bool)
    requires h1 <= h && Follows(start, h, rely)
    ensures Follows(start, h1, rely)
    decreases |h|
  {
    if |h1| < |h| {
      PrefixFollows(start, h1, h[..|h| - 1], rely);
    } else {
      assert h1 == h;
    }
  }

  /** A run starts without batchers and with nothing being deleted. */
  ghost predicate Starts(start: State) {
    Undeleted(start) && forall k :: k in start.objects ==> k.kind != OrdererBatcher
  }

  /** The invariant of all runs, however calls fail and however outdated reads are. */
  lemma {:induction false} BatcherInvariant(start: State, h: Trace)
    requires Starts(start) && Follows(start, h, NoDeletes)
    ensures Undeleted(Replay(start, h)) && DownwardClosed(Replay(start, h))
    ensures Knows(Replay(start, h), PcAfter(start, h)) && CopyOk(PcAfter(start, h), start, h)
    ensures forall g: Key :: g.kind == OrdererGroup ==> Within(Replay(start, h), g, MaxSpecified(start, h, g))
    decreases |h|, 0
  {
    if h != [] {
      var before, last := h[..|h| - 1], h[|h| - 1];
      BatcherInvariant(start, before);
      match last
      case Other(op) => OthersKeep(Replay(start, before), PcAfter(start, before), op);
      case Mine(op, f) =>
        PastUndeleted(start, before, f);
        MineKeeps(start, h);
        MineCopy(start, h);
    }
  }

  /** The store and the knowledge after a call of the program. */
  lemma MineStore(db: State, past: State, pc: Pc, op: Call, f: Fault)
    requires Undeleted(db) && Undeleted(past) && DownwardClosed(db) && Knows(db, pc) && Expects(pc, op)
    ensures var out := Perform(db, past, op, f);
            && Undeleted(out.db) && DownwardClosed(out.db) && Knows(out.db, Resume(pc, op, out.reply))
            && forall g: Key, i: nat :: g.kind == OrdererGroup && Has(out.db, g, i) && !Has(db, g, i) ==>
                 pc.PutChild? && g == pc.c && i < |SpecOf(pc.me).batchers|
  {
    MineAdds(db, pc, op);
    StepKnows(db, Perform(db, past, op, f).db, past, pc, op, f);
  }

  lemma MineKeeps(start: State, h: Trace)
    requires h != [] && h[|h| - 1].Mine?
    requires var before := h[..|h| - 1]; var db, pc := Replay(start, before), PcAfter(start, before);
             && Undeleted(db) && DownwardClosed(db) && Knows(db, pc) && CopyOk(pc, start, before)
             && (forall g: Key :: g.kind == OrdererGroup ==> Within(db, g, MaxSpecified(start, before, g)))
             && Expects(pc, h[|h| - 1].op) && Undeleted(Past(start, before, h[|h| - 1].fault))
    ensures Undeleted(Replay(start, h)) && DownwardClosed(Replay(start, h))
    ensures Knows(Replay(start, h), PcAfter(start, h))
    ensures forall g: Key :: g.kind == OrdererGroup ==> Within(Replay(start, h), g, MaxSpecified(start, h, g))
  {
    var before, op, f := h[..|h| - 1], h[|h| - 1].op, h[|h| - 1].fault;
    var db, db', pc, past := Replay(start, before), Replay(start, h), PcAfter(start, before), Past(start, before, f);
    MineStore(db, past, pc, op, f);
    assert db' == Perform(db, past, op, f).db;
    forall g: Key | g.kind == OrdererGroup
      ensures Within(db', g, MaxSpecified(start, h, g))
    {
      MineWithin(db, db', pc, g, MaxSpecified(start, before, g), MaxSpecified(start, h, g));
    }
  }

  /** A new batcher is listed, so it stays within the bound. */
  lemma MineWithin(db: State, db': State, pc: Pc, g: Key, bound: nat, bound': nat)
    requires Within(db, g, bound) && bound <= bound'
    requires pc.PutChild? && pc.c == g ==> |SpecOf(pc.me).batchers| <= bound
    requires forall i: nat :: Has(db', g, i) && !Has(db, g, i) ==>
               pc.PutChild? && g == pc.c && i < |SpecOf(pc.me).batchers|
    ensures Within(db', g, bound')
  {
  }

  lemma MineCopy(start: State, h: Trace)
    requires h != [] && h[|h| - 1].Mine?
    requires var before := h[..|h| - 1]; var db, pc := Replay(start, before), PcAfter(start, before);
             Undeleted(db) && Knows(db, pc) && CopyOk(pc, start, before) && Expects(pc, h[|h| - 1].op)
    ensures CopyOk(PcAfter(start, h), start, h)
  {
    var before, op, f := h[..|h| - 1], h[|h| - 1].op, h[|h| - 1].fault;
    ResumeCopy(Replay(start, before), Past(start, before, f), PcAfter(start, before), op, f);
    if f.Stale? && f.at < |before| {
      assert h[..f.at] == before[..f.at];
      SpecifiedBelowMax(start, h, f.at, op.key);
    }
  }

  lemma {:induction false} PastUndeleted(start: State, h: Trace, f: Fault)
    requires Starts(start) && Follows(start, h, NoDeletes)
    ensures Undeleted(Past(start, h, f))
    decreases |h|, 1
  {
    if f.Stale? && f.at < |h| {
      PrefixFollows(start, h[..f.at], h, NoDeletes);
      BatcherInvariant(start, h[..f.at]);
    } else {
      BatcherInvariant(start, h);
    }
  }

  /** The first index without a batcher; `bound` limits the search. */
  function Count(db: State, g: Key, bound: nat, i: nat): (m: nat)
    requires i <= bound
    ensures i <= m <= bound && forall j: nat :: i <= j < m ==> Has(db, g, j)
    ensures m < bound ==> !Has(db, g, m)
    decreases bound - i
  {
    if i < bound && Has(db, g, i) then Count(db, g, bound, i + 1) else i
  }

  /** The index set over runs: at every moment the batchers of `g` are exactly
      0..m-1 with m at most the longest list ever specified, and m never falls. */
  lemma BatchersFormPrefix(start: State, h0: Trace, h: Trace, g: Key) returns (m0: nat, m: nat)
    requires Starts(start) && Follows(start, h, NoDeletes) && h0 <= h && g.kind == OrdererGroup
    ensures Prefix(Replay(start, h0), g, m0) && Prefix(Replay(start, h), g, m)
    ensures m0 <= m <= MaxSpecified(start, h, g)
  {
    PrefixFollows(start, h0, h, NoDeletes);
    BatcherInvariant(start, h0);
    BatcherInvariant(start, h);
    m0 := Count(Replay(start, h0), g, MaxSpecified(start, h0, g), 0);
    m := Count(Replay(start, h), g, MaxSpecified(start, h, g), 0);
    CountIsPrefix(Replay(start, h0), g, MaxSpecified(start, h0, g));
    CountIsPrefix(Replay(start, h), g, MaxSpecified(start, h, g));
    if m0 > m {
      assert Has(Replay(start, h0), g, m);
      BatchersStay(start, h0, h, g, m);
      assert false;
    }
  }

  lemma CountIsPrefix(db: State, g: Key, bound: nat)
    requires DownwardClosed(db) && Within(db, g, bound) && g.kind == OrdererGroup
    ensures Prefix(db, g, Count(db, g, bound, 0))
  {
    var m := Count(db, g, bound, 0);
    assert forall i: nat :: m < i && Has(db, g, i) ==> Has(db, g, m);
    assert forall i: nat :: Has(db, g, i) ==> i < bound;
  }

  lemma {:induction false} BatchersStay(start: State, h0: Trace, h: Trace, g: Key, i: nat)
    requires Starts(start) && Follows(start, h, NoDeletes) && h0 <= h && Has(Replay(start, h0), g, i)
    ensures Has(Replay(start, h), g, i)
    decreases |h|
  {
    if |h| > |h0| {
      var before, last := h[..|h| - 1], h[|h| - 1];
      BatchersStay(start, h0, before, g, i);
      BatcherInvariant(start, before);
      if last.Mine? {
        MineAdds(Replay(start, before), PcAfter(start, before), last.op);
      } else {
        OthersKeep(Replay(start, before), PcAfter(start, before), last.op);
      }
    } else {
      assert h == h0;
    }
  }

  lemma MineGrows(db: State, pc: Pc, op: Call)
    requires Undeleted(db) && DownwardClosed(db) && Knows(db, pc) && Expects(pc, op)
    ensures Grows(db, Effect(db, op).db)
  {
    MineAdds(db, pc, op);
  }

  /** The next call is the last child write of a reconcile, and it is answered. */
  predicate Completes(db: State, past: State, pc: Pc, f: Fault) {
    && InRange(pc) && pc.PutChild? && pc.p + 1 == |Slots(SpecOf(pc.me))|
    && Perform(db, past, NextOp(pc), f).reply.Ok?
  }

  lemma WriteCovers(db: State, past: State, pc: Pc, f: Fault, i: nat)
    requires Undeleted(db) && DownwardClosed(db) && Knows(db, pc)
    requires Completes(db, past, pc, f) && i < |SpecOf(pc.me).batchers|
    ensures Has(Perform(db, past, NextOp(pc), f).db, pc.c, i)
  {
    var op, db' := NextOp(pc), Perform(db, past, NextOp(pc), f).db;
    MineGrows(db, pc, op);
    if SlotAt(pc).Batcher? {
      PutIsThere(db, past, op, f);
    }
    PutBuilds(db, db', pc.c, SpecOf(pc.me), pc.p);
  }

  /** After the child write that completes a reconcile, every listed index exists. */
  lemma SuccessCovers(start: State, h: Trace, f: Fault, i: nat)
    requires Starts(start) && Follows(start, h, NoDeletes)
    ensures var pc := PcAfter(start, h);
            Completes(Replay(start, h), Past(start, h, f), pc, f) && i < |SpecOf(pc.me).batchers| ==>
              Has(Replay(start, h + [Mine(NextOp(pc), f)]), pc.c, i)
  {
    var pc := PcAfter(start, h);
    if Completes(Replay(start, h), Past(start, h, f), pc, f) && i < |SpecOf(pc.me).batchers| {
      var h' := h + [Mine(NextOp(pc), f)];
      BatcherInvariant(start, h);
      assert h'[..|h|] == h;
      WriteCovers(Replay(start, h), Past(start, h, f), pc, f, i);
    }
  }
}
