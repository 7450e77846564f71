/** How often an identity is enrolled, and what its status records. */
module IdentitySafety {
  import opened ApiServer
  import opened IdentityProgram

  /** Certificates issued; existence checks that failed although the secret was
      there; certificates that never reached the secret. */
  datatype Ledger = Ledger(issued: nat, needless: nat, wasted: nat)

  predicate InFlight(pc: Pc) {
    pc.CreateSecret? || pc.UpdateSecret?
  }

  predicate SecretWritten(k: Key, w: World, e: Event) {
    e.Step? && InFlight(w.pc) && Perform(w.db, w.db, NextOp(k, w.pc), e.fault).db != w.db
  }

  predicate Needless(k: Key, sk: Key, w: World, e: Event) {
    && e.Step? && w.pc.Exists? && sk in w.db.objects
    && !Perform(w.db, w.db, NextOp(k, w.pc), e.fault).reply.Ok?
  }

  /** A certificate in flight that is dropped, or one we never heard of. */
  predicate Wastes(parses: string -> bool, k: Key, w: World, e: Event) {
    || (w.pc.Enrol? && e == Ca(GrantedUnheard))
    || (InFlight(w.pc) && !SecretWritten(k, w, e) && !InFlight(Next(parses, k, w, e).pc))
  }

  function Observe(parses: string -> bool, k: Key, sk: Key, w: World, l: Ledger, e: Event): Ledger {
    Ledger(
      l.issued + (if e.Ca? && w.pc.Enrol? && !e.grant.Denied? then 1 else 0),
      l.needless + (if Needless(k, sk, w, e) then 1 else 0),
      l.wasted + if Wastes(parses, k, w, e) then 1 else 0)
  }

  function Watch(parses: string -> bool, k: Key, sk: Key, w: World, h: seq<Event>): Ledger {
    if h == [] then Ledger(0, 0, 0)
    else
      var before := h[..|h| - 1];
      Observe(parses, k, sk, Run(parses, k, w, before), Watch(parses, k, sk, w, before), h[|h| - 1])
  }

  /** The identity is present, not deleted, and checks for what it enrols. */
  ghost predicate StoreOk(k: Key, sk: Key, db: State) {
    && WellFormed(db) && k in db.objects
    && var me := db.objects[k];
       && !me.marked && CheckedKey(k, me) == sk && WrittenKey(k, me) == sk
       && (sk in db.objects ==> !db.objects[sk].marked)
  }

  ghost predicate PcOk(k: Key, sk: Key, db: State, pc: Pc) {
    && !pc.RemoveFinalizer?
    && (!pc.Idle? ==> CheckedKey(k, pc.me) == sk && WrittenKey(k, pc.me) == sk)
    && (pc.WriteStatus? ==> Remembers(db, k, pc.refetched))
    && (pc.UpdateSecret? ==> sk in db.objects)
  }

  predicate CountOk(sk: Key, w: World, l: Ledger) {
    if sk in w.db.objects then
      l.issued <= 1 + l.needless + l.wasted && (w.pc.Enrol? ==> l.issued <= l.needless + l.wasted)
    else
      l.issued == l.wasted + if InFlight(w.pc) then 1 else 0
  }

  /** A call that neither deletes the identity or its secret nor changes what it
      asks for. */
  ghost predicate Conservative(k: Key, sk: Key, db: State, op: Call) {
    && (op.Delete? ==> op.key != k && op.key != sk)
    && (op.Update? && op.key == k && Effect(db, op).reply.Ok? ==>
         CheckedKey(k, op.obj) == sk && WrittenKey(k, op.obj) == sk)
  }

  lemma StoreStays(k: Key, sk: Key, db: State, op: Call)
    requires k != sk && StoreOk(k, sk, db) && Conservative(k, sk, db, op)
    ensures StoreOk(k, sk, Effect(db, op).db)
    ensures sk in db.objects ==> sk in Effect(db, op).db.objects
  {
    EffectKeepsWellFormed(db, op);
  }

  lemma OthersConservative(k: Key, sk: Key, db: State, op: Call)
    requires k.kind == Identity && sk.kind == Secret && StoreOk(k, sk, db) && OthersMay(k, sk, db, op)
    ensures Conservative(k, sk, db, op)
  {
  }

  lemma ProgramConservative(k: Key, sk: Key, db: State, pc: Pc)
    requires k.kind == Identity && sk.kind == Secret && StoreOk(k, sk, db) && PcOk(k, sk, db, pc)
    requires !pc.Idle? && !pc.Enrol?
    ensures Conservative(k, sk, db, NextOp(k, pc))
  {
  }

  lemma PcStays(k: Key, sk: Key, db: State, db': State, op: Call, pc: Pc)
    requires PcOk(k, sk, db, pc) && db' == Effect(db, op).db
    requires sk in db.objects ==> sk in db'.objects
    ensures PcOk(k, sk, db', pc)
  {
    if pc.WriteStatus? {
      EffectKeepsMemory(db, op, k, pc.refetched);
    }
  }

  /** What one step of the program knows afterwards. */
  lemma StepKnows(parses: string -> bool, k: Key, sk: Key, db: State, db': State, pc: Pc, f: Fault)
    requires k.kind == Identity && sk.kind == Secret && StoreOk(k, sk, db) && StoreOk(k, sk, db')
    requires PcOk(k, sk, db, pc) && !pc.Idle? && !pc.Enrol? && !f.Stale?
    requires db' == Perform(db, db, NextOp(k, pc), f).db
    requires sk in db.objects ==> sk in db'.objects
    ensures PcOk(k, sk, db', Resume(parses, pc, Perform(db, db, NextOp(k, pc), f).reply))
  {
  }

  lemma StepCounts(parses: string -> bool, k: Key, sk: Key, w: World, l: Ledger, f: Fault)
    requires k.kind == Identity && sk.kind == Secret && StoreOk(k, sk, w.db)
    requires PcOk(k, sk, w.db, w.pc) && CountOk(sk, w, l) && !w.pc.Idle? && !w.pc.Enrol? && !f.Stale?
    ensures CountOk(sk, Next(parses, k, w, Step(f)), Observe(parses, k, sk, w, l, Step(f)))
  {
    ProgramConservative(k, sk, w.db, w.pc);
    StoreStays(k, sk, w.db, NextOp(k, w.pc));
  }

  ghost predicate Inv(k: Key, sk: Key, w: World, l: Ledger) {
    StoreOk(k, sk, w.db) && PcOk(k, sk, w.db, w.pc) && CountOk(sk, w, l)
  }

  lemma EventKeepsInv(parses: string -> bool, k: Key, sk: Key, w: World, l: Ledger, e: Event)
    requires k.kind == Identity && sk.kind == Secret && Inv(k, sk, w, l) && Permits(k, sk, w, e)
    ensures Inv(k, sk, Next(parses, k, w, e), Observe(parses, k, sk, w, l, e))
  {
    match e
    case Fetch(_) =>
    case Ca(_) =>
    case Other(op) =>
      OthersConservative(k, sk, w.db, op);
      StoreStays(k, sk, w.db, op);
      PcStays(k, sk, w.db, Effect(w.db, op).db, op, w.pc);
    case Step(f) =>
      var op := NextOp(k, w.pc);
      ProgramConservative(k, sk, w.db, w.pc);
      StoreStays(k, sk, w.db, op);
      StepKnows(parses, k, sk, w.db, Next(parses, k, w, e).db, w.pc, f);
      StepCounts(parses, k, sk, w, l, f);
  }

  /** A run starts idle, with a consistent identity that is not being deleted. */
  ghost predicate Starts(k: Key, sk: Key, w: World) {
    && k.kind == Identity && w.pc.Idle? && WellFormed(w.db) && k in w.db.objects
    && var me := w.db.objects[k];
       && !me.marked && Consistent(me) && sk == CheckedKey(k, me)
       && (sk in w.db.objects ==> !w.db.objects[sk].marked)
  }

  lemma {:induction false} AlwaysInv(parses: string -> bool, k: Key, sk: Key, w: World, h: seq<Event>)
    requires Starts(k, sk, w) && Follows(parses, k, sk, w, h)
    ensures Inv(k, sk, Run(parses, k, w, h), Watch(parses, k, sk, w, h))
    decreases |h|
  {
    if h != [] {
      var before := h[..|h| - 1];
      AlwaysInv(parses, k, sk, w, before);
      EventKeepsInv(parses, k, sk, Run(parses, k, w, before),
                    Watch(parses, k, sk, w, before), h[|h| - 1]);
    }
  }

  /** Once-only enrolment of a consistent identity: over any run the CA issues at
      most one certificate more than there were failed checks of an existing
      secret and certificates that never reached the secret. */
  lemma EnrolmentsBounded(parses: string -> bool, k: Key, sk: Key, w: World, h: seq<Event>)
    requires Starts(k, sk, w) && Follows(parses, k, sk, w, h)
    ensures var l := Watch(parses, k, sk, w, h); l.issued <= 1 + l.needless + l.wasted
  {
    AlwaysInv(parses, k, sk, w, h);
  }

  /** The least that is asked of the others here: they may edit and delete
      anything, but leave the identity's status to its controller and do not create
      the identity anew. */
  predicate LeavesStatus(k: Key, db: State, op: Call) {
    && (op.StatusUpdate? ==> op.key != k)
    && (op.Create? && op.key == k ==> k in db.objects)
  }

  /** A run in which reads may also be answered from an earlier state: `Stale(at)`
      from the one after the first `at` events. */
  function PastDb(parses: string -> bool, k: Key, w: World, h: seq<Event>, f: Fault): State
    decreases |h|, 1
  {
    if f.Stale? && f.at < |h| then RunAny(parses, k, w, h[..f.at]).db else RunAny(parses, k, w, h).db
  }

  function RunAny(parses: string -> bool, k: Key, w: World, h: seq<Event>): World
    decreases |h|, 0
  {
    if h == [] then w
    else
      var before := h[..|h| - 1];
      NextAny(parses, k, RunAny(parses, k, w, before), PastOf(parses, k, w, before, h[|h| - 1]), h[|h| - 1])
  }

  function PastOf(parses: string -> bool, k: Key, w: World, h: seq<Event>, e: Event): State
    decreases |h|, 2
  {
    PastDb(parses, k, w, h, if e.Fetch? || e.Step? then e.fault else Clear)
  }

  function NextAny(parses: string -> bool, k: Key, w: World, past: State, e: Event): World {
    match e
    case Fetch(f) => w.(pc := Begin(Perform(w.db, past, Get(k), f).reply))
    case Step(f) =>
      if w.pc.Idle? || w.pc.Enrol? then w
      else
        var out := Perform(w.db, past, NextOp(k, w.pc), f);
        World(out.db, Resume(parses, w.pc, out.reply))
    case _ => Next(parses, k, w, e)
  }

  predicate PermitsAny(k: Key, w: World, e: Event) {
    match e
    case Fetch(_) => true
    case Step(_) => !w.pc.Idle? && !w.pc.Enrol?
    case Other(op) => LeavesStatus(k, w.db, op)
    case Ca(_) => w.pc.Enrol?
  }

  predicate FollowsAny(parses: string -> bool, k: Key, w: World, h: seq<Event>) {
    h == [] ||
    (FollowsAny(parses, k, w, h[..|h| - 1]) && PermitsAny(k, RunAny(parses, k, w, h[..|h| - 1]), h[|h| - 1]))
  }

  /** The runs with current reads are among these. */
  lemma {:induction false} CurrentRuns(parses: string -> bool, k: Key, w: World, h: seq<Event>)
    requires forall j :: 0 <= j < |h| ==> !(h[j].Fetch? || h[j].Step?) || !h[j].fault.Stale?
    ensures RunAny(parses, k, w, h) == Run(parses, k, w, h)
    decreases |h|
  {
    if h != [] {
      CurrentRuns(parses, k, w, h[..|h| - 1]);
    }
  }

  /** The copy a successful enrolment reports on carries the names. */
  predicate CopyNamed(pc: Pc) {
    (pc.Refetch? || pc.WriteStatus?) && pc.verdict == READY_ENROLLED ==>
      var o, name := pc.me.status.outputSecrets, OutputName(pc.me);
      if EnrolsIdemix(pc.me) then o.idemixCred == name + "-idemix"
      else o.signCert == name && o.signKey == name && o.signCACert == name
  }

  ghost predicate OutputsOk(k: Key, outputs: Outputs, w: World) {
    && WellFormed(w.db)
    && (k in w.db.objects ==> w.db.objects[k].status.outputSecrets == outputs)
    && (w.pc.WriteStatus? ==> Remembers(w.db, k, w.pc.refetched))
    && CopyNamed(w.pc)
  }

  /** What a read can be answered with is remembered. */
  ghost predicate Remembered(k: Key, past: State, db: State) {
    k in past.objects ==> Remembers(db, k, past.objects[k])
  }

  lemma RememberedLater(k: Key, past: State, db: State, op: Call)
    requires Remembered(k, past, db)
    ensures Remembered(k, past, Effect(db, op).db)
  {
    if k in past.objects {
      EffectKeepsMemory(db, op, k, past.objects[k]);
    }
  }

  lemma OutputsStay(k: Key, outputs: Outputs, db: State, op: Call)
    requires WellFormed(db) && (k in db.objects ==> db.objects[k].status.outputSecrets == outputs)
    requires op.Create? && op.key == k ==> k in db.objects
    requires op.StatusUpdate? && op.key == k && Effect(db, op).reply.Ok? ==> op.obj.status.outputSecrets == outputs
    ensures WellFormed(Effect(db, op).db)
    ensures k in Effect(db, op).db.objects ==> Effect(db, op).db.objects[k].status.outputSecrets == outputs
  {
    EffectKeepsWellFormed(db, op);
  }

  lemma StepKeepsCopies(parses: string -> bool, k: Key, w: World, past: State, f: Fault)
    requires k.kind == Identity && WellFormed(w.db) && !w.pc.Idle? && !w.pc.Enrol? && Remembered(k, past, w.db)
    requires CopyNamed(w.pc)
    ensures var w' := NextAny(parses, k, w, past, Step(f));
            (w'.pc.WriteStatus? ==> Remembers(w'.db, k, w'.pc.refetched)) && CopyNamed(w'.pc)
  {
  }

  lemma StepKeepsOutputs(parses: string -> bool, k: Key, outputs: Outputs, w: World, past: State, f: Fault)
    requires k.kind == Identity && OutputsOk(k, outputs, w) && !w.pc.Idle? && !w.pc.Enrol? && Remembered(k, past, w.db)
    ensures OutputsOk(k, outputs, NextAny(parses, k, w, past, Step(f)))
  {
    var op := NextOp(k, w.pc);
    StepKeepsCopies(parses, k, w, past, f);
    OutputsStay(k, outputs, w.db, op);
    assert NextAny(parses, k, w, past, Step(f)).db in {w.db, Effect(w.db, op).db};
  }

  lemma EventKeepsOutputs(parses: string -> bool, k: Key, outputs: Outputs, w: World, past: State, e: Event)
    requires k.kind == Identity && OutputsOk(k, outputs, w) && PermitsAny(k, w, e) && Remembered(k, past, w.db)
    ensures OutputsOk(k, outputs, NextAny(parses, k, w, past, e))
  {
    match e
    case Fetch(_) =>
    case Ca(_) =>
    case Other(op) =>
      OutputsStay(k, outputs, w.db, op);
      if w.pc.WriteStatus? {
        EffectKeepsMemory(w.db, op, k, w.pc.refetched);
      }
    case Step(f) => StepKeepsOutputs(parses, k, outputs, w, past, f);
  }

  /** The store changes by one call at most. */
  lemma StoreMoves(parses: string -> bool, k: Key, w: World, past: State, e: Event)
    requires PermitsAny(k, w, e)
    ensures var db := NextAny(parses, k, w, past, e).db; db == w.db || exists op :: db == Effect(w.db, op).db
  {
    match e
    case Step(f) => assert NextAny(parses, k, w, past, e).db in {w.db, Effect(w.db, NextOp(k, w.pc)).db};
    case _ =>
  }

  lemma {:induction false} AlwaysRemembered(parses: string -> bool, k: Key, w: World, h: seq<Event>, j: nat)
    requires j <= |h| && FollowsAny(parses, k, w, h)
    requires forall i :: 0 <= i <= |h| ==> WellFormed(RunAny(parses, k, w, h[..i]).db)
    ensures Remembered(k, RunAny(parses, k, w, h[..j]).db, RunAny(parses, k, w, h).db)
    decreases |h|
  {
    assert h[..|h|] == h;
    if j < |h| {
      var before, last := h[..|h| - 1], h[|h| - 1];
      assert before[..j] == h[..j] && forall i :: 0 <= i <= |before| ==> before[..i] == h[..i];
      AlwaysRemembered(parses, k, w, before, j);
      var v := RunAny(parses, k, w, before);
      StoreMoves(parses, k, v, PastOf(parses, k, w, before, last), last);
      if op :| RunAny(parses, k, w, h).db == Effect(v.db, op).db {
        RememberedLater(k, RunAny(parses, k, w, h[..j]).db, v.db, op);
      }
    }
  }

  lemma {:induction false} AlwaysOutputsOk(parses: string -> bool, k: Key, outputs: Outputs, w: World, h: seq<Event>)
    requires k.kind == Identity && OutputsOk(k, outputs, w) && FollowsAny(parses, k, w, h)
    ensures forall i :: 0 <= i <= |h| ==> OutputsOk(k, outputs, RunAny(parses, k, w, h[..i]))
    decreases |h|
  {
    assert h[..|h|] == h;
    if h != [] {
      var before, last := h[..|h| - 1], h[|h| - 1];
      AlwaysOutputsOk(parses, k, outputs, w, before);
      assert before[..|before|] == before && forall i :: 0 <= i <= |before| ==> before[..i] == h[..i];
      var f := if last.Fetch? || last.Step? then last.fault else Clear;
      var j := if f.Stale? && f.at < |before| then f.at else |before|;
      AlwaysRemembered(parses, k, w, before, j);
      assert PastOf(parses, k, w, before, last) == RunAny(parses, k, w, before[..j]).db;
      EventKeepsOutputs(parses, k, outputs, RunAny(parses, k, w, before), PastOf(parses, k, w, before, last), last);
    }
  }

  /** The names of the output secrets are set on the copy, but the status goes on
      the identity fetched again: as long as the identity exists the persisted names
      are those it started with, however outdated the reads are, whatever others
      edit or delete, and whether or not its idemix section is consistent. */
  lemma OutputsNeverRecorded(parses: string -> bool, k: Key, w: World, h: seq<Event>)
    requires k.kind == Identity && w.pc.Idle? && WellFormed(w.db) && k in w.db.objects && FollowsAny(parses, k, w, h)
    ensures var w' := RunAny(parses, k, w, h);
            && (k in w'.db.objects ==> w'.db.objects[k].status.outputSecrets == w.db.objects[k].status.outputSecrets)
            && CopyNamed(w'.pc)
  {
    AlwaysOutputsOk(parses, k, w.db.objects[k].status.outputSecrets, w, h);
    assert h[..|h|] == h;
  }
}
