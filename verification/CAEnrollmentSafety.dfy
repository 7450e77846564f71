/** Certificate continuity, the renewal rate, and the enrolment counter. */
module CAEnrollmentSafety {
  import opened Prelude
  import opened ApiServer
  import opened CAEnrollmentProgram

  /** A write of the output secret: when the CA signed its certificate, and when
      the server took the write. */
  datatype Written = Written(signed: int, at: int)

  /** What a run is observed for: the check time of the latest successful
      reconcile, the writes of the secret, and how many of them will never be counted. */
  datatype Ledger = Ledger(lastOk: Option<int>, writes: seq<Written>, uncounted: nat)

  predicate SecretWritten(w: World, e: Event) {
    && e.Store? && e.entry.Mine? && w.pc.PutSecret?
    && !e.entry.op.Get?
    && Perform(w.db, w.db, e.entry.op, e.entry.fault).db != w.db
  }

  /** Is the world about to write a status that counts an enrolment? */
  predicate Counting(pc: Pc) {
    pc.Report? && pc.enrolled
  }

  /** An enrolment that stays uncounted: the answer to the secret write was lost,
      the status write had no effect, or the operator restarted before it. */
  predicate LosesCount(k: Key, w: World, e: Event) {
    && e.Store? && e.entry.Mine?
    && (|| (SecretWritten(w, e) && !Counting(Next(k, w, e).pc))
        || (Counting(w.pc) && Next(k, w, e).db == w.db))
  }

  function Observe(k: Key, w: World, l: Ledger, e: Event): Ledger {
    var w' := Next(k, w, e);
    Ledger(
      if e.Store? && e.entry.Mine? && w'.pc.Report? && w'.pc.ready then
        Some(if w.pc.PutSecret? then w.pc.checked else w.now)
      else l.lastOk,
      if SecretWritten(w, e) then l.writes + [Written(w.pc.issued, w.now)] else l.writes,
      l.uncounted + if LosesCount(k, w, e) then 1 else 0)
  }

  function Watch(k: Key, w: World, h: seq<Event>): Ledger {
    if h == [] then Ledger(None, [], 0)
    else Observe(k, Run(k, w, h[..|h| - 1]), Watch(k, w, h[..|h| - 1]), h[|h| - 1])
  }

  /** A run starts with the enrolment present, nothing being deleted, and the
      reconciler idle. */
  ghost predicate Starts(k: Key, sk: Key, w: World) {
    && k.kind == CAEnrollment && WellFormed(w.db) && w.pc.Idle?
    && k in w.db.objects && !w.db.objects[k].marked && sk == SecretKey(k, w.db.objects[k])
    && (sk in w.db.objects ==> !w.db.objects[sk].marked)
  }

  /** The copy speaks of the same secret and, at equal versions, of the same count. */
  ghost predicate CopyAgrees(k: Key, sk: Key, db: State, me: Obj) {
    && !me.marked && SecretKey(k, me) == sk
    && 0 < me.version < db.next
    && (k in db.objects && db.objects[k].version == me.version ==> db.objects[k].status.count == me.status.count)
  }

  predicate Stored(db: State, sk: Key, atLeast: int) {
    && sk in db.objects && db.objects[sk].spec.CertSecret? && db.objects[sk].spec.cert.Some?
    && db.objects[sk].spec.cert.value.Readable? && db.objects[sk].spec.cert.value.notAfter >= atLeast
  }

  ghost predicate StoreOk(k: Key, sk: Key, db: State) {
    && WellFormed(db)
    && k in db.objects && !db.objects[k].marked && SecretKey(k, db.objects[k]) == sk
    && (sk in db.objects ==> !db.objects[sk].marked)
  }

  ghost predicate PcOk(k: Key, sk: Key, db: State, pc: Pc) {
    && !pc.DeleteSecret? && !pc.RemoveFinalizer?
    && (!pc.Idle? ==> CopyAgrees(k, sk, db, pc.me))
    && (pc.Report? ==> pc.verdict.count == pc.me.status.count + if pc.enrolled then 1 else 0)
  }

  /** The times a reconcile carries are in order. */
  predicate TimesOk(w: World, l: Ledger, lifetime: int) {
    && (l.lastOk.Some? ==> l.lastOk.value <= w.now)
    && (w.pc.Enroll? ==> w.pc.checked <= w.now)
    && (w.pc.GetExisting? || w.pc.PutSecret? ==>
        && w.pc.checked <= w.pc.issued <= w.now
        && w.pc.notAfter >= w.pc.issued + lifetime
        && (l.lastOk.Some? ==> l.lastOk.value <= w.pc.issued))
    && forall i :: 0 <= i < |l.writes| ==> l.writes[i].signed <= l.writes[i].at <= w.now
  }

  /** How far a successful reconcile reaches: 30 days, or the lifetime if shorter. */
  function Reach(lifetime: int): int {
    if lifetime < RENEWAL then lifetime else RENEWAL
  }

  function Last(l: Ledger): Written
    requires l.writes != []
  {
    l.writes[|l.writes| - 1]
  }

  /** What the ledger says about the secret. */
  predicate SecretOk(sk: Key, db: State, l: Ledger, lifetime: int) {
    && (l.lastOk.Some? ==> Stored(db, sk, l.lastOk.value + Reach(lifetime)))
    && (l.writes != [] ==> Stored(db, sk, Last(l).signed + lifetime))
  }

  /** The later certificate is signed after the earlier one was written, and more
      than the lifetime less 30 days after that one was signed. */
  predicate Apart(earlier: Written, later: Written, lifetime: int) {
    && later.signed - earlier.signed > lifetime - RENEWAL
    && later.signed >= earlier.at
  }

  /** A renewal under way was decided late enough after the previous write. */
  predicate GapOk(pc: Pc, l: Ledger, lifetime: int) {
    && (l.writes != [] && (pc.Enroll? || pc.GetExisting? || pc.PutSecret?) ==>
        pc.checked > Last(l).signed + lifetime - RENEWAL && pc.checked >= Last(l).at)
    && forall i :: 0 <= i < |l.writes| - 1 ==> Apart(l.writes[i], l.writes[i + 1], lifetime)
  }

  predicate CountOk(k: Key, w: World, l: Ledger, count0: int) {
    && k in w.db.objects
    && |l.writes| == w.db.objects[k].status.count - count0 + l.uncounted + if Counting(w.pc) then 1 else 0
  }

  /** A call that keeps the enrolment's specification and deletes nothing. */
  predicate Conservative(k: Key, sk: Key, db: State, op: Call) {
    && !(op.Delete? && op.key in {k, sk})
    && (op.Update? && op.key == k ==> SecretKey(k, op.obj) == sk)
  }

  lemma StoreStays(k: Key, sk: Key, db: State, op: Call)
    requires k != sk && StoreOk(k, sk, db) && Conservative(k, sk, db, op)
    ensures StoreOk(k, sk, Effect(db, op).db)
  {
    EffectKeepsWellFormed(db, op);
  }

  lemma CopyStays(k: Key, sk: Key, db: State, op: Call, me: Obj)
    requires StoreOk(k, sk, db) && CopyAgrees(k, sk, db, me) && Conservative(k, sk, db, op)
    ensures CopyAgrees(k, sk, Effect(db, op).db, me)
  {
  }

  /** What the server hands back is a copy that agrees. */
  lemma AnswerAgrees(k: Key, sk: Key, db: State, op: Call)
    requires StoreOk(k, sk, db) && Conservative(k, sk, db, op)
    requires op.key == k && !op.Create? && !op.Delete? && Effect(db, op).reply.Ok?
    ensures CopyAgrees(k, sk, Effect(db, op).db, Effect(db, op).reply.stored)
  {
  }

  lemma ProgramIsConservative(k: Key, sk: Key, db: State, pc: Pc, op: Call)
    requires k.kind == CAEnrollment && StoreOk(k, sk, db) && PcOk(k, sk, db, pc) && Expects(k, pc, op)
    ensures Conservative(k, sk, db, op)
    ensures k != sk && op.key in {k, sk} && (op.Update? ==> op.obj.version != 0 || op.key == sk)
  {
  }

  /** The others change nothing the invariant speaks of. */
  lemma OthersKeep(k: Key, sk: Key, w: World, op: Call, l: Ledger, lifetime: int, count0: int)
    requires k.kind == CAEnrollment && StoreOk(k, sk, w.db) && PcOk(k, sk, w.db, w.pc)
    requires SecretOk(sk, w.db, l, lifetime) && CountOk(k, w, l, count0) && OthersMay(k, sk, w.db, op)
    ensures var w' := Next(k, w, Store(Other(op)));
            && StoreOk(k, sk, w'.db) && PcOk(k, sk, w'.db, w'.pc)
            && SecretOk(sk, w'.db, l, lifetime) && CountOk(k, w', l, count0)
  {
    StoreStays(k, sk, w.db, op);
    if !w.pc.Idle? {
      CopyStays(k, sk, w.db, op, w.pc.me);
    }
  }

  /** One call of the program keeps the store in shape and its copy faithful. */
  lemma MineKeepsStore(k: Key, sk: Key, w: World, op: Call, f: Fault)
    requires k.kind == CAEnrollment && StoreOk(k, sk, w.db) && PcOk(k, sk, w.db, w.pc)
    requires Expects(k, w.pc, op) && !f.Stale?
    ensures var w' := Next(k, w, Store(Mine(op, f)));
            StoreOk(k, sk, w'.db) && PcOk(k, sk, w'.db, w'.pc)
  {
    var db := w.db;
    var out := Perform(db, db, op, f);
    ProgramIsConservative(k, sk, db, w.pc, op);
    StoreStays(k, sk, db, op);
    if !w.pc.Idle? {
      CopyStays(k, sk, db, op, w.pc.me);
    }
    if op.key == k && out.reply.Ok? {
      AnswerAgrees(k, sk, db, op);
    }
    var db', reply := out.db, out.reply;
    assert op.key == k && reply.Ok? ==> CopyAgrees(k, sk, db', reply.stored);
    assert !w.pc.Idle? ==> CopyAgrees(k, sk, db', w.pc.me);
    ResumeKeepsCopy(k, sk, db', w.pc, op, reply, w.now);
  }

  lemma ResumeKeepsCopy(k: Key, sk: Key, db: State, pc: Pc, op: Call, reply: Answer, now: int)
    requires k.kind == CAEnrollment && k != sk && Expects(k, pc, op)
    requires PcOk(k, sk, db, pc)
    requires op.key == k && reply.Ok? ==> CopyAgrees(k, sk, db, reply.stored)
    ensures PcOk(k, sk, db, Resume(k, pc, op, reply, now))
  {
  }

  /** What one call of the program does to the output secret. */
  lemma SecretChange(k: Key, sk: Key, w: World, op: Call, f: Fault)
    requires k.kind == CAEnrollment && StoreOk(k, sk, w.db) && PcOk(k, sk, w.db, w.pc)
    requires Expects(k, w.pc, op) && !f.Stale?
    ensures var e := Store(Mine(op, f)); var db' := Next(k, w, e).db;
            if SecretWritten(w, e)
            then Stored(db', sk, w.pc.notAfter) && db'.objects[sk].spec.cert.value.notAfter == w.pc.notAfter
            else
              && (sk in db'.objects <==> sk in w.db.objects)
              && (sk in w.db.objects ==> db'.objects[sk] == w.db.objects[sk])
  {
    ProgramIsConservative(k, sk, w.db, w.pc, op);
  }

  /** What a look at the secret decides. */
  lemma CheckDecides(k: Key, sk: Key, w: World, f: Fault, l: Ledger, lifetime: int)
    requires k.kind == CAEnrollment && w.pc.CheckSecret? && PcOk(k, sk, w.db, w.pc) && SecretOk(sk, w.db, l, lifetime)
    requires !f.Stale?
    ensures var pc' := Next(k, w, Store(Mine(NextOp(k, w.pc), f))).pc;
            && (pc'.Report? && pc'.ready ==> Stored(w.db, sk, w.now + RENEWAL))
            && (pc'.Enroll? && l.writes != [] ==> w.now > Last(l).signed + lifetime - RENEWAL)
  {
    assert NextOp(k, w.pc) == Get(sk);
  }

  /** How a call moves the reconciler through a renewal. */
  lemma RenewalMoves(k: Key, w: World, op: Call, f: Fault)
    requires Expects(k, w.pc, op)
    ensures var pc' := Next(k, w, Store(Mine(op, f))).pc;
            && (pc'.Enroll? ==> w.pc.CheckSecret? && op == NextOp(k, w.pc) && pc'.checked == w.now)
            && (pc'.PutSecret? ==>
                w.pc.GetExisting? &&
                (pc'.checked, pc'.issued, pc'.notAfter) == (w.pc.checked, w.pc.issued, w.pc.notAfter))
            && !pc'.GetExisting?
            && (pc'.Report? && pc'.ready ==>
                op == NextOp(k, w.pc) &&
                (pc'.enrolled <==> w.pc.PutSecret?) && (!pc'.enrolled <==> w.pc.CheckSecret?))
            && (pc'.Report? && pc'.enrolled ==> pc'.ready && SecretWritten(w, Store(Mine(op, f))))
            && (SecretWritten(w, Store(Mine(op, f))) ==> pc'.Report?)
  {
  }

  /** One call of the program keeps the times, the secret and the gaps in order. */
  lemma MineKeepsRenewal(k: Key, sk: Key, w: World, op: Call, f: Fault, l: Ledger, lifetime: int)
    requires k.kind == CAEnrollment && StoreOk(k, sk, w.db) && PcOk(k, sk, w.db, w.pc)
    requires TimesOk(w, l, lifetime) && SecretOk(sk, w.db, l, lifetime) && GapOk(w.pc, l, lifetime)
    requires Expects(k, w.pc, op) && !f.Stale?
    ensures var e := Store(Mine(op, f)); var w', l' := Next(k, w, e), Observe(k, w, l, e);
            TimesOk(w', l', lifetime) && SecretOk(sk, w'.db, l', lifetime) && GapOk(w'.pc, l', lifetime)
  {
    RenewalMoves(k, w, op, f);
    SecretChange(k, sk, w, op, f);
    if w.pc.CheckSecret? && op == NextOp(k, w.pc) {
      CheckDecides(k, sk, w, f, l, lifetime);
    }
  }

  /** One call of the program keeps the count. */
  lemma MineKeepsCount(k: Key, sk: Key, w: World, op: Call, f: Fault, l: Ledger, count0: int)
    requires k.kind == CAEnrollment && StoreOk(k, sk, w.db) && PcOk(k, sk, w.db, w.pc)
    requires CountOk(k, w, l, count0)
    requires Expects(k, w.pc, op) && !f.Stale?
    ensures var e := Store(Mine(op, f)); CountOk(k, Next(k, w, e), Observe(k, w, l, e), count0)
  {
    RenewalMoves(k, w, op, f);
    CountChange(k, sk, w, op, f);
  }

  /** What one call of the program does to the persisted count. */
  lemma CountChange(k: Key, sk: Key, w: World, op: Call, f: Fault)
    requires k.kind == CAEnrollment && StoreOk(k, sk, w.db) && PcOk(k, sk, w.db, w.pc)
    requires Expects(k, w.pc, op) && !f.Stale?
    ensures var db' := Next(k, w, Store(Mine(op, f))).db;
            && k in db'.objects
            && db'.objects[k].status.count ==
               w.db.objects[k].status.count + if Counting(w.pc) && db' != w.db then 1 else 0
  {
    ProgramIsConservative(k, sk, w.db, w.pc, op);
    StoreStays(k, sk, w.db, op);
  }

  ghost predicate Inv(k: Key, sk: Key, w: World, l: Ledger, lifetime: int, count0: int) {
    && StoreOk(k, sk, w.db) && PcOk(k, sk, w.db, w.pc) && TimesOk(w, l, lifetime)
    && SecretOk(sk, w.db, l, lifetime) && GapOk(w.pc, l, lifetime) && CountOk(k, w, l, count0)
  }

  lemma EventKeepsInv(k: Key, sk: Key, w: World, e: Event, l: Ledger, lifetime: int, count0: int)
    requires k.kind == CAEnrollment
    requires Inv(k, sk, w, l, lifetime, count0) && Permits(k, sk, lifetime, w, e)
    ensures Inv(k, sk, Next(k, w, e), Observe(k, w, l, e), lifetime, count0)
  {
    match e
    case Tick(_) =>
    case Issue(_) =>
    case Store(Other(op)) => OthersKeep(k, sk, w, op, l, lifetime, count0);
    case Store(Mine(op, f)) =>
      MineKeepsStore(k, sk, w, op, f);
      MineKeepsRenewal(k, sk, w, op, f, l, lifetime);
      MineKeepsCount(k, sk, w, op, f, l, count0);
  }

  lemma {:induction false} AlwaysInv(k: Key, sk: Key, w: World, h: seq<Event>, lifetime: int)
    requires Starts(k, sk, w) && Follows(k, sk, lifetime, w, h)
    ensures Inv(k, sk, Run(k, w, h), Watch(k, w, h), lifetime, w.db.objects[k].status.count)
    decreases |h|
  {
    if h != [] {
      var before := h[..|h| - 1];
      AlwaysInv(k, sk, w, before, lifetime);
      EventKeepsInv(k, sk, Run(k, w, before), h[|h| - 1], Watch(k, w, before), lifetime, w.db.objects[k].status.count);
    }
  }

  /** Certificate continuity.  Whenever the latest successful reconcile is at most
      `d` seconds back, the stored certificate is readable and stays valid for
      another 30 days (or the CA's lifetime, if shorter) less `d`; failures in
      between change nothing. */
  lemma Continuity(k: Key, sk: Key, w: World, h: seq<Event>, lifetime: int, d: int)
    requires Starts(k, sk, w) && Follows(k, sk, lifetime, w, h)
    requires Watch(k, w, h).lastOk.Some? && Run(k, w, h).now <= Watch(k, w, h).lastOk.value + d
    ensures Stored(Run(k, w, h).db, sk, Run(k, w, h).now + (Reach(lifetime) - d))
  {
    AlwaysInv(k, sk, w, h, lifetime);
  }

  /** With the 24-hour requeue that leaves 29 days. */
  lemma DailyRequeueSlack(k: Key, sk: Key, w: World, h: seq<Event>, lifetime: int)
    requires Starts(k, sk, w) && Follows(k, sk, lifetime, w, h) && lifetime >= RENEWAL
    requires Watch(k, w, h).lastOk.Some? && Run(k, w, h).now <= Watch(k, w, h).lastOk.value + 24 * 3600
    ensures Stored(Run(k, w, h).db, sk, Run(k, w, h).now + 29 * 24 * 3600)
  {
    Continuity(k, sk, w, h, lifetime, 24 * 3600);
  }

  /** Writes whose signing times are consecutively more than `gap` apart spread out. */
  lemma {:induction false} Spread(writes: seq<Written>, gap: int, i: nat, j: nat)
    requires i <= j < |writes|
    requires forall m :: 0 <= m < |writes| - 1 ==> writes[m + 1].signed - writes[m].signed > gap
    ensures (j - i) * (gap + 1) <= writes[j].signed - writes[i].signed
    decreases j
  {
    if i < j {
      Spread(writes, gap, i, j - 1);
      assert (j - i) * (gap + 1) == (j - 1 - i) * (gap + 1) + (gap + 1);
    }
  }

  /** Two consecutive writes of the secret, the earlier of which came `delay`
      after its certificate was signed, are more than lifetime - 30 days - `delay`
      apart, and never out of order. */
  lemma ConsecutiveWrites(k: Key, sk: Key, w: World, h: seq<Event>, lifetime: int, i: nat)
    requires Starts(k, sk, w) && Follows(k, sk, lifetime, w, h) && i + 1 < |Watch(k, w, h).writes|
    ensures var earlier, later := Watch(k, w, h).writes[i], Watch(k, w, h).writes[i + 1];
            && earlier.signed <= earlier.at <= later.signed <= later.at <= Run(k, w, h).now
            && later.at - earlier.at > lifetime - RENEWAL - (earlier.at - earlier.signed)
  {
    AlwaysInv(k, sk, w, h, lifetime);
    assert Apart(Watch(k, w, h).writes[i], Watch(k, w, h).writes[i + 1], lifetime);
  }

  /** Renewal rate: `n` writes of the secret within a window of `length` seconds
      satisfy n <= 1 + (length + delay) / (lifetime - 30 days), where `delay` is
      how long the first of them took from signing to storing; here without the
      division, and with the second that makes the inequality strict. */
  lemma RateBound(k: Key, sk: Key, w: World, h: seq<Event>, lifetime: int, i: nat, n: nat, from: int, length: nat,
                  delay: nat)
    requires n > 0
    requires Starts(k, sk, w) && Follows(k, sk, lifetime, w, h)
    requires var writes := Watch(k, w, h).writes;
             && i + n <= |writes| && writes[i].at - writes[i].signed <= delay
             && forall j :: i <= j < i + n ==> from <= writes[j].at <= from + length
    ensures (n - 1) * (lifetime - RENEWAL + 1) <= length + delay
  {
    AlwaysInv(k, sk, w, h, lifetime);
    var writes, j := Watch(k, w, h).writes, i + n - 1;
    assert forall m :: 0 <= m < |writes| - 1 ==> Apart(writes[m], writes[m + 1], lifetime);
    Spread(writes, lifetime - RENEWAL, i, j);
    assert from <= writes[i].at && writes[j].at <= from + length;
    assert n - 1 == j - i;
  }

  /** One more event of a run. */
  lemma Extend(k: Key, sk: Key, lifetime: int, w: World, h: seq<Event>, e: Event)
    requires Follows(k, sk, lifetime, w, h) && Permits(k, sk, lifetime, Run(k, w, h), e)
    ensures Follows(k, sk, lifetime, w, h + [e])
    ensures Run(k, w, h + [e]) == Next(k, Run(k, w, h), e)
    ensures Watch(k, w, h + [e]) == Observe(k, Run(k, w, h), Watch(k, w, h), e)
  {
    assert (h + [e])[..|h|] == h;
  }

  /** An enrolment with its finalizer and without a secret. */
  function Enrolled(): Obj {
    Object(Enrollment("out"), EnrollStatus("Ready", "", 0, None), map[], map[], [FINALIZER], false, None, 1)
  }

  /** A served call of the reconciler. */
  function Served(op: Call): Event {
    Store(Mine(op, Clear))
  }

  /** An enrolment whose secret can be reconciled right away. */
  predicate Settled(k: Key, sk: Key, me: Obj) {
    && k.kind == CAEnrollment && sk.kind == Secret
    && me.status.status != "" && !me.marked && me.finalizers == [FINALIZER] && SecretKey(k, me) == sk
  }

  /** The fetch, the look at a secret that is due, and the certificate. */
  lemma SigningSteps(k: Key, sk: Key, lifetime: int, v: World, l: Ledger, me: Obj)
    requires Settled(k, sk, me) && k in v.db.objects && v.db.objects[k] == me
    requires sk in v.db.objects ==> NeedsRenewal(v.db.objects[sk], v.now)
    ensures Next(k, v, Served(Get(k))) == v.(pc := CheckSecret(me))
    ensures Observe(k, v, l, Served(Get(k))).writes == l.writes
    ensures var v1 := v.(pc := CheckSecret(me));
            && Permits(k, sk, lifetime, v1, Served(Get(sk)))
            && Next(k, v1, Served(Get(sk))) == v.(pc := Enroll(me, v.now))
            && Observe(k, v1, l, Served(Get(sk))).writes == l.writes
  {
  }

  /** From fetch to the decision to enrol. */
  lemma LookNow(k: Key, sk: Key, lifetime: int, w: World, h: seq<Event>, me: Obj) returns (h': seq<Event>)
    requires Settled(k, sk, me) && Follows(k, sk, lifetime, w, h)
    requires var v := Run(k, w, h);
             && k in v.db.objects && v.db.objects[k] == me
             && (sk in v.db.objects ==> NeedsRenewal(v.db.objects[sk], v.now))
    ensures Follows(k, sk, lifetime, w, h') && Watch(k, w, h').writes == Watch(k, w, h).writes
    ensures Run(k, w, h') == Run(k, w, h).(pc := Enroll(me, Run(k, w, h).now))
  {
    var v := Run(k, w, h);
    SigningSteps(k, sk, lifetime, v, Watch(k, w, h), me);
    Extend(k, sk, lifetime, w, h, Served(Get(k)));
    SigningSteps(k, sk, lifetime, v, Watch(k, w, h + [Served(Get(k))]), me);
    Extend(k, sk, lifetime, w, h + [Served(Get(k))], Served(Get(sk)));
    h' := h + [Served(Get(k))] + [Served(Get(sk))];
  }

  /** From fetch to certificate. */
  lemma SignNow(k: Key, sk: Key, lifetime: int, w: World, h: seq<Event>, me: Obj) returns (h': seq<Event>)
    requires Settled(k, sk, me) && Follows(k, sk, lifetime, w, h)
    requires var v := Run(k, w, h);
             && k in v.db.objects && v.db.objects[k] == me
             && (sk in v.db.objects ==> NeedsRenewal(v.db.objects[sk], v.now))
    ensures Follows(k, sk, lifetime, w, h') && Watch(k, w, h').writes == Watch(k, w, h).writes
    ensures var v := Run(k, w, h);
            Run(k, w, h') == World(v.now, v.db, GetExisting(me, v.now, v.now, v.now + lifetime))
  {
    h' := LookNow(k, sk, lifetime, w, h, me);
    var issue := Issue(Some(Run(k, w, h).now + lifetime));
    Extend(k, sk, lifetime, w, h', issue);
    h' := h' + [issue];
  }

  /** The call that stores the certificate in hand. */
  function Renewed(k: Key, sk: Key, v: World): Call
    requires v.pc.GetExisting?
  {
    var existing := if sk in v.db.objects then Some(v.db.objects[sk]) else None;
    NextOp(k, PutSecret(v.pc.me, v.pc.checked, v.pc.issued, v.pc.notAfter, existing))
  }

  lemma LookAgain(k: Key, sk: Key, v: World, l: Ledger)
    requires k.kind == CAEnrollment && v.pc.GetExisting? && SecretKey(k, v.pc.me) == sk
    ensures var v' := Next(k, v, Served(Get(sk)));
            && v' == v.(pc := v'.pc) && v'.pc.PutSecret? && v'.pc.issued == v.pc.issued
            && NextOp(k, v'.pc) == Renewed(k, sk, v)
    ensures Observe(k, v, l, Served(Get(sk))) == l
  {
  }

  lemma PutRenewed(k: Key, sk: Key, v: World)
    requires k.kind == CAEnrollment && v.pc.GetExisting? && SecretKey(k, v.pc.me) == sk && WellFormed(v.db)
    requires sk in v.db.objects ==> !v.db.objects[sk].marked
    ensures var db := Effect(v.db, Renewed(k, sk, v)).db;
            && WellFormed(db) && db != v.db && sk in db.objects && !db.objects[sk].marked
            && db.objects[sk].spec == CertSecret(Some(Readable(v.pc.notAfter)))
            && (k in v.db.objects ==> k in db.objects && db.objects[k] == v.db.objects[k])
  {
    EffectKeepsWellFormed(v.db, Renewed(k, sk, v));
    assert Effect(v.db, Renewed(k, sk, v)).db.next == v.db.next + 1;
  }

  /** From certificate to secret. */
  lemma StoreNow(k: Key, sk: Key, lifetime: int, w: World, h: seq<Event>) returns (h': seq<Event>)
    requires k.kind == CAEnrollment && Follows(k, sk, lifetime, w, h)
    requires var v := Run(k, w, h);
             && v.pc.GetExisting? && SecretKey(k, v.pc.me) == sk && WellFormed(v.db)
             && (sk in v.db.objects ==> !v.db.objects[sk].marked)
    ensures Follows(k, sk, lifetime, w, h')
    ensures var v, v' := Run(k, w, h), Run(k, w, h');
            && v'.now == v.now && v'.db == Effect(v.db, Renewed(k, sk, v)).db
            && Watch(k, w, h').writes == Watch(k, w, h).writes + [Written(v.pc.issued, v.now)]
  {
    var v := Run(k, w, h);
    LookAgain(k, sk, v, Watch(k, w, h));
    PutRenewed(k, sk, v);
    Extend(k, sk, lifetime, w, h, Served(Get(sk)));
    Extend(k, sk, lifetime, w, h + [Served(Get(sk))], Served(Renewed(k, sk, v)));
    h' := h + [Served(Get(sk))] + [Served(Renewed(k, sk, v))];
  }

  /** A first certificate, signed at 0 and stored after `delay`. */
  lemma LateWrite(k: Key, lifetime: int, delay: nat) returns (w: World, h: seq<Event>)
    requires k.kind == CAEnrollment
    ensures var sk := Key(Secret, k.namespace, "out");
            && Starts(k, sk, w) && Follows(k, sk, lifetime, w, h)
            && var v := Run(k, w, h);
               && v.now == delay && Watch(k, w, h).writes == [Written(0, delay)]
               && WellFormed(v.db) && k in v.db.objects && v.db.objects[k] == Enrolled()
               && sk in v.db.objects && !v.db.objects[sk].marked
               && v.db.objects[sk].spec == CertSecret(Some(Readable(lifetime)))
  {
    var sk := Key(Secret, k.namespace, "out");
    w := World(0, Db(map[k := Enrolled()], 2), Idle);
    h := SignNow(k, sk, lifetime, w, [], Enrolled());
    Extend(k, sk, lifetime, w, h, Tick(delay));
    h := h + [Tick(delay)];
    PutRenewed(k, sk, Run(k, w, h));
    h := StoreNow(k, sk, lifetime, w, h);
  }

  /** The first instant at which a certificate signed at 0 is due, or 0. */
  function DueAt(lifetime: int): nat {
    if lifetime < RENEWAL then 0 else lifetime - RENEWAL + 1
  }

  /** A run whose second write comes as early as the first one's delay allows. */
  lemma EarlyRenewal(k: Key, lifetime: int, delay: nat) returns (w: World, h: seq<Event>)
    requires k.kind == CAEnrollment && delay <= DueAt(lifetime)
    ensures Starts(k, Key(Secret, k.namespace, "out"), w)
    ensures Follows(k, Key(Secret, k.namespace, "out"), lifetime, w, h)
    ensures var due := DueAt(lifetime);
            Watch(k, w, h).writes == [Written(0, delay), Written(due, due)]
  {
    var sk, wait := Key(Secret, k.namespace, "out"), Tick(DueAt(lifetime) - delay);
    w, h := LateWrite(k, lifetime, delay);
    Extend(k, sk, lifetime, w, h, wait);
    h := SignNow(k, sk, lifetime, w, h + [wait], Enrolled());
    h := StoreNow(k, sk, lifetime, w, h);
  }

  /** A write that came at most `delay` after its signing is followed by the next
      one no sooner than `gap` seconds later. */
  predicate Gaps(writes: seq<Written>, delay: nat, gap: int) {
    forall i: nat :: i + 1 < |writes| && writes[i].at - writes[i].signed <= delay ==>
      writes[i + 1].at - writes[i].at >= gap
  }

  /** So it is in every run. */
  ghost predicate GapHolds(k: Key, lifetime: int, delay: nat, gap: int) {
    forall sk, w, h :: Starts(k, sk, w) && Follows(k, sk, lifetime, w, h) ==> Gaps(Watch(k, w, h).writes, delay, gap)
  }

  /** Exactly the gaps up to lifetime - 30 days + 1 - `delay` are guaranteed.  So
      writes are more than lifetime - 30 days apart in every run if and only if
      they come the instant their certificates are signed; and with a delay beyond
      that two writes may even come at one instant. */
  lemma GapHoldsIff(k: Key, lifetime: int, delay: nat, gap: int)
    requires k.kind == CAEnrollment
    ensures GapHolds(k, lifetime, delay, gap) <==>
            gap <= if delay <= DueAt(lifetime) then DueAt(lifetime) - delay else 0
  {
    var d := if delay <= DueAt(lifetime) then delay else DueAt(lifetime);
    if gap <= DueAt(lifetime) - d {
      forall sk, w, h | Starts(k, sk, w) && Follows(k, sk, lifetime, w, h)
        ensures Gaps(Watch(k, w, h).writes, delay, gap)
      {
        var writes := Watch(k, w, h).writes;
        forall i: nat | i + 1 < |writes| && writes[i].at - writes[i].signed <= delay
          ensures writes[i + 1].at - writes[i].at >= gap
        {
          ConsecutiveWrites(k, sk, w, h, lifetime, i);
        }
      }
    } else {
      var w, h := EarlyRenewal(k, lifetime, d);
      var writes := Watch(k, w, h).writes;
      assert writes[0 + 1].at - writes[0].at < gap && !Gaps(writes, delay, gap);
    }
  }

  /** The persisted count lags behind the secret writes by exactly the writes
      that were lost on the way to the status, plus one on its way. */
  lemma CountExact(k: Key, sk: Key, w: World, h: seq<Event>, lifetime: int)
    requires Starts(k, sk, w) && Follows(k, sk, lifetime, w, h)
    ensures var w', l := Run(k, w, h), Watch(k, w, h);
            && k in w'.db.objects
            && var counted := w'.db.objects[k].status.count - w.db.objects[k].status.count;
               && counted <= |l.writes|
               && (counted == |l.writes| <==> l.uncounted == 0 && !Counting(w'.pc))
  {
    AlwaysInv(k, sk, w, h, lifetime);
  }
}
