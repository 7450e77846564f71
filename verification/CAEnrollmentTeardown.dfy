/** The finalizer of a CAEnrollment: it goes only after the output secret, it is on
    before that is written, and so no secret outlives its enrolment. */
module CAEnrollmentTeardown {
  import opened ApiServer
  import opened CAEnrollmentProgram

  predicate Live(db: State, key: Key) {
    key in db.objects && !db.objects[key].marked
  }

  predicate Carries(db: State, k: Key) {
    k in db.objects && FINALIZER in db.objects[k].finalizers
  }

  /** The others may edit and delete anything, the enrolment included; they only
      create no secrets. */
  predicate OthersMayDelete(op: Call) {
    op.Create? ==> op.key.kind != Secret
  }

  predicate PermitsDeletion(k: Key, w: World, e: Event) {
    match e
    case Tick(_) => true
    case Store(Other(op)) => OthersMayDelete(op)
    case Store(Mine(op, f)) => Expects(k, w.pc, op) && !f.Stale?
    case Issue(_) => w.pc.Enroll?
  }

  predicate FollowsDeletion(k: Key, w: World, h: seq<Event>) {
    h == [] || (
      && FollowsDeletion(k, w, h[..|h| - 1])
      && PermitsDeletion(k, Run(k, w, h[..|h| - 1]), h[|h| - 1]))
  }

  /** The copy is of the stored specification if the versions agree. */
  ghost predicate Current(k: Key, db: State, me: Obj) {
    && 0 < me.version < db.next
    && (k in db.objects && db.objects[k].version == me.version ==> db.objects[k].spec == me.spec)
  }

  /** Before the finalizer is removed the secret is gone or marked. */
  ghost predicate Knows(k: Key, w: World) {
    && WellFormed(w.db)
    && (!w.pc.Idle? ==> Current(k, w.db, w.pc.me))
    && (w.pc.RemoveFinalizer? ==> !Live(w.db, SecretKey(k, w.pc.me)))
  }

  /** Only a create makes a secret live. */
  lemma LiveOnlyByCreate(db: State, op: Call, key: Key)
    ensures Live(Effect(db, op).db, key) && !Live(db, key) ==> op.Create? && op.key == key
  {
  }

  lemma CurrentStays(k: Key, db: State, op: Call, me: Obj)
    requires Current(k, db, me)
    ensures Current(k, Effect(db, op).db, me)
  {
  }

  lemma AnswerCurrent(k: Key, db: State, op: Call)
    requires WellFormed(db) && op.key == k && !op.Create? && !op.Delete? && Effect(db, op).reply.Ok?
    ensures Current(k, Effect(db, op).db, Effect(db, op).reply.stored)
  {
  }

  lemma OthersKeepKnowledge(k: Key, w: World, op: Call)
    requires Knows(k, w) && OthersMayDelete(op)
    ensures Knows(k, Next(k, w, Store(Other(op))))
  {
    EffectKeepsWellFormed(w.db, op);
    if !w.pc.Idle? {
      CurrentStays(k, w.db, op, w.pc.me);
    }
    if w.pc.RemoveFinalizer? {
      LiveOnlyByCreate(w.db, op, SecretKey(k, w.pc.me));
    }
  }

  /** The copy the program goes on with is one it had or was just given. */
  lemma CopyOf(k: Key, pc: Pc, op: Call, reply: Answer, now: int)
    requires k.kind == CAEnrollment && Expects(k, pc, op)
    ensures var pc' := Resume(k, pc, op, reply, now);
            pc'.Idle?
            || (!pc.Idle? && pc'.me.version == pc.me.version && pc'.me.spec == pc.me.spec)
            || (reply.Ok? && op.key == k && !op.Create? && !op.Delete? && pc'.me == reply.stored)
  {
  }

  /** One call of the program. */
  lemma CallKeepsKnowledge(k: Key, w: World, op: Call, f: Fault)
    requires k.kind == CAEnrollment && Knows(k, w) && Expects(k, w.pc, op) && !f.Stale?
    ensures Knows(k, Next(k, w, Store(Mine(op, f))))
  {
    EffectKeepsWellFormed(w.db, op);
    var out := Perform(w.db, w.db, op, f);
    CopyOf(k, w.pc, op, out.reply, w.now);
    if !w.pc.Idle? {
      CurrentStays(k, w.db, op, w.pc.me);
    }
    if out.reply.Ok? && op.key == k && !op.Create? && !op.Delete? {
      AnswerCurrent(k, w.db, op);
    }
  }

  lemma {:induction false} AlwaysKnows(k: Key, w: World, h: seq<Event>)
    requires k.kind == CAEnrollment && WellFormed(w.db) && w.pc.Idle? && FollowsDeletion(k, w, h)
    ensures Knows(k, Run(k, w, h))
    decreases |h|
  {
    if h != [] {
      var before := h[..|h| - 1];
      AlwaysKnows(k, w, before);
      match h[|h| - 1]
      case Tick(_) =>
      case Issue(_) =>
      case Store(Other(op)) => OthersKeepKnowledge(k, Run(k, w, before), op);
      case Store(Mine(op, f)) => CallKeepsKnowledge(k, Run(k, w, before), op, f);
    }
  }

  /** The finalizer goes last: in every run, a call of the controller after which the
      enrolment no longer carries its finalizer finds the output secret it names
      gone or marked, and leaves it so. */
  lemma FinalizerGoesLast(k: Key, w: World, h: seq<Event>, op: Call, f: Fault)
    requires k.kind == CAEnrollment && WellFormed(w.db) && w.pc.Idle?
    requires FollowsDeletion(k, w, h) && PermitsDeletion(k, Run(k, w, h), Store(Mine(op, f)))
    requires var v := Run(k, w, h); Carries(v.db, k) && !Carries(Next(k, v, Store(Mine(op, f))).db, k)
    ensures var v := Run(k, w, h); var sk := SecretKey(k, v.db.objects[k]);
            !Live(v.db, sk) && !Live(Next(k, v, Store(Mine(op, f))).db, sk)
  {
    AlwaysKnows(k, w, h);
    var v := Run(k, w, h);
    assert v.pc.RemoveFinalizer? && op == NextOp(k, v.pc);
    LiveOnlyByCreate(v.db, op, SecretKey(k, v.pc.me));
  }

  /** A point at which the secret may still be written. */
  predicate Working(pc: Pc) {
    pc.CheckSecret? || pc.Enroll? || pc.GetExisting? || pc.PutSecret?
  }

  /** The others keep the enrolment's specification and finalizer and create neither
      it nor its secret; they may delete both. */
  predicate OthersKeep(k: Key, sk: Key, db: State, op: Call) {
    match op
    case Get(_) => true
    case Create(key, _) => key != k && key != sk
    case Update(key, o) =>
      key == k && k in db.objects ==>
        o.spec == db.objects[k].spec && (FINALIZER in db.objects[k].finalizers ==> FINALIZER in o.finalizers)
    case StatusUpdate(_, _) => true
    case Delete(_) => true
  }

  predicate PermitsGuarded(k: Key, sk: Key, w: World, e: Event) {
    match e
    case Tick(_) => true
    case Store(Other(op)) => OthersKeep(k, sk, w.db, op)
    case Store(Mine(op, f)) => Expects(k, w.pc, op) && !f.Stale?
    case Issue(_) => w.pc.Enroll?
  }

  predicate FollowsGuarded(k: Key, sk: Key, w: World, h: seq<Event>) {
    h == [] || (
      && FollowsGuarded(k, sk, w, h[..|h| - 1])
      && PermitsGuarded(k, sk, Run(k, w, h[..|h| - 1]), h[|h| - 1]))
  }

  ghost predicate StoreGuarded(k: Key, sk: Key, spec: Body, db: State) {
    && WellFormed(db) && (k in db.objects ==> db.objects[k].spec == spec)
    && (Live(db, sk) ==> Carries(db, k))
  }

  /** What the reconcile knows: past the finalizer the enrolment carries it. */
  ghost predicate PcGuarded(k: Key, sk: Key, spec: Body, db: State, pc: Pc) {
    && (!pc.Idle? ==> pc.me.spec == spec)
    && (Working(pc) ==> Carries(db, k) && FINALIZER in pc.me.finalizers)
    && (pc.InitStatus? && FINALIZER in pc.me.finalizers ==> Carries(db, k))
    && (pc.RemoveFinalizer? ==> !Live(db, sk))
  }

  ghost predicate Guarded(k: Key, sk: Key, spec: Body, w: World) {
    StoreGuarded(k, sk, spec, w.db) && PcGuarded(k, sk, spec, w.db, w.pc)
  }

  lemma CarriesStays(k: Key, db: State, op: Call)
    requires Carries(db, k) && (op.Update? && op.key == k ==> FINALIZER in op.obj.finalizers)
    ensures Carries(Effect(db, op).db, k)
  {
  }

  lemma OthersKeepGuarded(k: Key, sk: Key, spec: Body, w: World, op: Call)
    requires k.kind == CAEnrollment && sk.kind == Secret && Guarded(k, sk, spec, w) && OthersKeep(k, sk, w.db, op)
    ensures Guarded(k, sk, spec, Next(k, w, Store(Other(op))))
  {
    EffectKeepsWellFormed(w.db, op);
    LiveOnlyByCreate(w.db, op, sk);
    if Carries(w.db, k) {
      CarriesStays(k, w.db, op);
    }
  }

  /** What a call of the program does to the store. */
  ghost predicate CallRespects(k: Key, sk: Key, spec: Body, w: World, op: Call, f: Fault) {
    var db' := Perform(w.db, w.db, op, f).db;
    && StoreGuarded(k, sk, spec, db')
    && (Carries(w.db, k) && !w.pc.RemoveFinalizer? ==> Carries(db', k))
    && (!Live(w.db, sk) && !w.pc.PutSecret? ==> !Live(db', sk))
  }

  lemma CallKeepsCarries(k: Key, sk: Key, spec: Body, w: World, op: Call, f: Fault)
    requires k.kind == CAEnrollment && sk.kind == Secret && spec.Enrollment?
    requires sk == Key(Secret, k.namespace, spec.outputSecretName)
    requires Guarded(k, sk, spec, w) && Expects(k, w.pc, op)
    ensures Carries(w.db, k) && !w.pc.RemoveFinalizer? ==> Carries(Perform(w.db, w.db, op, f).db, k)
  {
    if Carries(w.db, k) && !w.pc.RemoveFinalizer? {
      CarriesStays(k, w.db, op);
    }
  }

  lemma CallKeepsSpec(k: Key, sk: Key, spec: Body, w: World, op: Call)
    requires k.kind == CAEnrollment && sk.kind == Secret && spec.Enrollment?
    requires sk == Key(Secret, k.namespace, spec.outputSecretName)
    requires Guarded(k, sk, spec, w) && Expects(k, w.pc, op)
    ensures var db' := Effect(w.db, op).db; k in db'.objects ==> db'.objects[k].spec == spec
  {
  }

  lemma CallKeepsStore(k: Key, sk: Key, spec: Body, w: World, op: Call, f: Fault)
    requires k.kind == CAEnrollment && sk.kind == Secret && spec.Enrollment?
    requires sk == Key(Secret, k.namespace, spec.outputSecretName)
    requires Guarded(k, sk, spec, w) && Expects(k, w.pc, op)
    ensures CallRespects(k, sk, spec, w, op, f)
  {
    EffectKeepsWellFormed(w.db, op);
    LiveOnlyByCreate(w.db, op, sk);
    CallKeepsSpec(k, sk, spec, w, op);
    CallKeepsCarries(k, sk, spec, w, op, f);
  }

  /** A fetch. */
  lemma FetchGuarded(k: Key, sk: Key, spec: Body, w: World, op: Call, f: Fault)
    requires k.kind == CAEnrollment && sk.kind == Secret && spec.Enrollment?
    requires sk == Key(Secret, k.namespace, spec.outputSecretName)
    requires Guarded(k, sk, spec, w) && Expects(k, w.pc, op) && !f.Stale? && Fetches(k, op)
    requires CallRespects(k, sk, spec, w, op, f)
    ensures var out := Perform(w.db, w.db, op, f);
            PcGuarded(k, sk, spec, out.db, Resume(k, w.pc, op, out.reply, w.now))
  {
  }

  /** A first status or the finalizer. */
  lemma PreambleGuarded(k: Key, sk: Key, spec: Body, w: World, op: Call, f: Fault)
    requires k.kind == CAEnrollment && sk.kind == Secret && spec.Enrollment?
    requires sk == Key(Secret, k.namespace, spec.outputSecretName)
    requires Guarded(k, sk, spec, w) && Expects(k, w.pc, op) && !f.Stale? && !Fetches(k, op)
    requires w.pc.InitStatus? || w.pc.AddFinalizer?
    requires CallRespects(k, sk, spec, w, op, f)
    ensures var out := Perform(w.db, w.db, op, f);
            PcGuarded(k, sk, spec, out.db, Resume(k, w.pc, op, out.reply, w.now))
  {
  }

  /** A step of the work. */
  lemma WorkGuarded(k: Key, sk: Key, spec: Body, w: World, op: Call, f: Fault)
    requires k.kind == CAEnrollment && sk.kind == Secret && spec.Enrollment?
    requires sk == Key(Secret, k.namespace, spec.outputSecretName)
    requires Guarded(k, sk, spec, w) && Expects(k, w.pc, op) && !f.Stale? && !Fetches(k, op)
    requires Working(w.pc) || w.pc.Report?
    requires CallRespects(k, sk, spec, w, op, f)
    ensures var out := Perform(w.db, w.db, op, f);
            PcGuarded(k, sk, spec, out.db, Resume(k, w.pc, op, out.reply, w.now))
  {
  }

  /** A step of the deletion. */
  lemma TearGuarded(k: Key, sk: Key, spec: Body, w: World, op: Call, f: Fault)
    requires k.kind == CAEnrollment && sk.kind == Secret && spec.Enrollment?
    requires sk == Key(Secret, k.namespace, spec.outputSecretName)
    requires Guarded(k, sk, spec, w) && Expects(k, w.pc, op) && !f.Stale? && !Fetches(k, op)
    requires w.pc.DeleteSecret? || w.pc.RemoveFinalizer?
    requires CallRespects(k, sk, spec, w, op, f)
    ensures var out := Perform(w.db, w.db, op, f);
            PcGuarded(k, sk, spec, out.db, Resume(k, w.pc, op, out.reply, w.now))
  {
  }

  lemma CallKeepsGuarded(k: Key, sk: Key, spec: Body, w: World, op: Call, f: Fault)
    requires k.kind == CAEnrollment && sk.kind == Secret && spec.Enrollment?
    requires sk == Key(Secret, k.namespace, spec.outputSecretName)
    requires Guarded(k, sk, spec, w) && Expects(k, w.pc, op) && !f.Stale?
    ensures Guarded(k, sk, spec, Next(k, w, Store(Mine(op, f))))
  {
    CallKeepsStore(k, sk, spec, w, op, f);
    if Fetches(k, op) {
      FetchGuarded(k, sk, spec, w, op, f);
    } else if w.pc.InitStatus? || w.pc.AddFinalizer? {
      PreambleGuarded(k, sk, spec, w, op, f);
    } else if w.pc.DeleteSecret? || w.pc.RemoveFinalizer? {
      TearGuarded(k, sk, spec, w, op, f);
    } else {
      WorkGuarded(k, sk, spec, w, op, f);
    }
  }

  lemma {:induction false} AlwaysGuarded(k: Key, sk: Key, spec: Body, w: World, h: seq<Event>)
    requires k.kind == CAEnrollment && sk.kind == Secret && spec.Enrollment?
    requires sk == Key(Secret, k.namespace, spec.outputSecretName)
    requires w.pc.Idle? && StoreGuarded(k, sk, spec, w.db) && FollowsGuarded(k, sk, w, h)
    ensures Guarded(k, sk, spec, Run(k, w, h))
    decreases |h|
  {
    if h != [] {
      var before := h[..|h| - 1];
      AlwaysGuarded(k, sk, spec, w, before);
      match h[|h| - 1]
      case Tick(_) =>
      case Issue(_) =>
      case Store(Other(op)) => OthersKeepGuarded(k, sk, spec, Run(k, w, before), op);
      case Store(Mine(op, f)) => CallKeepsGuarded(k, sk, spec, Run(k, w, before), op, f);
    }
  }

  lemma GuardedMeans(k: Key, sk: Key, spec: Body, w: World)
    requires k.kind == CAEnrollment && spec.Enrollment? && sk == Key(Secret, k.namespace, spec.outputSecretName)
    requires Guarded(k, sk, spec, w)
    ensures sk in w.db.objects && !w.db.objects[sk].marked ==> Carries(w.db, k)
    ensures w.pc.PutSecret? ==> Carries(w.db, k) && NextOp(k, w.pc).key == sk
    ensures Carries(w.db, k) ==> "finalizer.caenrollment.fabricx.kfsoft.tech" in w.db.objects[k].finalizers
  {
  }

  /** No secret outlives its enrolment: in every run, however calls fail and whoever
      deletes what, an output secret that is not being deleted has its enrolment, and
      that carries the finalizer; and the controller writes the secret only where it
      does. */
  lemma SecretNeverOutlives(k: Key, w: World, h: seq<Event>)
    requires k.kind == CAEnrollment && WellFormed(w.db) && w.pc.Idle? && k in w.db.objects
    requires w.db.objects[k].spec.Enrollment?
    requires var sk := Key(Secret, k.namespace, w.db.objects[k].spec.outputSecretName);
             (Live(w.db, sk) ==> Carries(w.db, k)) && FollowsGuarded(k, sk, w, h)
    ensures var v, sk := Run(k, w, h), Key(Secret, k.namespace, w.db.objects[k].spec.outputSecretName);
            && (sk in v.db.objects && !v.db.objects[sk].marked ==>
                  k in v.db.objects && "finalizer.caenrollment.fabricx.kfsoft.tech" in v.db.objects[k].finalizers)
            && (v.pc.PutSecret? ==>
                  && k in v.db.objects && "finalizer.caenrollment.fabricx.kfsoft.tech" in v.db.objects[k].finalizers
                  && NextOp(k, v.pc).key == sk)
  {
    var spec := w.db.objects[k].spec;
    var sk := Key(Secret, k.namespace, spec.outputSecretName);
    AlwaysGuarded(k, sk, spec, w, h);
    GuardedMeans(k, sk, spec, Run(k, w, h));
  }
}
