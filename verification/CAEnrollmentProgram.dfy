/** The CAEnrollment reconciler against a clock, as a program suspended at every
    API call and at the enrolment with the CA.  Time is in seconds. */
module CAEnrollmentProgram {
  import opened Prelude
  import opened ApiServer

  const FINALIZER := "finalizer.caenrollment.fabricx.kfsoft.tech"
  const RENEWAL := 30 * 24 * 3600

  /** What parsing "cert.pem" of a secret yields. */
  datatype Certificate = Unreadable | Readable(notAfter: int)

  datatype Body =
    | Enrollment(outputSecretName: string)
    | CertSecret(cert: Option<Certificate>)
    | Opaque

  datatype EnrollStatus = EnrollStatus(status: string, message: string, count: int, expiry: Option<int>)

  type Obj = Object<Body, EnrollStatus>
  type State = Db<Body, EnrollStatus>
  type Call = Op<Body, EnrollStatus>
  type Answer = Reply<Body, EnrollStatus>

  function SecretKey(k: Key, me: Obj): Key {
    Key(Secret, k.namespace, if me.spec.Enrollment? then me.spec.outputSecretName else "")
  }

  /** needsRenewal */
  predicate NeedsRenewal(secret: Obj, now: int) {
    match secret.spec
    case CertSecret(Some(Readable(notAfter))) => notAfter < now + RENEWAL
    case _ => true
  }

  /** `checked` is when the reconcile looked at the secret, `issued` when the CA
      signed the new certificate. */
  datatype Pc =
    | Idle
    | InitStatus(me: Obj)
    | DeleteSecret(me: Obj)
    | RemoveFinalizer(me: Obj)
    | AddFinalizer(me: Obj)
    | CheckSecret(me: Obj)
    | Enroll(me: Obj, checked: int)
    | GetExisting(me: Obj, checked: int, issued: int, notAfter: int)
    | PutSecret(me: Obj, checked: int, issued: int, notAfter: int, existing: Option<Obj>)
    | Report(me: Obj, verdict: EnrollStatus, ready: bool, enrolled: bool)

  function Says(me: Obj, status: string, message: string): EnrollStatus {
    me.status.(status := status, message := message)
  }

  function Ready(me: Obj): Pc {
    Report(me, Says(me, "Ready", "Identity enrolled successfully"), true, false)
  }

  function ReadyEnrolled(me: Obj, notAfter: int): Pc {
    Report(me,
           Says(me, "Ready", "Identity enrolled successfully")
             .(count := me.status.count + 1, expiry := Some(notAfter)),
           true, true)
  }

  function FailedWith(me: Obj, message: string): Pc {
    Report(me, Says(me, "Failed", message), false, false)
  }

  function NewSecret(k: Key, notAfter: int): Obj {
    Object(CertSecret(Some(Readable(notAfter))), EnrollStatus("", "", 0, None), map[], map[], [], false, Some(k), 0)
  }

  function NextOp(k: Key, pc: Pc): Call
    requires !pc.Idle? && !pc.Enroll?
  {
    match pc
    case InitStatus(me) => StatusUpdate(k, me.(status := Says(me, "Pending", "Initializing identity enrollment")))
    case DeleteSecret(me) => Delete(SecretKey(k, me))
    case RemoveFinalizer(me) => Update(k, me.(finalizers := RemoveString(me.finalizers, FINALIZER)))
    case AddFinalizer(me) => Update(k, me.(finalizers := me.finalizers + [FINALIZER]))
    case CheckSecret(me) => Get(SecretKey(k, me))
    case GetExisting(me, _, _, _) => Get(SecretKey(k, me))
    case PutSecret(me, _, _, notAfter, None) => Create(SecretKey(k, me), NewSecret(k, notAfter))
    case PutSecret(me, _, _, notAfter, Some(o)) =>
      Update(SecretKey(k, me), o.(spec := CertSecret(Some(Readable(notAfter)))))
    case Report(me, verdict, _, _) => StatusUpdate(k, me.(status := verdict))
  }

  function AfterInit(me: Obj): Pc {
    if me.marked then
      if FINALIZER in me.finalizers then DeleteSecret(me) else Idle
    else if FINALIZER !in me.finalizers then AddFinalizer(me)
    else CheckSecret(me)
  }

  function Begin(reply: Answer): Pc {
    match reply
    case Err(_) => Idle
    case Ok(me) => if me.status.status == "" then InitStatus(me) else AfterInit(me)
  }

  predicate Fetches(k: Key, op: Call) {
    op == Get(k)
  }

  function Resume(k: Key, pc: Pc, op: Call, reply: Answer, now: int): Pc {
    if Fetches(k, op) then Begin(reply)
    else match pc
      case InitStatus(me) =>
        var initialized := me.(status := Says(me, "Pending", "Initializing identity enrollment"));
        AfterInit(if reply.Ok? then reply.stored else initialized)
      case DeleteSecret(me) =>
        if reply.Ok? || reply.error == NotFound then RemoveFinalizer(me) else Idle
      case RemoveFinalizer(_) => Idle
      case AddFinalizer(me) =>
        if reply.Ok? then CheckSecret(reply.stored) else FailedWith(me, "Failed to add finalizer")
      case CheckSecret(me) =>
        if reply.Ok? then (if NeedsRenewal(reply.stored, now) then Enroll(me, now) else Ready(me))
        else if reply.error == NotFound then Enroll(me, now)
        else Idle
      case GetExisting(me, checked, issued, notAfter) =>
        if reply.Ok? then PutSecret(me, checked, issued, notAfter, Some(reply.stored))
        else if reply.error == NotFound then PutSecret(me, checked, issued, notAfter, None)
        else FailedWith(me, "Failed to enroll identity")
      case PutSecret(me, _, _, notAfter, _) =>
        if reply.Ok? then ReadyEnrolled(me, notAfter) else FailedWith(me, "Failed to enroll identity")
      case _ => Idle
  }

  /** Time passes, an API call is served, or the CA answers: with a certificate
      signed now, or not at all. */
  datatype Event = Tick(seconds: nat) | Store(entry: Entry<Body, EnrollStatus>) | Issue(notAfter: Option<int>)

  /** One state of a run: the clock, the store and the reconciler. */
  datatype World = World(now: int, db: State, pc: Pc)

  /** The others leave the enrolment's status and specification and the output
      secret alone and delete neither. */
  predicate OthersMay(k: Key, sk: Key, db: State, op: Call) {
    match op
    case Get(_) => true
    case Create(key, _) => key != sk
    case Update(key, o) => key != sk && (key == k && k in db.objects ==> o.spec == db.objects[k].spec)
    case StatusUpdate(key, _) => key != sk && key != k
    case Delete(key) => key != sk && key != k
  }

  predicate Expects(k: Key, pc: Pc, op: Call) {
    Fetches(k, op) || (!pc.Idle? && !pc.Enroll? && op == NextOp(k, pc))
  }

  /** A certificate signed at `now` lives at least `lifetime`. */
  predicate Permits(k: Key, sk: Key, lifetime: int, w: World, e: Event) {
    match e
    case Tick(_) => true
    case Store(Other(op)) => OthersMay(k, sk, w.db, op)
    case Store(Mine(op, f)) => Expects(k, w.pc, op) && !f.Stale?
    case Issue(notAfter) => w.pc.Enroll? && (notAfter.Some? ==> notAfter.value >= w.now + lifetime)
  }

  function Next(k: Key, w: World, e: Event): World {
    match e
    case Tick(seconds) => w.(now := w.now + seconds)
    case Store(Other(op)) => w.(db := Effect(w.db, op).db)
    case Store(Mine(op, f)) =>
      var out := Perform(w.db, w.db, op, f);
      World(w.now, out.db, Resume(k, w.pc, op, out.reply, w.now))
    case Issue(notAfter) =>
      if !w.pc.Enroll? then w
      else if notAfter.None? then w.(pc := FailedWith(w.pc.me, "Failed to enroll identity"))
      else w.(pc := GetExisting(w.pc.me, w.pc.checked, w.now, notAfter.value))
  }

  function Run(k: Key, w: World, h: seq<Event>): World {
    if h == [] then w else Next(k, Run(k, w, h[..|h| - 1]), h[|h| - 1])
  }

  predicate Follows(k: Key, sk: Key, lifetime: int, w: World, h: seq<Event>) {
    h == [] || (
      && Follows(k, sk, lifetime, w, h[..|h| - 1])
      && Permits(k, sk, lifetime, Run(k, w, h[..|h| - 1]), h[|h| - 1]))
  }
}
