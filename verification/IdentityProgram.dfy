/** The Identity reconciler as a program suspended at every API call and at the
    enrolment with the CA. */
module IdentityProgram {
  import opened Prelude
  import opened ApiServer

  const FINALIZER := "identity.fabricx.kfsoft.tech/finalizer"

  /** `idemix` is the optional idemix section with its optional `enabled` flag. */
  datatype Enrollment = Enrollment(idemix: Option<Option<bool>>)
  datatype Spec = OfIdentity(enrollment: Option<Enrollment>, outputName: string, labels: map<string, string>) | OfSecret

  /** The names of the output secrets; the TLS ones are never set. */
  datatype Outputs = Outputs(signCert: string, signKey: string, signCACert: string, idemixCred: string)

  datatype Status = Status(status: string, message: string, outputSecrets: Outputs)

  const NO_STATUS := Status("", "", Outputs("", "", "", ""))

  type Data = map<string, string>
  type Obj = Object<Spec, Status>
  type State = Db<Spec, Status>
  type Call = Op<Spec, Status>
  type Answer = Reply<Spec, Status>

  function OutputName(me: Obj): string {
    if me.spec.OfIdentity? then me.spec.outputName else ""
  }

  function Idemix(me: Obj): Option<Option<bool>> {
    if me.spec.OfIdentity? && me.spec.enrollment.Some? then me.spec.enrollment.value.idemix else None
  }

  function SecretKey(k: Key, me: Obj, idemix: bool): Key {
    Key(Secret, k.namespace, OutputName(me) + if idemix then "-idemix" else "")
  }

  /** The checks ask for `enabled`... */
  predicate ChecksIdemix(me: Obj) {
    Idemix(me) == Some(Some(true))
  }

  /** ...the enrolment asks whether there is an idemix section at all. */
  predicate EnrolsIdemix(me: Obj) {
    Idemix(me).Some?
  }

  function CheckedKey(k: Key, me: Obj): Key {
    SecretKey(k, me, ChecksIdemix(me))
  }

  function WrittenKey(k: Key, me: Obj): Key {
    SecretKey(k, me, EnrolsIdemix(me))
  }

  predicate Consistent(me: Obj) {
    ChecksIdemix(me) <==> EnrolsIdemix(me)
  }

  predicate NonEmptyAt(d: Data, key: string) {
    key in d && d[key] != ""
  }

  /** validateExistingSecrets; `parses` is the PEM and X.509 parser. */
  predicate ValidData(parses: string -> bool, idemix: bool, d: Data) {
    if idemix then "Cred" in d && "Sk" in d
    else NonEmptyAt(d, "cert.pem") && NonEmptyAt(d, "key.pem") && NonEmptyAt(d, "cacert.pem") && parses(d["cert.pem"])
  }

  /** How an enrolment ends: the CA did not issue, or issued and we know the data
      to store, or issued and something failed before there was data to store. */
  datatype Grant = Denied | Granted(data: Data) | GrantedUnheard

  /** The names an enrolment sets on its copy: all of them anew, or just that of
      the idemix credential. */
  function NewOutputs(me: Obj): Outputs {
    if EnrolsIdemix(me) then me.status.outputSecrets.(idemixCred := OutputName(me) + "-idemix")
    else Outputs(OutputName(me), OutputName(me), OutputName(me), "")
  }

  function WithOutputs(me: Obj): Obj {
    me.(status := me.status.(outputSecrets := NewOutputs(me)))
  }

  datatype Verdict = Verdict(status: string, message: string)

  const READY_EXISTING := Verdict("READY", "Identity materials exist and are valid")
  const READY_ENROLLED := Verdict("READY", "Identity enrolled successfully")
  const INVALID_SPEC := Verdict("INVALID", "enrollment configuration is required")
  const INVALID_SECRET := Verdict("FAILED", "Secret validation failed")
  const NOT_ENROLLED := Verdict("FAILED", "Failed to enroll")
  const NOT_STORED := Verdict("FAILED", "Failed to create output secrets")

  datatype Pc =
    | Idle
    | RemoveFinalizer(me: Obj)
    | AddFinalizer(me: Obj)
    | Exists(me: Obj)
    | Validate(me: Obj)
    | Enrol(me: Obj)
    | CreateSecret(me: Obj, data: Data)
    | UpdateSecret(me: Obj, data: Data)
    | Refetch(me: Obj, verdict: Verdict)
    | WriteStatus(me: Obj, verdict: Verdict, refetched: Obj)

  function NewSecret(k: Key, me: Obj, data: Data): Obj {
    Object(OfSecret, NO_STATUS, if me.spec.OfIdentity? then me.spec.labels else map[], data, [], false, Some(k), 0)
  }

  function NextOp(k: Key, pc: Pc): Call
    requires !pc.Idle? && !pc.Enrol?
  {
    match pc
    case RemoveFinalizer(me) => Update(k, me.(finalizers := RemoveString(me.finalizers, FINALIZER)))
    case AddFinalizer(me) => Update(k, me.(finalizers := me.finalizers + [FINALIZER]))
    case Exists(me) => Get(CheckedKey(k, me))
    case Validate(me) => Get(CheckedKey(k, me))
    case CreateSecret(me, data) => Create(WrittenKey(k, me), NewSecret(k, me, data))
    case UpdateSecret(me, data) => Update(WrittenKey(k, me), NewSecret(k, me, data))
    case Refetch(_, _) => Get(k)
    case WriteStatus(_, v, refetched) =>
      StatusUpdate(k, refetched.(status := refetched.status.(status := v.status, message := v.message)))
  }

  function AfterFinalizer(me: Obj): Pc {
    if me.spec.OfIdentity? && me.spec.enrollment.Some? then Exists(me) else Refetch(me, INVALID_SPEC)
  }

  function Begin(reply: Answer): Pc {
    match reply
    case Err(_) => Idle
    case Ok(me) =>
      if me.marked then (if FINALIZER in me.finalizers then RemoveFinalizer(me) else Idle)
      else if FINALIZER !in me.finalizers then AddFinalizer(me)
      else AfterFinalizer(me)
  }

  function Resume(parses: string -> bool, pc: Pc, reply: Answer): Pc {
    match pc
    case AddFinalizer(_) => if reply.Ok? then AfterFinalizer(reply.stored) else Idle
    case Exists(me) => if reply.Ok? then Validate(me) else Enrol(me)
    case Validate(me) =>
      var valid := reply.Ok? && ValidData(parses, ChecksIdemix(me), reply.stored.data);
      Refetch(me, if valid then READY_EXISTING else INVALID_SECRET)
    case CreateSecret(me, data) =>
      if reply.Ok? then Refetch(WithOutputs(me), READY_ENROLLED)
      else if reply.error == AlreadyExists then UpdateSecret(me, data)
      else Refetch(me, NOT_STORED)
    case UpdateSecret(me, _) => if reply.Ok? then Refetch(WithOutputs(me), READY_ENROLLED) else Refetch(me, NOT_STORED)
    case Refetch(me, v) => if reply.Ok? then WriteStatus(me, v, reply.stored) else Idle
    case _ => Idle
  }

  function AfterGrant(pc: Pc, g: Grant): Pc
    requires pc.Enrol?
  {
    if g.Granted? then CreateSecret(pc.me, g.data) else Refetch(pc.me, NOT_ENROLLED)
  }

  /** `Fetch` starts a reconcile; it may come at any time, after a restart. */
  datatype Event = Fetch(fault: Fault) | Step(fault: Fault) | Other(op: Call) | Ca(grant: Grant)

  datatype World = World(db: State, pc: Pc)

  function Next(parses: string -> bool, k: Key, w: World, e: Event): World {
    match e
    case Fetch(f) => w.(pc := Begin(Perform(w.db, w.db, Get(k), f).reply))
    case Step(f) =>
      if w.pc.Idle? || w.pc.Enrol? then w
      else
        var out := Perform(w.db, w.db, NextOp(k, w.pc), f);
        World(out.db, Resume(parses, w.pc, out.reply))
    case Other(op) => w.(db := Effect(w.db, op).db)
    case Ca(g) => if w.pc.Enrol? then w.(pc := AfterGrant(w.pc, g)) else w
  }

  /** The others leave the identity's specification, status and existence and its
      output secret alone, but may create the latter. */
  predicate OthersMay(k: Key, sk: Key, db: State, op: Call) {
    match op
    case Get(_) => true
    case Create(_, _) => true
    case Update(key, o) => key != sk && (key == k && k in db.objects ==> o.spec == db.objects[k].spec)
    case StatusUpdate(key, _) => key != sk && key != k
    case Delete(key) => key != sk && key != k
  }

  predicate Permits(k: Key, sk: Key, w: World, e: Event) {
    match e
    case Fetch(f) => !f.Stale?
    case Step(f) => !f.Stale? && !w.pc.Idle? && !w.pc.Enrol?
    case Other(op) => OthersMay(k, sk, w.db, op)
    case Ca(_) => w.pc.Enrol?
  }

  function Run(parses: string -> bool, k: Key, w: World, h: seq<Event>): World {
    if h == [] then w else Next(parses, k, Run(parses, k, w, h[..|h| - 1]), h[|h| - 1])
  }

  predicate Follows(parses: string -> bool, k: Key, sk: Key, w: World, h: seq<Event>) {
    h == [] ||
    (Follows(parses, k, sk, w, h[..|h| - 1]) && Permits(k, sk, Run(parses, k, w, h[..|h| - 1]), h[|h| - 1]))
  }
}
