/** The Committer reconciler as a program that is suspended at every API call.

    Between two calls the reconciler is described by a `Pc`: where it stands and
    the in-memory copy `me` of the Committer it works on.  `NextOp` is the call
    it makes next and `Resume` what it does with the answer.  A fetch of some
    Committer may come at any time: it starts the next reconcile, also after the
    operator process was restarted in the middle of the previous one. */
module CommitterProgram {
  import opened Prelude
  import opened ApiServer
  import opened CommitterSpecs

  const FINALIZER := "committer.fabricx.kfsoft.tech/finalizer"

  const ROLES: seq<Role> := [Coordinator, Sidecar, Validator, Verifier, QueryService]

  datatype Phase = Unset | Pending | Failed | Running
  datatype Status = Status(phase: Phase, message: string)
  datatype Spec = NoSpec | OfCommitter(committer: CommitterSpec) | OfChild(child: ChildSpec)

  type Obj = Object<Spec, Status>
  type State = Db<Spec, Status>
  type Trace = History<Spec, Status>
  type Call = Op<Spec, Status>
  type Answer = Reply<Spec, Status>

  function KindOf(role: Role): Kind {
    match role
    case Coordinator => CommitterCoordinator
    case Sidecar => CommitterSidecar
    case Validator => CommitterValidator
    case Verifier => CommitterVerifier
    case QueryService => CommitterQueryService
  }

  function SuffixOf(role: Role): string {
    match role
    case Coordinator => "-coordinator"
    case Sidecar => "-sidecar"
    case Validator => "-validator"
    case Verifier => "-verifier"
    case QueryService => "-query-service"
  }

  function ChildKey(c: Key, role: Role): Key {
    Key(KindOf(role), c.namespace, c.name + SuffixOf(role))
  }

  predicate IsChildKind(k: Kind) {
    k in {CommitterCoordinator, CommitterSidecar, CommitterValidator, CommitterVerifier, CommitterQueryService}
  }

  /** Distinct Committers never share a child, nor does one Committer use a name twice. */
  lemma ChildKeyInjective(c: Key, role: Role, c': Key, role': Role)
    requires c.kind == c'.kind && ChildKey(c, role) == ChildKey(c', role')
    ensures c == c' && role == role'
  {
    assert role == role';
    assert c.name == ChildKey(c, role).name[..|c.name|];
    assert c'.name == ChildKey(c', role').name[..|c'.name|];
  }

  /** The typed specification of a fetched Committer. */
  function SpecOf(me: Obj): CommitterSpec {
    if me.spec.OfCommitter? then me.spec.committer else EMPTY_COMMITTER
  }

  /** What the children of the in-memory Committer should look like. */
  function Wanted(me: Obj, role: Role): Spec {
    OfChild(Target(role, SpecOf(me)))
  }

  datatype Pc =
    | Idle
    | InitStatus(c: Key, me: Obj)
    | EnsureFinalizer(c: Key, me: Obj)
    | GetChild(c: Key, me: Obj, i: nat)
    | PutChild(c: Key, me: Obj, i: nat, found: Option<Obj>)
    | Report(c: Key, me: Obj, status: Status)
    | DeleteStatus(c: Key, me: Obj)
    | CleanGet(c: Key, me: Obj, i: nat)
    | CleanDelete(c: Key, me: Obj, i: nat)
    | DropFinalizer(c: Key, me: Obj)

  const INITIALIZING := Status(Pending, "Initializing Committer")
  const DELETING := Status(Pending, "Deleting Committer resources")
  const RECONCILED := Status(Running, "Committer reconciled successfully")
  const NO_FINALIZER := Status(Failed, "Failed to ensure finalizer")
  const NO_CHILDREN := Status(Failed, "Failed to reconcile Committer")
  const NO_CLEANUP := Status(Failed, "Failed to cleanup child CRDs")
  const NO_REMOVAL := Status(Failed, "Failed to remove finalizer")

  function NewChild(spec: Spec): Obj {
    Object(spec, Status(Unset, ""), map[], map[], [], false, None, 0)
  }

  function NextOp(pc: Pc): Call
    requires !pc.Idle?
    requires pc.GetChild? || pc.PutChild? || pc.CleanGet? || pc.CleanDelete? ==> pc.i < |ROLES|
  {
    match pc
    case InitStatus(c, me) => StatusUpdate(c, me.(status := INITIALIZING))
    case EnsureFinalizer(c, me) => Update(c, me.(finalizers := me.finalizers + [FINALIZER]))
    case GetChild(c, me, i) => Get(ChildKey(c, ROLES[i]))
    case PutChild(c, me, i, None) => Create(ChildKey(c, ROLES[i]), NewChild(Wanted(me, ROLES[i])))
    case PutChild(c, me, i, Some(o)) => Update(ChildKey(c, ROLES[i]), o.(spec := Wanted(me, ROLES[i])))
    case Report(c, me, status) => StatusUpdate(c, me.(status := status))
    case DeleteStatus(c, me) => StatusUpdate(c, me.(status := DELETING))
    case CleanGet(c, me, i) => Get(ChildKey(c, ROLES[i]))
    case CleanDelete(c, me, i) => Delete(ChildKey(c, ROLES[i]))
    case DropFinalizer(c, me) => Update(c, me.(finalizers := RemoveString(me.finalizers, FINALIZER)))
  }

  /** The first branch of Reconcile, on the answer to the fetch of `c`. */
  function Begin(c: Key, reply: Answer): Pc {
    match reply
    case Err(_) => Idle
    case Ok(me) =>
      if me.marked then DeleteStatus(c, me)
      else if me.status.phase == Unset then InitStatus(c, me)
      else AfterStatus(c, me)
  }

  function AfterStatus(c: Key, me: Obj): Pc {
    if FINALIZER in me.finalizers then GetChild(c, me, 0) else EnsureFinalizer(c, me)
  }

  function AfterChild(c: Key, me: Obj, i: nat): Pc {
    if i + 1 < |ROLES| then GetChild(c, me, i + 1) else Report(c, me, RECONCILED)
  }

  /** A failed reconcile is reported unless the copy already says Failed. */
  function Abort(c: Key, me: Obj): Pc {
    if me.status.phase != Failed then Report(c, me, NO_CHILDREN) else Idle
  }

  function AfterClean(c: Key, me: Obj, i: nat): Pc {
    if i + 1 < |ROLES| then CleanGet(c, me, i + 1) else DropFinalizer(c, me)
  }

  /** A status write sets the copy's status even if the server rejects it. */
  function Copy(me: Obj, status: Status, reply: Answer): Obj {
    if reply.Ok? then reply.stored else me.(status := status)
  }

  predicate StartsReconcile(op: Call) {
    op.Get? && op.key.kind == Committer
  }

  function Resume(pc: Pc, op: Call, reply: Answer): Pc {
    if StartsReconcile(op) then Begin(op.key, reply)
    else match pc
      case Idle => Idle
      case InitStatus(c, me) => AfterStatus(c, Copy(me, INITIALIZING, reply))
      case EnsureFinalizer(c, me) =>
        if reply.Ok? then GetChild(c, reply.stored, 0)
        else Report(c, me.(finalizers := me.finalizers + [FINALIZER]), NO_FINALIZER)
      case GetChild(c, me, i) =>
        if reply.Ok? then PutChild(c, me, i, Some(reply.stored))
        else if reply.error == NotFound then PutChild(c, me, i, None)
        else Abort(c, me)
      case PutChild(c, me, i, _) => if reply.Ok? then AfterChild(c, me, i) else Abort(c, me)
      case Report(_, _, _) => Idle
      case DeleteStatus(c, me) => CleanGet(c, Copy(me, DELETING, reply), 0)
      case CleanGet(c, me, i) =>
        // any error counts as "the child is not there"
        if reply.Ok? then CleanDelete(c, me, i) else AfterClean(c, me, i)
      case CleanDelete(c, me, i) =>
        if reply.Ok? then AfterClean(c, me, i) else Report(c, me, NO_CLEANUP)
      case DropFinalizer(c, me) =>
        if reply.Ok? then Idle
        else Report(c, me.(finalizers := RemoveString(me.finalizers, FINALIZER)), NO_REMOVAL)
  }

  predicate InRange(pc: Pc) {
    && (!pc.Idle? ==> pc.c.kind == Committer)
    && (pc.GetChild? || pc.PutChild? || pc.CleanGet? || pc.CleanDelete? ==> pc.i < |ROLES|)
  }

  predicate Expects(pc: Pc, op: Call) {
    StartsReconcile(op) || (!pc.Idle? && InRange(pc) && op == NextOp(pc))
  }

  /** Everybody else: users create, edit and delete Committers, child controllers
      set finalizers and statuses, anyone may delete anything.  Only this
      controller creates children or takes its finalizer off a Committer. */
  predicate OthersMay(db: State, op: Call) {
    match op
    case Get(_) => true
    case Create(k, _) => !IsChildKind(k.kind)
    case Update(k, o) =>
      k.kind == Committer && k in db.objects && FINALIZER in db.objects[k].finalizers ==> FINALIZER in o.finalizers
    case StatusUpdate(_, _) => true
    case Delete(_) => true
  }

  function Answered(start: State, h: Trace, op: Call, f: Fault): Answer {
    Perform(Replay(start, h), Past(start, h, f), op, f).reply
  }

  /** Where the reconciler stands after a history. */
  function PcAfter(start: State, h: Trace): Pc {
    if h == [] then Idle
    else
      var before := h[..|h| - 1];
      var pc := PcAfter(start, before);
      match h[|h| - 1]
      case Other(_) => pc
      case Mine(op, f) => Resume(pc, op, Answered(start, before, op, f))
  }

  /** The controller's calls in `h` are those of the program, and the others
      keep within `OthersMay`. */
  ghost predicate Follows(start: State, h: Trace) {
    h == [] ||
    var before := h[..|h| - 1];
    Follows(start, before) && Permits(start, before, h[|h| - 1])
  }

  ghost predicate Permits(start: State, h: Trace, e: Entry<Spec, Status>) {
    match e
    case Other(op) => OthersMay(Replay(start, h), op)
    case Mine(op, _) => Expects(PcAfter(start, h), op)
  }

  /** One more entry, spelled out. */
  lemma FollowsStep(start: State, h: Trace, e: Entry<Spec, Status>)
    requires Follows(start, h) && Permits(start, h, e)
    ensures Follows(start, h + [e])
    ensures PcAfter(start, h + [e]) ==
            if e.Other? then PcAfter(start, h)
            else Resume(PcAfter(start, h), e.op, Answered(start, h, e.op, e.fault))
  {
    assert (h + [e])[..|h|] == h;
  }

  /** Other actors never move the reconciler. */
  lemma {:induction false} OthersKeepPc(start: State, h0: Trace, h: Trace)
    requires Follows(start, h0) && OthersOnly(start, h0, h, OthersMay)
    ensures Follows(start, h) && PcAfter(start, h) == PcAfter(start, h0)
    decreases |h|
  {
    if |h| > |h0| {
      var before := h[..|h| - 1];
      OthersOnlyShrink(start, h0, h, OthersMay);
      OthersKeepPc(start, h0, before);
    } else {
      assert h == h0;
    }
  }
}
