/** The OrdererGroup reconciler as a program suspended at every API call. */
module OrdererGroupProgram {
  import opened Prelude
  import opened Components
  import opened ApiServer
  import opened OrdererSpecs
  import opened OrdererNames

  const FINALIZER := "orderergroup.fabricx.kfsoft.tech/finalizer"

  datatype Phase = Unset | Pending | Failed | Running
  datatype Status = Status(phase: Phase, message: string)
  datatype Spec = NoSpec | OfGroup(group: GroupSpec) | OfChild(child: OrdererSpec)

  type Obj = Object<Spec, Status>
  type State = Db<Spec, Status>
  type Trace = History<Spec, Status>
  type Call = Op<Spec, Status>
  type Answer = Reply<Spec, Status>

  const EMPTY_GROUP := GroupSpec("", "", 0, "", "", None, GenesisRef("", "", ""), None, None, None, None, None, [])

  function SpecOf(me: Obj): GroupSpec {
    if me.spec.OfGroup? then me.spec.group else EMPTY_GROUP
  }

  function Single(config: Option<Component>, slot: Slot): seq<Slot> {
    if config.Some? then [slot] else []
  }

  function BatcherSlots(n: nat): seq<Slot> {
    seq(n, (i: nat) => Batcher(i))
  }

  function Singles(g: GroupSpec): seq<Slot> {
    Single(g.consenter, Consenter) + Single(g.assembler, Assembler) + Single(g.router, Router)
  }

  /** The children a group asks for, in the order they are reconciled. */
  function Slots(g: GroupSpec): seq<Slot> {
    if g.manageChildCRDs == Some(false) then [] else Singles(g) + BatcherSlots(|g.batchers|)
  }

  predicate Configured(g: GroupSpec, slot: Slot) {
    match slot
    case Consenter => g.consenter.Some?
    case Assembler => g.assembler.Some?
    case Router => g.router.Some?
    case Batcher(i) => i < |g.batchers|
  }

  /** Every slot of the list is configured; batcher `i` comes after batcher `i - 1`. */
  lemma SlotsExact(g: GroupSpec, p: nat)
    requires p < |Slots(g)|
    ensures Configured(g, Slots(g)[p])
    ensures Slots(g)[p].Batcher? <==> p >= |Singles(g)|
    ensures Slots(g)[p].Batcher? ==> Slots(g)[p] == Batcher(p - |Singles(g)|)
  {
  }

  /** The order in which children are handled. */
  function Turn(slot: Slot): nat {
    match slot
    case Consenter => 0
    case Assembler => 1
    case Router => 2
    case Batcher(i) => 3 + i
  }

  lemma SlotsInOrder(g: GroupSpec, p: nat, q: nat)
    requires p < q < |Slots(g)|
    ensures Turn(Slots(g)[p]) < Turn(Slots(g)[q])
  {
  }

  lemma SlotsComplete(g: GroupSpec, slot: Slot)
    requires g.manageChildCRDs != Some(false) && Configured(g, slot)
    ensures slot in Slots(g)
  {
    match slot
    case Consenter => assert Slots(g)[0] == slot;
    case Assembler => assert Slots(g)[|Single(g.consenter, Consenter)|] == slot;
    case Router => assert Slots(g)[|Singles(g)| - 1] == slot;
    case Batcher(i) => assert Slots(g)[|Singles(g)| + i] == slot;
  }

  /** What a configured child should look like. */
  function Wanted(g: GroupSpec, slot: Slot): OrdererSpec
    requires Configured(g, slot)
  {
    match slot
    case Consenter =>
      ForConsenter(ConsenterSpec(Target(g, g.consenter.value), g.consenter.value.instanceID, NO_CLAIM))
    case Assembler => ForAssembler(AssemblerSpec(Target(g, g.assembler.value)))
    case Router => ForRouter(RouterSpec(Target(g, g.router.value)))
    case Batcher(i) => ForBatcher(BatcherSpec(Target(g, g.batchers[i]), g.batchers[i].instanceID, NO_CLAIM))
  }

  const INITIALIZING := Status(Pending, "Initializing OrdererGroup")
  const DELETING := Status(Pending, "Deleting OrdererGroup components")
  const RECONCILED := Status(Running, "OrdererGroup reconciled successfully")
  const NO_FINALIZER := Status(Failed, "Failed to ensure finalizer")
  const NO_CHILDREN := Status(Failed, "Failed to reconcile child CRDs")
  const NO_REMOVAL := Status(Failed, "Failed to remove finalizer")

  datatype Pc =
    | Idle
    | InitStatus(c: Key, me: Obj)
    | EnsureFinalizer(c: Key, me: Obj)
    | GetChild(c: Key, me: Obj, p: nat)
    | PutChild(c: Key, me: Obj, p: nat, found: Option<Obj>)
    | Report(c: Key, me: Obj, status: Status)
    | DeleteStatus(c: Key, me: Obj)
    | CleanDelete(c: Key, me: Obj, p: nat)
    | DropFinalizer(c: Key, me: Obj)

  predicate InRange(pc: Pc) {
    && (!pc.Idle? ==> pc.c.kind == OrdererGroup)
    && (pc.GetChild? || pc.PutChild? || pc.CleanDelete? ==> pc.p < |Slots(SpecOf(pc.me))|)
  }

  function SlotAt(pc: Pc): Slot
    requires InRange(pc) && (pc.GetChild? || pc.PutChild? || pc.CleanDelete?)
  {
    Slots(SpecOf(pc.me))[pc.p]
  }

  function WantedAt(pc: Pc): Spec
    requires InRange(pc) && pc.PutChild?
  {
    SlotsExact(SpecOf(pc.me), pc.p);
    OfChild(Wanted(SpecOf(pc.me), SlotAt(pc)))
  }

  function NewChild(c: Key, spec: Spec): Obj {
    Object(spec, Status(Unset, ""), map[], map[], [], false, Some(c), 0)
  }

  function NextOp(pc: Pc): Call
    requires !pc.Idle? && InRange(pc)
  {
    match pc
    case InitStatus(c, me) => StatusUpdate(c, me.(status := INITIALIZING))
    case EnsureFinalizer(c, me) => Update(c, me.(finalizers := me.finalizers + [FINALIZER]))
    case GetChild(c, me, p) => Get(SlotKey(c, SlotAt(pc)))
    case PutChild(c, me, p, None) => Create(SlotKey(c, SlotAt(pc)), NewChild(c, WantedAt(pc)))
    case PutChild(c, me, p, Some(o)) => Update(SlotKey(c, SlotAt(pc)), o.(spec := WantedAt(pc)))
    case Report(c, me, status) => StatusUpdate(c, me.(status := status))
    case DeleteStatus(c, me) => StatusUpdate(c, me.(status := DELETING))
    case CleanDelete(c, me, p) => Delete(SlotKey(c, SlotAt(pc)))
    case DropFinalizer(c, me) => Update(c, me.(finalizers := RemoveString(me.finalizers, FINALIZER)))
  }

  /** updateOrdererGroupStatus writes only what changes. */
  function Settle(c: Key, me: Obj, status: Status): Pc {
    if me.status == status then Idle else Report(c, me, status)
  }

  function Begin(c: Key, reply: Answer): Pc {
    match reply
    case Err(_) => Idle
    case Ok(me) =>
      if me.marked then
        if me.status == DELETING then AfterClean(c, me, 0) else DeleteStatus(c, me)
      else if me.status.phase == Unset then InitStatus(c, me)
      else AfterStatus(c, me)
  }

  function AfterStatus(c: Key, me: Obj): Pc {
    if FINALIZER in me.finalizers then AfterChildren(c, me, 0) else EnsureFinalizer(c, me)
  }

  /** Children `p` and up remain. */
  function AfterChildren(c: Key, me: Obj, p: nat): Pc {
    if p < |Slots(SpecOf(me))| then GetChild(c, me, p) else Settle(c, me, RECONCILED)
  }

  function AfterClean(c: Key, me: Obj, p: nat): Pc {
    if p < |Slots(SpecOf(me))| then CleanDelete(c, me, p) else DropFinalizer(c, me)
  }

  function Copy(me: Obj, status: Status, reply: Answer): Obj {
    if reply.Ok? then reply.stored else me.(status := status)
  }

  predicate StartsReconcile(op: Call) {
    op.Get? && op.key.kind == OrdererGroup
  }

  function Resume(pc: Pc, op: Call, reply: Answer): Pc {
    if StartsReconcile(op) then Begin(op.key, reply)
    else match pc
      case Idle => Idle
      case InitStatus(c, me) => AfterStatus(c, Copy(me, INITIALIZING, reply))
      case EnsureFinalizer(c, me) =>
        if reply.Ok? then AfterChildren(c, reply.stored, 0)
        else Settle(c, me.(finalizers := me.finalizers + [FINALIZER]), NO_FINALIZER)
      case GetChild(c, me, p) =>
        // any error counts as "the child is not there"
        PutChild(c, me, p, if reply.Ok? then Some(reply.stored) else None)
      case PutChild(c, me, p, _) =>
        if reply.Ok? then AfterChildren(c, me, p + 1) else Settle(c, me, NO_CHILDREN)
      case Report(_, _, _) => Idle
      case DeleteStatus(c, me) => AfterClean(c, Copy(me, DELETING, reply), 0)
      case CleanDelete(c, me, p) =>
        // a failed deletion is only logged; among the batchers it ends the loop
        if reply.Ok? || p < |Singles(SpecOf(me))| then AfterClean(c, me, p + 1) else DropFinalizer(c, me)
      case DropFinalizer(c, me) =>
        if reply.Ok? then Idle
        else Settle(c, me.(finalizers := RemoveString(me.finalizers, FINALIZER)), NO_REMOVAL)
  }

  predicate Expects(pc: Pc, op: Call) {
    StartsReconcile(op) || (!pc.Idle? && InRange(pc) && op == NextOp(pc))
  }

  /** The program stays in range. */
  lemma BeginInRange(c: Key, reply: Answer)
    requires c.kind == OrdererGroup
    ensures InRange(Begin(c, reply))
  {
  }

  lemma BuildingInRange(pc: Pc, op: Call, reply: Answer)
    requires InRange(pc) && Expects(pc, op) && !StartsReconcile(op)
    requires pc.InitStatus? || pc.EnsureFinalizer? || pc.GetChild? || pc.PutChild? || pc.Report?
    ensures InRange(Resume(pc, op, reply))
  {
  }

  lemma TearingInRange(pc: Pc, op: Call, reply: Answer)
    requires InRange(pc) && Expects(pc, op) && !StartsReconcile(op)
    requires pc.DeleteStatus? || pc.CleanDelete? || pc.DropFinalizer?
    ensures InRange(Resume(pc, op, reply))
  {
  }

  lemma ResumeInRange(pc: Pc, op: Call, reply: Answer)
    requires InRange(pc) && Expects(pc, op)
    ensures InRange(Resume(pc, op, reply))
  {
    if StartsReconcile(op) {
      BeginInRange(op.key, reply);
    } else if pc.DeleteStatus? || pc.CleanDelete? || pc.DropFinalizer? {
      TearingInRange(pc, op, reply);
    } else {
      BuildingInRange(pc, op, reply);
    }
  }

  function Answered(start: State, h: Trace, op: Call, f: Fault): Answer {
    Perform(Replay(start, h), Past(start, h, f), op, f).reply
  }

  function PcAfter(start: State, h: Trace): Pc {
    if h == [] then Idle
    else
      var before := h[..|h| - 1];
      var pc := PcAfter(start, before);
      match h[|h| - 1]
      case Other(_) => pc
      case Mine(op, f) => Resume(pc, op, Answered(start, before, op, f))
  }

  ghost predicate Permits(start: State, h: Trace, e: Entry<Spec, Status>, rely: (State, Call) -> bool) {
    match e
    case Other(op) => rely(Replay(start, h), op)
    case Mine(op, _) => Expects(PcAfter(start, h), op)
  }

  /** The controller's calls in `h` are the program's, the others' are within `rely`. */
  ghost predicate Follows(start: State, h: Trace, rely: (State, Call) -> bool) {
    h == [] ||
    var before := h[..|h| - 1];
    Follows(start, before, rely) && Permits(start, before, h[|h| - 1], rely)
  }

  lemma FollowsStep(start: State, h: Trace, e: Entry<Spec, Status>, rely: (State, Call) -> bool)
    requires Follows(start, h, rely) && Permits(start, h, e, rely)
    ensures Follows(start, h + [e], rely)
    ensures PcAfter(start, h + [e]) ==
            if e.Other? then PcAfter(start, h)
            else Resume(PcAfter(start, h), e.op, Answered(start, h, e.op, e.fault))
  {
    assert (h + [e])[..|h|] == h;
  }

  /** Other actors never move the reconciler. */
  lemma {:induction false} OthersKeepPc(start: State, h0: Trace, h: Trace, rely: (State, Call) -> bool)
    requires Follows(start, h0, rely) && OthersOnly(start, h0, h, rely)
    ensures Follows(start, h, rely) && PcAfter(start, h) == PcAfter(start, h0)
    decreases |h|
  {
    if |h| > |h0| {
      OthersOnlyShrink(start, h0, h, rely);
      OthersKeepPc(start, h0, h[..|h| - 1], rely);
    } else {
      assert h == h0;
    }
  }
}
