/** The ChainNamespace reconciler as a program suspended at every API call and
    at the deployment of the namespace transaction. */
module ChainNamespaceProgram {
  import opened Prelude
  import opened ApiServer

  const FINALIZER := "chainnamespace.fabricx.kfsoft.tech/finalizer"

  datatype Ref = Ref(name: string, namespace: string, key: string)
  datatype Tls = Tls(enabled: bool, caCert: Option<Ref>)

  datatype NsSpec = NsSpec(
    name: string, mspID: string, orderer: string, channel: string, version: int,
    identity: Ref, verificationKeyPath: string, tls: Option<Tls>)

  datatype Condition = Condition(kind: string, holds: bool, time: int, reason: string, message: string)

  datatype NsStatus = NsStatus(status: string, message: string, txID: string, conditions: seq<Condition>)

  const NO_STATUS := NsStatus("", "", "", [])

  type Obj = Object<NsSpec, NsStatus>
  type State = Db<NsSpec, NsStatus>
  type Call = Op<NsSpec, NsStatus>
  type Answer = Reply<NsSpec, NsStatus>

  predicate IsDeployed(s: NsStatus) {
    s.status == "Deployed" && s.txID != ""
  }

  /** validateNamespace */
  predicate ValidSpec(ns: NsSpec) {
    && ns.name != "" && ns.orderer != "" && ns.mspID != ""
    && ns.identity.name != "" && ns.identity.namespace != ""
    && (ns.tls.Some? && ns.tls.value.enabled ==>
        ns.tls.value.caCert.Some? && ns.tls.value.caCert.value.name != "" && ns.tls.value.caCert.value.namespace != "")
  }

  /** How a deployment ends: nothing reached the orderer (`Rejected`), the orderer
      took the envelope and said so, or it took it and the answer was lost. */
  datatype Deployment = Rejected(error: string) | Accepted(txID: string) | AcceptedUnheard(txID: string, error: string)

  /** The new condition replaces the first one of its kind, else comes last. */
  function WithCondition(conditions: seq<Condition>, c: Condition): seq<Condition> {
    if conditions == [] then [c]
    else if conditions[0].kind == c.kind then [c] + conditions[1..]
    else [conditions[0]] + WithCondition(conditions[1..], c)
  }

  /** The status updateStatus writes. */
  function NewStatus(was: NsStatus, status: string, message: string, txID: string, now: int): NsStatus {
    var ready := Condition("Ready", status != "Failed", now, status, message);
    NsStatus(status, message, txID, WithCondition(was.conditions, ready))
  }

  function Verdict(was: NsStatus, d: Deployment, now: int): NsStatus {
    match d
    case Accepted(txID) => NewStatus(was, "Deployed", "Namespace deployed successfully", txID, now)
    case _ => NewStatus(was, "Failed", d.error, "", now)
  }

  datatype Pc =
    | Idle
    | AddFinalizer(k: Key, me: Obj)
    | Deploy(k: Key, me: Obj)
    | Record(k: Key, me: Obj, verdict: NsStatus)
    | RemoveFinalizer(k: Key, me: Obj)

  datatype Event = Store(entry: Entry<NsSpec, NsStatus>) | Broadcast(result: Deployment, now: int)

  predicate Fetches(op: Call) {
    op.Get? && op.key.kind == ChainNamespace
  }

  function NextOp(pc: Pc): Call
    requires !pc.Idle? && !pc.Deploy?
  {
    match pc
    case AddFinalizer(k, me) => Update(k, me.(finalizers := me.finalizers + [FINALIZER]))
    case Record(k, me, verdict) => StatusUpdate(k, me.(status := verdict))
    case RemoveFinalizer(k, me) => Update(k, me.(finalizers := RemoveString(me.finalizers, FINALIZER)))
  }

  function AfterFinalizer(k: Key, me: Obj): Pc {
    if IsDeployed(me.status) then Idle else Deploy(k, me)
  }

  function Begin(k: Key, reply: Answer): Pc {
    match reply
    case Err(_) => Idle
    case Ok(me) =>
      if me.marked then
        if FINALIZER in me.finalizers then RemoveFinalizer(k, me) else Idle
      else if FINALIZER !in me.finalizers then AddFinalizer(k, me)
      else AfterFinalizer(k, me)
  }

  function Resume(pc: Pc, op: Call, reply: Answer): Pc {
    if Fetches(op) then Begin(op.key, reply)
    else match pc
      case AddFinalizer(k, _) => if reply.Ok? then AfterFinalizer(k, reply.stored) else Idle
      case _ => Idle
  }

  /** The API calls among the events. */
  function Calls(h: seq<Event>): History<NsSpec, NsStatus> {
    if h == [] then []
    else
      var before, last := h[..|h| - 1], h[|h| - 1];
      if last.Store? then Calls(before) + [last.entry] else Calls(before)
  }

  function DbAfter(start: State, h: seq<Event>): State {
    Replay(start, Calls(h))
  }

  function Served(start: State, h: seq<Event>, op: Call, f: Fault): Outcome<NsSpec, NsStatus> {
    Perform(DbAfter(start, h), Past(start, Calls(h), f), op, f)
  }

  function PcAfter(start: State, h: seq<Event>): Pc {
    if h == [] then Idle
    else
      var before, last := h[..|h| - 1], h[|h| - 1];
      var pc := PcAfter(start, before);
      match last
      case Broadcast(d, now) => if pc.Deploy? then Record(pc.k, pc.me, Verdict(pc.me.status, d, now)) else pc
      case Store(Other(_)) => pc
      case Store(Mine(op, f)) => Resume(pc, op, Served(start, before, op, f).reply)
  }

  /** The others never write a status and create objects without one. */
  predicate OthersMay(db: State, op: Call) {
    match op
    case Create(k, o) => k.kind == ChainNamespace ==> o.status == NO_STATUS
    case StatusUpdate(k, _) => k.kind != ChainNamespace
    case _ => true
  }

  ghost predicate Permits(start: State, h: seq<Event>, e: Event) {
    var pc := PcAfter(start, h);
    match e
    case Broadcast(d, _) =>
      && pc.Deploy?
      && (d.Rejected? || (ValidSpec(pc.me.spec) && d.txID != ""))
    case Store(Other(op)) => OthersMay(DbAfter(start, h), op)
    case Store(Mine(op, _)) => Fetches(op) || (!pc.Idle? && !pc.Deploy? && op == NextOp(pc))
  }

  ghost predicate Follows(start: State, h: seq<Event>) {
    h == [] || (Follows(start, h[..|h| - 1]) && Permits(start, h[..|h| - 1], h[|h| - 1]))
  }

  lemma FollowsStep(start: State, h: seq<Event>, e: Event)
    requires Follows(start, h) && Permits(start, h, e)
    ensures Follows(start, h + [e])
    ensures Calls(h + [e]) == if e.Store? then Calls(h) + [e.entry] else Calls(h)
    ensures e.Broadcast? ==>
              var pc := PcAfter(start, h);
              PcAfter(start, h + [e]) == Record(pc.k, pc.me, Verdict(pc.me.status, e.result, e.now))
    ensures e.Store? && e.entry.Mine? ==>
              PcAfter(start, h + [e]) == Resume(PcAfter(start, h), e.entry.op, Served(start, h, e.entry.op,
                  e.entry.fault).reply)
    ensures e.Store? && e.entry.Other? ==> PcAfter(start, h + [e]) == PcAfter(start, h)
  {
    assert (h + [e])[..|h|] == h;
  }
}
