/** The Genesis reconciler as a program suspended at every API call and at the
    generation of the block. */
module GenesisProgram {
  import opened Prelude
  import opened ApiServer

  const FINALIZER := "genesis.fabricx.kfsoft.tech/finalizer"

  datatype Org = Org(name: string, mspID: string)
  datatype Consenter = Consenter(host: string, port: int, mspID: string)

  datatype Spec =
    | OfGenesis(channelID: string, secretName: string, blockKey: string,
                ordererOrgs: seq<Org>, applicationOrgs: seq<Org>, consenters: seq<Consenter>)
    | OfSecret

  datatype Status = Status(status: string, message: string)

  type Data = map<string, string>
  type Obj = Object<Spec, Status>
  type State = Db<Spec, Status>
  type Call = Op<Spec, Status>
  type Answer = Reply<Spec, Status>

  /** validateGenesisSpec */
  predicate ValidSpec(s: Spec) {
    && s.OfGenesis?
    && s.channelID != ""
    && (|s.ordererOrgs| > 0 || |s.applicationOrgs| > 0)
    && s.secretName != "" && s.blockKey != ""
    && (forall org :: org in s.ordererOrgs + s.applicationOrgs ==> org.name != "" && org.mspID != "")
    && forall c :: c in s.consenters ==> c.host != "" && c.port != 0 && c.mspID != ""
  }

  /** What the genesis service returns; `json` is the decoded block, if it decodes. */
  datatype Result = Result(block: string, json: Option<string>, sharedProto: Option<string>, sharedJson: Option<string>)

  /** The map storeGenesisBlock puts in the secret. */
  function SecretData(key: string, r: Result): Data {
    map[key := r.block]
    + map["genesis.json" := if r.json.Some? then r.json.value else "{}"]
    + (if r.sharedProto.Some? then map["shared-config.pb" := r.sharedProto.value] else map[])
    + if r.sharedJson.Some? then map["shared-config.json" := r.sharedJson.value] else map[]
  }

  /** What is written over the block, if its key is one of the reserved names. */
  function Overwriter(key: string, r: Result): Option<string> {
    if key == "shared-config.json" then r.sharedJson
    else if key == "shared-config.pb" then r.sharedProto
    else if key == "genesis.json" then Some(if r.json.Some? then r.json.value else "{}")
    else None
  }

  predicate Reserved(key: string) {
    key in {"genesis.json", "shared-config.pb", "shared-config.json"}
  }

  /** The key maps to the block exactly when nothing else was written over it. */
  lemma BlockStoredIff(key: string, r: Result)
    ensures key in SecretData(key, r)
    ensures SecretData(key, r)[key] == r.block <==> Overwriter(key, r).None? || Overwriter(key, r).value == r.block
    ensures !Reserved(key) ==> Overwriter(key, r).None?
  {
    assert "genesis.json" != "shared-config.pb" && "shared-config.pb" != "shared-config.json";
    assert "genesis.json" != "shared-config.json";
  }

  datatype Pc =
    | Idle
    | InitStatus(me: Obj)
    | EnsureFinalizer(me: Obj)
    | Generate(me: Obj)
    | GetSecret(me: Obj, data: Data)
    | PutSecret(me: Obj, data: Data, found: Option<Obj>)
    | Report(me: Obj, status: Status)
    | DeleteStatus(me: Obj)
    | DropFinalizer(me: Obj)

  const INITIALIZING := Status("PENDING", "Initializing Genesis")
  const DELETING := Status("PENDING", "Deleting Genesis resources")
  const STORED := Status("RUNNING", "Genesis block created and stored successfully")
  const NO_FINALIZER := Status("FAILED", "Failed to ensure finalizer")
  const NOT_VALID := Status("FAILED", "Invalid Genesis spec")
  const NO_BLOCK := Status("FAILED", "Failed to create genesis block")
  const NOT_STORED := Status("FAILED", "Failed to store genesis block")
  const NO_REMOVAL := Status("FAILED", "Failed to remove finalizer")

  function BlockKey(me: Obj): string {
    if me.spec.OfGenesis? then me.spec.blockKey else ""
  }

  function SecretKey(k: Key, me: Obj): Key {
    Key(Secret, k.namespace, if me.spec.OfGenesis? then me.spec.secretName else "")
  }

  function NewSecret(k: Key, data: Data): Obj {
    Object(OfSecret, Status("", ""), map[], data, [], false, Some(k), 0)
  }

  function NextOp(k: Key, pc: Pc): Call
    requires !pc.Idle? && !pc.Generate?
  {
    match pc
    case InitStatus(me) => StatusUpdate(k, me.(status := INITIALIZING))
    case EnsureFinalizer(me) => Update(k, me.(finalizers := me.finalizers + [FINALIZER]))
    case GetSecret(me, _) => Get(SecretKey(k, me))
    case PutSecret(me, data, None) => Create(SecretKey(k, me), NewSecret(k, data))
    case PutSecret(me, data, Some(o)) => Update(SecretKey(k, me), o.(data := data, owner := Some(k)))
    case Report(me, status) => StatusUpdate(k, me.(status := status))
    case DeleteStatus(me) => StatusUpdate(k, me.(status := DELETING))
    case DropFinalizer(me) => Update(k, me.(finalizers := RemoveString(me.finalizers, FINALIZER)))
  }

  function AfterFinalizer(me: Obj): Pc {
    if ValidSpec(me.spec) then Generate(me) else Report(me, NOT_VALID)
  }

  function AfterStatus(me: Obj): Pc {
    if FINALIZER in me.finalizers then AfterFinalizer(me) else EnsureFinalizer(me)
  }

  function Begin(reply: Answer): Pc {
    match reply
    case Err(_) => Idle
    case Ok(me) =>
      if me.marked then DeleteStatus(me)
      else if me.status.status == "" then InitStatus(me)
      else AfterStatus(me)
  }

  function Copy(me: Obj, status: Status, reply: Answer): Obj {
    if reply.Ok? then reply.stored else me.(status := status)
  }

  function Resume(k: Key, pc: Pc, reply: Answer): Pc {
    match pc
    case InitStatus(me) => AfterStatus(Copy(me, INITIALIZING, reply))
    case EnsureFinalizer(me) =>
      if reply.Ok? then AfterFinalizer(reply.stored)
      else Report(me.(finalizers := me.finalizers + [FINALIZER]), NO_FINALIZER)
    case GetSecret(me, data) =>
      if reply.Ok? then
        // a secret controlled by somebody else cannot be taken over
        if reply.stored.owner in {None, Some(k)} then PutSecret(me, data, Some(reply.stored))
        else Report(me, NOT_STORED)
      else if reply.error == NotFound then PutSecret(me, data, None)
      else Report(me, NOT_STORED)
    case PutSecret(me, _, _) => Report(me, if reply.Ok? then STORED else NOT_STORED)
    case DeleteStatus(me) => DropFinalizer(Copy(me, DELETING, reply))
    case DropFinalizer(me) =>
      if reply.Ok? then Idle else Report(me.(finalizers := RemoveString(me.finalizers, FINALIZER)), NO_REMOVAL)
    case _ => Idle
  }

  function AfterService(pc: Pc, r: Option<Result>): Pc
    requires pc.Generate?
  {
    if r.Some? && r.value.block != "" then GetSecret(pc.me, SecretData(BlockKey(pc.me), r.value))
    else Report(pc.me, NO_BLOCK)
  }

  /** `Fetch` starts a reconcile; `Service` is the answer of the genesis service. */
  datatype Event = Fetch(fault: Fault) | Step(fault: Fault) | Others(op: Call) | Service(result: Option<Result>)

  datatype World = World(db: State, pc: Pc)

  function Next(k: Key, w: World, e: Event): World {
    match e
    case Fetch(f) => w.(pc := Begin(Perform(w.db, w.db, Get(k), f).reply))
    case Step(f) =>
      if w.pc.Idle? || w.pc.Generate? then w
      else
        var out := Perform(w.db, w.db, NextOp(k, w.pc), f);
        World(out.db, Resume(k, w.pc, out.reply))
    case Others(op) => w.(db := Effect(w.db, op).db)
    case Service(r) => if w.pc.Generate? then w.(pc := AfterService(w.pc, r)) else w
  }

  /** The others leave the Genesis' specification, status and existence and its
      secret alone. */
  predicate OthersMay(k: Key, sk: Key, db: State, op: Call) {
    match op
    case Get(_) => true
    case Create(key, _) => key != sk
    case Update(key, o) => key != sk && (key == k && k in db.objects ==> o.spec == db.objects[k].spec)
    case StatusUpdate(key, _) => key != sk && key != k
    case Delete(key) => key != sk && key != k
  }

  predicate Permits(k: Key, sk: Key, w: World, e: Event) {
    match e
    case Fetch(f) => !f.Stale?
    case Step(f) => !f.Stale? && !w.pc.Idle? && !w.pc.Generate?
    case Others(op) => OthersMay(k, sk, w.db, op)
    case Service(_) => w.pc.Generate?
  }

  function Run(k: Key, w: World, h: seq<Event>): World {
    if h == [] then w else Next(k, Run(k, w, h[..|h| - 1]), h[|h| - 1])
  }

  predicate Follows(k: Key, sk: Key, w: World, h: seq<Event>) {
    h == [] || (Follows(k, sk, w, h[..|h| - 1]) && Permits(k, sk, Run(k, w, h[..|h| - 1]), h[|h| - 1]))
  }
}
