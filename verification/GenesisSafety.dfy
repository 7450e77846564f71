/** The hand-off of the genesis block: a Genesis reported RUNNING has its block in
    the secret, where the gates of its consumers find it. */
module GenesisSafety {
  import opened Components
  import opened ApiServer
  import opened GenesisProgram
  import Gate

  /** The non-empty results the genesis service has returned so far. */
  function Generated(h: seq<Event>): seq<Result> {
    if h == [] then []
    else
      var last := h[|h| - 1];
      Generated(h[..|h| - 1])
      + (if last.Service? && last.result.Some? && last.result.value.block != "" then [last.result.value] else [])
  }

  /** The data are those of a generated result. */
  ghost predicate FromResult(key: string, results: seq<Result>, data: Data) {
    exists r :: r in results && data == SecretData(key, r)
  }

  ghost predicate HandedOver(sk: Key, key: string, results: seq<Result>, db: State) {
    sk in db.objects && FromResult(key, results, db.objects[sk].data)
  }

  /** What is fixed in a run, and whether RUNNING was written in it (`said`) or
      stood before it (`before`). */
  datatype Frame = Frame(sk: Key, spec: Spec, before: bool, said: bool)

  ghost predicate StoreOk(k: Key, f: Frame, results: seq<Result>, db: State) {
    && WellFormed(db) && k in db.objects && !db.objects[k].marked && db.objects[k].spec == f.spec
    && (f.sk in db.objects ==> !db.objects[f.sk].marked)
    && (db.objects[k].status.status == "RUNNING" ==> f.said || f.before)
    && (db.objects[k].status.status == "RUNNING" && f.said ==> HandedOver(f.sk, BlockKey(db.objects[k]), results, db))
  }

  /** A copy from before the last change of the Genesis. */
  predicate Outdated(k: Key, db: State, me: Obj) {
    k in db.objects && 0 < me.version < db.objects[k].version
  }

  /** The reconcile under way works on the current specification. */
  ghost predicate OnSpec(f: Frame, results: seq<Result>, db: State, pc: Pc) {
    && !pc.Idle? && !pc.DeleteStatus? && !pc.DropFinalizer?
    && pc.me.spec == f.spec
    && (pc.GetSecret? || pc.PutSecret? ==> FromResult(BlockKey(pc.me), results, pc.data))
    && (pc.Report? && pc.status.status == "RUNNING" ==> HandedOver(f.sk, BlockKey(pc.me), results, db))
  }

  ghost predicate PcOk(k: Key, f: Frame, results: seq<Result>, db: State, pc: Pc)
  {
    pc.Idle? || (!f.said && Outdated(k, db, pc.me)) || OnSpec(f, results, db, pc)
  }

  ghost predicate Inv(k: Key, f: Frame, results: seq<Result>, w: World) {
    StoreOk(k, f, results, w.db) && PcOk(k, f, results, w.db, w.pc)
  }

  /** More results only help. */
  lemma MoreResults(k: Key, f: Frame, results: seq<Result>, more: seq<Result>, w: World)
    requires Inv(k, f, results, w)
    ensures Inv(k, f, results + more, w)
  {
  }

  lemma OthersKeep(k: Key, f: Frame, results: seq<Result>, w: World, op: Call)
    requires k != f.sk && Inv(k, f, results, w) && OthersMay(k, f.sk, w.db, op)
    ensures Inv(k, f, results, w.(db := Effect(w.db, op).db))
  {
    EffectKeepsWellFormed(w.db, op);
  }

  /** Does this event write RUNNING into the status? */
  predicate Reports(k: Key, w: World, e: Event) {
    e.Step? && w.pc.Report? && w.pc.status.status == "RUNNING" && Next(k, w, e).db != w.db
  }

  function Seen(k: Key, f: Frame, w: World, e: Event): Frame {
    f.(said := f.said || Reports(k, w, e))
  }

  /** A step on the current specification, at the secret. */
  lemma SecretStep(k: Key, f: Frame, results: seq<Result>, w: World, fault: Fault)
    requires k.kind == Genesis && k != f.sk && Inv(k, f, results, w) && OnSpec(f, results, w.db, w.pc)
    requires (w.pc.GetSecret? || w.pc.PutSecret?) && SecretKey(k, w.pc.me) == f.sk && !fault.Stale?
    ensures Inv(k, Seen(k, f, w, Step(fault)), results, Next(k, w, Step(fault)))
  {
    EffectKeepsWellFormed(w.db, NextOp(k, w.pc));
  }

  /** A step on the current specification, at the Genesis itself. */
  lemma OwnStep(k: Key, f: Frame, results: seq<Result>, w: World, fault: Fault)
    requires k.kind == Genesis && k != f.sk && Inv(k, f, results, w) && OnSpec(f, results, w.db, w.pc)
    requires (w.pc.InitStatus? || w.pc.EnsureFinalizer? || w.pc.Report?) && !fault.Stale?
    ensures Inv(k, Seen(k, f, w, Step(fault)), results, Next(k, w, Step(fault)))
  {
    EffectKeepsWellFormed(w.db, NextOp(k, w.pc));
  }

  /** A step on an outdated copy at the Genesis: the server rejects it, so it can
      neither report nor get hold of the current version. */
  lemma OutdatedOwnStep(k: Key, f: Frame, results: seq<Result>, w: World, fault: Fault)
    requires k.kind == Genesis && f.sk.kind == Secret && Inv(k, f, results, w) && !fault.Stale?
    requires !w.pc.Idle? && !w.pc.Generate? && !w.pc.GetSecret? && !w.pc.PutSecret?
    requires !f.said && Outdated(k, w.db, w.pc.me)
    ensures Inv(k, Seen(k, f, w, Step(fault)), results, Next(k, w, Step(fault)))
  {
    assert Effect(w.db, NextOp(k, w.pc)).reply == Err(Conflict);
    assert Next(k, w, Step(fault)).db == w.db;
  }

  /** A step on an outdated copy at its secret. */
  lemma OutdatedSecretStep(k: Key, f: Frame, results: seq<Result>, w: World, fault: Fault)
    requires k.kind == Genesis && f.sk.kind == Secret && Inv(k, f, results, w) && !fault.Stale?
    requires (w.pc.GetSecret? || w.pc.PutSecret?) && !f.said && Outdated(k, w.db, w.pc.me)
    ensures Inv(k, Seen(k, f, w, Step(fault)), results, Next(k, w, Step(fault)))
  {
    EffectKeepsWellFormed(w.db, NextOp(k, w.pc));
  }

  lemma EventKeeps(k: Key, f: Frame, results: seq<Result>, w: World, e: Event)
    requires k.kind == Genesis && f.spec.OfGenesis? && f.sk == Key(Secret, k.namespace, f.spec.secretName)
    requires Inv(k, f, results, w) && Permits(k, f.sk, w, e)
    ensures Inv(k, Seen(k, f, w, e), results + Generated([e]), Next(k, w, e))
  {
    assert [e][..0] == [];
    var f' := Seen(k, f, w, e);
    match e
    case Fetch(_) => MoreResults(k, f', results, [], Next(k, w, e));
    case Others(op) =>
      OthersKeep(k, f, results, w, op);
      MoreResults(k, f', results, [], Next(k, w, e));
    case Service(r) =>
      MoreResults(k, f, results, Generated([e]), w);
      if r.Some? && r.value.block != "" {
        assert Generated([e]) == [r.value] && r.value in results + Generated([e]);
      }
    case Step(fault) =>
      var atSecret := w.pc.GetSecret? || w.pc.PutSecret?;
      if !f.said && Outdated(k, w.db, w.pc.me) {
        if atSecret {
          OutdatedSecretStep(k, f, results, w, fault);
        } else {
          OutdatedOwnStep(k, f, results, w, fault);
        }
      } else if atSecret {
        SecretStep(k, f, results, w, fault);
      } else {
        OwnStep(k, f, results, w, fault);
      }
      MoreResults(k, f', results, [], Next(k, w, e));
  }

  /** A run starts with a Genesis that is not being deleted; a reconcile may be
      under way, on a copy that is outdated, as right after an edit. */
  ghost predicate Starts(k: Key, sk: Key, w: World) {
    && k.kind == Genesis && WellFormed(w.db) && k in w.db.objects
    && var me := w.db.objects[k];
       && !me.marked && me.spec.OfGenesis?
       && (w.pc.Idle? || Outdated(k, w.db, w.pc.me))
       && sk == SecretKey(k, me) && (sk in w.db.objects ==> !w.db.objects[sk].marked)
  }

  predicate Running(db: State, k: Key) {
    k in db.objects && db.objects[k].status.status == "RUNNING"
  }

  /** Has RUNNING been written in the run? */
  predicate Reported(k: Key, w: World, h: seq<Event>) {
    h != [] && (Reported(k, w, h[..|h| - 1]) || Reports(k, Run(k, w, h[..|h| - 1]), h[|h| - 1]))
  }

  function FrameOf(k: Key, sk: Key, w: World, h: seq<Event>): Frame
    requires k in w.db.objects
  {
    Frame(sk, w.db.objects[k].spec, Running(w.db, k), Reported(k, w, h))
  }

  lemma {:induction false} AlwaysHandedOver(k: Key, sk: Key, w: World, h: seq<Event>)
    requires Starts(k, sk, w) && Follows(k, sk, w, h)
    ensures Inv(k, FrameOf(k, sk, w, h), Generated(h), Run(k, w, h))
    decreases |h|
  {
    if h != [] {
      var before, last := h[..|h| - 1], h[|h| - 1];
      AlwaysHandedOver(k, sk, w, before);
      EventKeeps(k, FrameOf(k, sk, w, before), Generated(before), Run(k, w, before), last);
      assert [last][..0] == [];
      assert Generated(h) == Generated(before) + Generated([last]);
    }
  }

  /** Every edit of the specification makes a start of a run: the reconcile under
      way, if any, is left with an outdated copy. */
  lemma EditStarts(k: Key, sk: Key, w: World, o: Obj)
    requires k.kind == Genesis && WellFormed(w.db) && k in w.db.objects && !w.db.objects[k].marked
    requires w.pc.Idle? || 0 < w.pc.me.version < w.db.next
    requires o.spec.OfGenesis? && Effect(w.db, Update(k, o)).reply.Ok?
    requires sk == SecretKey(k, o) && (sk in w.db.objects ==> !w.db.objects[sk].marked)
    ensures Starts(k, sk, Next(k, w, Others(Update(k, o))))
  {
    EffectKeepsWellFormed(w.db, Update(k, o));
  }

  /** Hand-off: whenever the Genesis says RUNNING, in any run, and has said so since
      the specification was last edited, every consumer that names its secret,
      namespace and key finds its gate open; and unless the key is a reserved name,
      the entry is a generated block. */
  lemma HandOff(k: Key, sk: Key, w: World, h: seq<Event>, ref: GenesisRef, namespace: string)
    requires Starts(k, sk, w) && Follows(k, sk, w, h)
    requires Running(Run(k, w, h).db, k) && (Reported(k, w, h) || !Running(w.db, k))
    requires Gate.GateKey(ref, namespace) == sk && Gate.GateEntry(ref) == w.db.objects[k].spec.blockKey
    ensures var db := Run(k, w, h).db; var key := w.db.objects[k].spec.blockKey;
            && Gate.Opens(db, ref, namespace)
            && sk in db.objects && key in db.objects[sk].data
            && (!Reserved(key) ==> exists r :: r in Generated(h) && db.objects[sk].data[key] == r.block)
  {
    AlwaysHandedOver(k, sk, w, h);
    var db := Run(k, w, h).db;
    var key := w.db.objects[k].spec.blockKey;
    var r :| r in Generated(h) && db.objects[sk].data == SecretData(key, r);
    BlockStoredIff(key, r);
  }

  /** Right after an edit of a RUNNING Genesis a consumer of its new secret and key
      finds its gate open exactly if that entry happens to be there (or no secret is
      named): the status says nothing about the new specification. */
  lemma EditGateIff(k: Key, sk: Key, w: World, o: Obj, ref: GenesisRef, namespace: string)
    requires Running(w.db, k) && k.kind == Genesis && !w.db.objects[k].marked
    requires Effect(w.db, Update(k, o)).reply.Ok? && o.spec.OfGenesis? && sk == SecretKey(k, o)
    requires Gate.GateKey(ref, namespace) == sk && Gate.GateEntry(ref) == o.spec.blockKey
    ensures var db := Next(k, w, Others(Update(k, o))).db;
            && Running(db, k)
            && (Gate.Opens(db, ref, namespace) <==>
                ref.secretName == "" || (sk in w.db.objects && o.spec.blockKey in w.db.objects[sk].data))
  {
  }
}
