/** Exactly when RUNNING can be relied on: from which states on, whatever happens, a
    Genesis that says so has the entry its consumers look for in its secret. */
module GenesisPromise {
  import opened Prelude
  import opened ApiServer
  import opened GenesisProgram
  import opened GenesisSafety

  predicate EntryThere(sk: Key, key: string, db: State) {
    sk in db.objects && key in db.objects[sk].data
  }

  /** In every run from here RUNNING implies that the entry is there. */
  ghost predicate Promise(k: Key, sk: Key, key: string, w: World) {
    forall h :: Follows(k, sk, w, h) && Running(Run(k, w, h).db, k) ==> EntryThere(sk, key, Run(k, w, h).db)
  }

  /** May the controller of `k` write this secret? */
  predicate Ours(k: Key, o: Obj) {
    o.owner in {None, Some(k)}
  }

  /** A reconcile that has yet to generate for `me` can come to data without `key`. */
  predicate MayOmit(me: Obj, key: string) {
    key != BlockKey(me) && key != "genesis.json"
  }

  /** The reconcile under way is about to store data without `key` in `sk`. */
  predicate Threatens(k: Key, sk: Key, key: string, db: State, pc: Pc)
    requires sk in db.objects
  {
    && !pc.Idle? && SecretKey(k, pc.me) == sk
    && match pc
       case PutSecret(_, data, found) =>
         key !in data && found.Some? && found.value.version in {0, db.objects[sk].version}
       case GetSecret(_, data) => key !in data && Ours(k, db.objects[sk])
       case Generate(me) => MayOmit(me, key) && Ours(k, db.objects[sk])
       case InitStatus(me) =>
         FINALIZER in me.finalizers && ValidSpec(me.spec) && MayOmit(me, key) && Ours(k, db.objects[sk])
       case _ => false
  }

  /** The entry is there and the reconcile under way, current or outdated, leaves it. */
  ghost predicate Safe(k: Key, sk: Key, spec: Spec, w: World) {
    && WellFormed(w.db) && k in w.db.objects && !w.db.objects[k].marked && w.db.objects[k].spec == spec
    && spec.OfGenesis? && EntryThere(sk, spec.blockKey, w.db) && !w.db.objects[sk].marked
    && (w.pc.Idle? || w.pc.me.spec == spec || Outdated(k, w.db, w.pc.me))
    && !Threatens(k, sk, spec.blockKey, w.db, w.pc)
  }

  lemma DataHolds(key: string, blockKey: string, r: Result)
    requires key == blockKey || key == "genesis.json"
    ensures key in SecretData(blockKey, r)
  {
  }

  /** The others can neither remove the entry nor make a reconcile a threat. */
  lemma OthersKeepSafe(k: Key, sk: Key, spec: Spec, w: World, op: Call)
    requires k != sk && Safe(k, sk, spec, w) && OthersMay(k, sk, w.db, op)
    ensures Safe(k, sk, spec, Next(k, w, Others(op)))
  {
    EffectKeepsWellFormed(w.db, op);
  }

  /** A first status or finalizer: an outdated copy is rejected. */
  lemma PreambleKeepsSafe(k: Key, sk: Key, spec: Spec, w: World, f: Fault)
    requires k.kind == Genesis && sk.kind == Secret && Safe(k, sk, spec, w) && !f.Stale?
    requires w.pc.InitStatus? || w.pc.EnsureFinalizer?
    ensures Safe(k, sk, spec, Next(k, w, Step(f)))
  {
    EffectKeepsWellFormed(w.db, NextOp(k, w.pc));
  }

  /** A report, or a step of a deletion on an outdated copy. */
  lemma EndKeepsSafe(k: Key, sk: Key, spec: Spec, w: World, f: Fault)
    requires k.kind == Genesis && sk.kind == Secret && Safe(k, sk, spec, w) && !f.Stale?
    requires w.pc.Report? || w.pc.DeleteStatus? || w.pc.DropFinalizer?
    ensures Safe(k, sk, spec, Next(k, w, Step(f)))
  {
    EffectKeepsWellFormed(w.db, NextOp(k, w.pc));
  }

  /** A look at a secret. */
  lemma LookKeepsSafe(k: Key, sk: Key, spec: Spec, w: World, f: Fault)
    requires k.kind == Genesis && sk.kind == Secret && Safe(k, sk, spec, w) && !f.Stale? && w.pc.GetSecret?
    ensures Safe(k, sk, spec, Next(k, w, Step(f)))
  {
  }

  /** A write of a secret. */
  lemma WriteKeepsSafe(k: Key, sk: Key, spec: Spec, w: World, f: Fault)
    requires k.kind == Genesis && sk.kind == Secret && Safe(k, sk, spec, w) && !f.Stale? && w.pc.PutSecret?
    ensures Safe(k, sk, spec, Next(k, w, Step(f)))
  {
    EffectKeepsWellFormed(w.db, NextOp(k, w.pc));
  }

  lemma ServiceKeepsSafe(k: Key, sk: Key, spec: Spec, w: World, r: Option<Result>)
    requires k.kind == Genesis && Safe(k, sk, spec, w) && w.pc.Generate?
    ensures Safe(k, sk, spec, Next(k, w, Event.Service(r)))
  {
    if r.Some? && !MayOmit(w.pc.me, spec.blockKey) {
      DataHolds(spec.blockKey, BlockKey(w.pc.me), r.value);
    }
  }

  lemma EventKeepsSafe(k: Key, sk: Key, spec: Spec, w: World, e: Event)
    requires k.kind == Genesis && sk.kind == Secret && Safe(k, sk, spec, w) && Permits(k, sk, w, e)
    ensures Safe(k, sk, spec, Next(k, w, e))
  {
    match e
    case Fetch(_) =>
    case Service(r) => ServiceKeepsSafe(k, sk, spec, w, r);
    case Others(op) => OthersKeepSafe(k, sk, spec, w, op);
    case Step(f) =>
      match w.pc
      case GetSecret(_, _) => LookKeepsSafe(k, sk, spec, w, f);
      case PutSecret(_, _, _) => WriteKeepsSafe(k, sk, spec, w, f);
      case InitStatus(_) => PreambleKeepsSafe(k, sk, spec, w, f);
      case EnsureFinalizer(_) => PreambleKeepsSafe(k, sk, spec, w, f);
      case _ => EndKeepsSafe(k, sk, spec, w, f);
  }

  lemma {:induction false} AlwaysSafe(k: Key, sk: Key, spec: Spec, w: World, h: seq<Event>)
    requires k.kind == Genesis && sk.kind == Secret && Safe(k, sk, spec, w) && Follows(k, sk, w, h)
    ensures Safe(k, sk, spec, Run(k, w, h))
    decreases |h|
  {
    if h != [] {
      AlwaysSafe(k, sk, spec, w, h[..|h| - 1]);
      EventKeepsSafe(k, sk, spec, Run(k, w, h[..|h| - 1]), h[|h| - 1]);
    }
  }

  /** How many events a threat is away from being carried out. */
  function Distance(pc: Pc): nat {
    match pc
    case InitStatus(_) => 4
    case Generate(_) => 3
    case GetSecret(_, _) => 2
    case _ => 1
  }

  /** A threat on an outdated copy, to a Genesis that says RUNNING. */
  ghost predicate Pending(k: Key, sk: Key, key: string, w: World) {
    && k.kind == Genesis && sk.kind == Secret && WellFormed(w.db)
    && Running(w.db, k) && EntryThere(sk, key, w.db) && !w.db.objects[sk].marked
    && !w.pc.Idle? && Outdated(k, w.db, w.pc.me) && Threatens(k, sk, key, w.db, w.pc)
  }

  /** The next event on the way. */
  function Onward(pc: Pc): Event {
    if pc.Generate? then Event.Service(Some(Result("block", None, None, None))) else Step(Clear)
  }

  lemma OnwardStep(k: Key, sk: Key, key: string, w: World)
    requires Pending(k, sk, key, w)
    ensures Permits(k, sk, w, Onward(w.pc))
    ensures var w' := Next(k, w, Onward(w.pc));
            if w.pc.PutSecret? then Running(w'.db, k) && !EntryThere(sk, key, w'.db)
            else Pending(k, sk, key, w') && Distance(w'.pc) < Distance(w.pc)
  {
  }

  lemma Extend(k: Key, sk: Key, w: World, h: seq<Event>, e: Event)
    requires Follows(k, sk, w, h) && Permits(k, sk, Run(k, w, h), e)
    ensures Follows(k, sk, w, h + [e]) && Run(k, w, h + [e]) == Next(k, Run(k, w, h), e)
  {
    assert (h + [e])[..|h|] == h;
  }

  /** A pending threat can be carried out. */
  lemma {:induction false} CarriedOut(k: Key, sk: Key, key: string, w: World, h: seq<Event>) returns (h': seq<Event>)
    requires Follows(k, sk, w, h) && Pending(k, sk, key, Run(k, w, h))
    ensures Follows(k, sk, w, h') && Running(Run(k, w, h').db, k) && !EntryThere(sk, key, Run(k, w, h').db)
    decreases Distance(Run(k, w, h).pc)
  {
    var v := Run(k, w, h);
    OnwardStep(k, sk, key, v);
    Extend(k, sk, w, h, Onward(v.pc));
    h' := h + [Onward(v.pc)];
    if !v.pc.PutSecret? {
      h' := CarriedOut(k, sk, key, w, h');
    }
  }

  /** Exactly when RUNNING can be relied on, in every run from a start `w`: it is not
      yet said, or the entry is there and no reconcile under way threatens it.  A
      reconcile left over from an older specification does threaten it, if that
      names the same secret and another key. */
  lemma PromiseIff(k: Key, sk: Key, w: World)
    requires Starts(k, sk, w)
    ensures var key := w.db.objects[k].spec.blockKey;
            Promise(k, sk, key, w) <==>
            !Running(w.db, k) || (EntryThere(sk, key, w.db) && !Threatens(k, sk, key, w.db, w.pc))
  {
    var spec := w.db.objects[k].spec;
    var key := spec.blockKey;
    if !Running(w.db, k) {
      forall h | Follows(k, sk, w, h) && Running(Run(k, w, h).db, k)
        ensures EntryThere(sk, key, Run(k, w, h).db)
      {
        AlwaysHandedOver(k, sk, w, h);
        HandedOverHasEntry(sk, key, Generated(h), Run(k, w, h).db);
      }
    } else if !EntryThere(sk, key, w.db) {
      assert Run(k, w, []) == w && Follows(k, sk, w, []);
    } else if Threatens(k, sk, key, w.db, w.pc) {
      assert Run(k, w, []) == w && Follows(k, sk, w, []);
      var h := CarriedOut(k, sk, key, w, []);
    } else {
      forall h | Follows(k, sk, w, h)
        ensures EntryThere(sk, key, Run(k, w, h).db)
      {
        AlwaysSafe(k, sk, spec, w, h);
      }
    }
  }

  lemma HandedOverHasEntry(sk: Key, key: string, results: seq<Result>, db: State)
    requires HandedOver(sk, key, results, db)
    ensures EntryThere(sk, key, db)
  {
    var r :| r in results && db.objects[sk].data == SecretData(key, r);
    DataHolds(key, key, r);
  }

  /** So one outdated write is enough to break it: the reconcile stood before its
      update of the same secret when the block key was edited. */
  lemma OutdatedWriteOverwrites(k: Key, sk: Key, w: World)
    requires Starts(k, sk, w) && Running(w.db, k) && EntryThere(sk, w.db.objects[k].spec.blockKey, w.db)
    requires w.pc.PutSecret? && w.pc.found == Some(w.db.objects[sk]) && SecretKey(k, w.pc.me) == sk
    requires w.db.objects[k].spec.blockKey !in w.pc.data
    ensures var db := Next(k, w, Step(Clear)).db;
            Running(db, k) && !EntryThere(sk, w.db.objects[k].spec.blockKey, db)
  {
    OnwardStep(k, sk, w.db.objects[k].spec.blockKey, w);
  }

  /** A fetch answered from before the last edit is such a threat: it starts a valid
      reconcile for the older key of the same secret. */
  lemma OutdatedFetchThreatens(k: Key, sk: Key, w: World, was: Obj)
    requires Starts(k, sk, w) && Running(w.db, k) && EntryThere(sk, w.db.objects[k].spec.blockKey, w.db)
    requires Outdated(k, w.db, was) && !was.marked && FINALIZER in was.finalizers && ValidSpec(was.spec)
    requires SecretKey(k, was) == sk && Ours(k, w.db.objects[sk])
    ensures var w', key := w.(pc := Begin(Ok(was))), w.db.objects[k].spec.blockKey;
            Starts(k, sk, w') && (Promise(k, sk, key, w') <==> !MayOmit(was, key))
  {
    PromiseIff(k, sk, w.(pc := Begin(Ok(was))));
  }
}
