/** Undisturbed reconciles of a Genesis: what one of them leaves behind. */
module GenesisPasses {
  import opened Prelude
  import opened ApiServer
  import opened GenesisProgram

  function Rank(pc: Pc): nat {
    match pc
    case Idle => 0
    case Report(_, _) => 1
    case PutSecret(_, _, _) => 2
    case GetSecret(_, _) => 3
    case Generate(_) => 4
    case EnsureFinalizer(_) => 5
    case InitStatus(_) => 6
    case DropFinalizer(_) => 2
    case DeleteStatus(_) => 3
  }

  /** The rest of a reconcile; the genesis service answers with `r`. */
  function Solo(k: Key, db: State, pc: Pc, r: Option<Result>): State
    decreases Rank(pc)
  {
    if pc.Idle? then db
    else if pc.Generate? then Solo(k, db, AfterService(pc, r), r)
    else
      var out := Effect(db, NextOp(k, pc));
      Solo(k, out.db, Resume(k, pc, out.reply), r)
  }

  function Pass(k: Key, db: State, r: Option<Result>): State {
    Solo(k, db, Begin(Effect(db, Get(k)).reply), r)
  }

  /** The entries of the secret: the block under its key unless that is a reserved
      name, the decoded block or an empty object, and the shared configuration. */
  lemma SecretSpelledOut(key: string, r: Result)
    ensures var data := SecretData(key, r);
            && (key !in {"genesis.json", "shared-config.pb", "shared-config.json"} ==>
                  key in data && data[key] == r.block)
            && "genesis.json" in data
            && data["genesis.json"] == (if r.json.Some? then r.json.value else "{}")
            && (r.sharedProto.Some? ==> "shared-config.pb" in data && data["shared-config.pb"] == r.sharedProto.value)
            && (r.sharedJson.Some? ==> "shared-config.json" in data && data["shared-config.json"] == r.sharedJson.value)
            && data.Keys <= {key, "genesis.json", "shared-config.pb", "shared-config.json"}
  {
    assert "genesis.json" != "shared-config.pb" && "shared-config.pb" != "shared-config.json";
    assert "genesis.json" != "shared-config.json";
  }

  /** May this secret be written for `k`? */
  predicate Free(k: Key, db: State, sk: Key) {
    sk in db.objects ==> !db.objects[sk].marked && db.objects[sk].owner in {None, Some(k)}
  }

  /** A Genesis past its preamble. */
  ghost predicate Ready(k: Key, db: State, me: Obj) {
    && k.kind == Genesis && WellFormed(db) && k in db.objects && db.objects[k] == me && !me.marked
    && FINALIZER in me.finalizers && me.spec.OfGenesis?
  }

  /** What a reconcile leaves: the secret written and RUNNING said, or neither. */
  ghost predicate Left(k: Key, db: State, db': State, r: Option<Result>) {
    && k in db.objects && k in db'.objects && !db'.objects[k].marked && db'.objects[k].spec == db.objects[k].spec
    && "genesis.fabricx.kfsoft.tech/finalizer" in db'.objects[k].finalizers && db.objects[k].spec.OfGenesis?
    && var spec := db.objects[k].spec;
       var sk := Key(Secret, k.namespace, spec.secretName);
       if ValidSpec(spec) && r.Some? && r.value.block != "" && Free(k, db, sk) then
         && db'.objects[k].status.status == "RUNNING"
         && sk in db'.objects && db'.objects[sk].data == SecretData(spec.blockKey, r.value)
         && db'.objects[sk].owner == Some(k)
       else
         && db'.objects[k].status.status == "FAILED"
         && (sk in db'.objects <==> sk in db.objects)
         && (sk in db.objects ==> db'.objects[sk] == db.objects[sk])
  }

  lemma ReportLands(k: Key, db: State, me: Obj, status: Status, r: Option<Result>)
    requires Ready(k, db, me)
    ensures var db' := Solo(k, db, Report(me, status), r);
            && k in db'.objects && db'.objects[k] == me.(status := status, version := db.next)
            && forall other :: other != k ==>
                 && (other in db'.objects <==> other in db.objects)
                 && (other in db.objects ==> db'.objects[other] == db.objects[other])
  {
    var pc := Report(me, status);
    var out := Effect(db, NextOp(k, pc));
    assert Solo(k, db, pc, r) == Solo(k, out.db, Idle, r) == out.db;
  }

  lemma {:induction false} StoreLands(k: Key, db: State, me: Obj, r: Option<Result>)
    requires Ready(k, db, me) && ValidSpec(me.spec) && r.Some? && r.value.block != ""
    requires var sk := SecretKey(k, me); sk in db.objects ==> !db.objects[sk].marked
    ensures Left(k, db, Solo(k, db, GetSecret(me, SecretData(me.spec.blockKey, r.value)), r), r)
  {
    var sk, data := SecretKey(k, me), SecretData(me.spec.blockKey, r.value);
    var pc := GetSecret(me, data);
    if !Free(k, db, sk) {
      assert Solo(k, db, pc, r) == Solo(k, db, Report(me, NOT_STORED), r);
      ReportLands(k, db, me, NOT_STORED, r);
    } else {
      var pc' := PutSecret(me, data, if sk in db.objects then Some(db.objects[sk]) else None);
      assert Solo(k, db, pc, r) == Solo(k, db, pc', r);
      var out := Effect(db, NextOp(k, pc'));
      EffectKeepsWellFormed(db, NextOp(k, pc'));
      assert Solo(k, db, pc', r) == Solo(k, out.db, Report(me, STORED), r);
      ReportLands(k, out.db, me, STORED, r);
    }
  }

  lemma WorkLands(k: Key, db: State, me: Obj, r: Option<Result>)
    requires Ready(k, db, me)
    requires var sk := SecretKey(k, me); sk in db.objects ==> !db.objects[sk].marked
    ensures Left(k, db, Solo(k, db, AfterFinalizer(me), r), r)
  {
    if !ValidSpec(me.spec) {
      ReportLands(k, db, me, NOT_VALID, r);
    } else {
      assert Solo(k, db, Generate(me), r) == Solo(k, db, AfterService(Generate(me), r), r);
      if r.Some? && r.value.block != "" {
        StoreLands(k, db, me, r);
      } else {
        ReportLands(k, db, me, NO_BLOCK, r);
      }
    }
  }

  lemma Prologue(k: Key, db: State, r: Option<Result>) returns (db': State, me: Obj)
    requires k.kind == Genesis && WellFormed(db) && k in db.objects && !db.objects[k].marked
    requires db.objects[k].spec.OfGenesis?
    ensures Pass(k, db, r) == Solo(k, db', AfterFinalizer(me), r)
    ensures Ready(k, db', me) && me.spec == db.objects[k].spec
    ensures forall other :: other != k ==>
              && (other in db'.objects <==> other in db.objects)
              && (other in db.objects ==> db'.objects[other] == db.objects[other])
  {
    db', me := db, db.objects[k];
    if me.status.status == "" {
      var pc := InitStatus(me);
      var out := Effect(db, NextOp(k, pc));
      EffectKeepsWellFormed(db, NextOp(k, pc));
      assert Solo(k, db, pc, r) == Solo(k, out.db, AfterStatus(out.reply.stored), r);
      db', me := out.db, out.reply.stored;
    }
    assert Pass(k, db, r) == Solo(k, db', AfterStatus(me), r);
    if FINALIZER !in me.finalizers {
      var pc := EnsureFinalizer(me);
      var out := Effect(db', NextOp(k, pc));
      EffectKeepsWellFormed(db', NextOp(k, pc));
      assert Solo(k, db', pc, r) == Solo(k, out.db, AfterFinalizer(out.reply.stored), r);
      db', me := out.db, out.reply.stored;
    }
  }

  /** One reconcile of a Genesis that is not being deleted leaves it with the
      finalizer; it writes the secret it names and says RUNNING exactly if the
      specification is valid, the service gives a block and the secret is free, and
      says FAILED and leaves the secret alone otherwise. */
  lemma PassExact(k: Key, db: State, r: Option<Result>)
    requires k.kind == Genesis && WellFormed(db) && k in db.objects && !db.objects[k].marked
    requires db.objects[k].spec.OfGenesis?
    requires var sk := Key(Secret, k.namespace, db.objects[k].spec.secretName);
             sk in db.objects ==> !db.objects[sk].marked
    ensures Left(k, db, Pass(k, db, r), r)
  {
    var db1, me := Prologue(k, db, r);
    WorkLands(k, db1, me, r);
  }

  /** One reconcile of a deleted Genesis takes the finalizer off and touches nothing
      else. */
  lemma DeletionPass(k: Key, db: State, r: Option<Result>)
    requires k.kind == Genesis && WellFormed(db) && k in db.objects && db.objects[k].marked
    ensures var me, db' := db.objects[k], Pass(k, db, r);
            && (k in db'.objects ==> "genesis.fabricx.kfsoft.tech/finalizer" !in db'.objects[k].finalizers)
            && ((forall x :: x in me.finalizers ==> x == FINALIZER) ==> k !in db'.objects)
            && forall other :: other != k ==>
                 && (other in db'.objects <==> other in db.objects)
                 && (other in db.objects ==> db'.objects[other] == db.objects[other])
  {
    var me := db.objects[k];
    var pc := DeleteStatus(me);
    var out := Effect(db, NextOp(k, pc));
    EffectKeepsWellFormed(db, NextOp(k, pc));
    var me' := out.reply.stored;
    assert Solo(k, db, pc, r) == Solo(k, out.db, DropFinalizer(me'), r);
    var out' := Effect(out.db, NextOp(k, DropFinalizer(me')));
    assert Solo(k, out.db, DropFinalizer(me'), r) == Solo(k, out'.db, Idle, r);
    if forall x :: x in me.finalizers ==> x == FINALIZER {
      RemoveOnly(me.finalizers, FINALIZER);
    }
  }

  /** Past the preamble the copy carries the finalizer. */
  predicate Guarded(pc: Pc) {
    pc.Generate? || pc.GetSecret? || pc.PutSecret? ==> FINALIZER in pc.me.finalizers
  }

  /** So in every run the service is only asked, and the secret only written, for a
      copy that carries the finalizer. */
  lemma {:induction false} AlwaysGuarded(k: Key, sk: Key, w: World, h: seq<Event>)
    requires k.kind == Genesis && w.pc.Idle? && Follows(k, sk, w, h)
    ensures Guarded(Run(k, w, h).pc)
    decreases |h|
  {
    if h != [] {
      AlwaysGuarded(k, sk, w, h[..|h| - 1]);
    }
  }
}
