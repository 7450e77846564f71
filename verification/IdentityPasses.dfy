/** Undisturbed reconciles of an Identity with a CA that always grants: how many
    certificates `n` of them are worth. */
module IdentityPasses {
  import opened Prelude
  import opened ApiServer
  import opened IdentityProgram

  function Rank(pc: Pc): nat {
    match pc
    case Idle => 0
    case RemoveFinalizer(_) => 1
    case WriteStatus(_, _, _) => 1
    case Refetch(_, _) => 2
    case UpdateSecret(_, _) => 3
    case CreateSecret(_, _) => 4
    case Enrol(_) => 5
    case Validate(_) => 5
    case Exists(_) => 6
    case AddFinalizer(_) => 7
  }

  datatype Ending = Ending(db: State, issued: nat)

  function Solo(parses: string -> bool, k: Key, db: State, pc: Pc, grant: Data): Ending
    decreases Rank(pc)
  {
    if pc.Idle? then Ending(db, 0)
    else if pc.Enrol? then
      var rest := Solo(parses, k, db, AfterGrant(pc, Granted(grant)), grant);
      Ending(rest.db, rest.issued + 1)
    else
      var out := Effect(db, NextOp(k, pc));
      Solo(parses, k, out.db, Resume(parses, pc, out.reply), grant)
  }

  function Pass(parses: string -> bool, k: Key, db: State, grant: Data): Ending {
    Solo(parses, k, db, Begin(Effect(db, Get(k)).reply), grant)
  }

  /** `n` passes in a row and the certificates they are issued. */
  function Passes(parses: string -> bool, k: Key, db: State, grant: Data, n: nat): Ending
    decreases n
  {
    if n == 0 then Ending(db, 0)
    else
      var first := Pass(parses, k, db, grant);
      var rest := Passes(parses, k, first.db, grant, n - 1);
      Ending(rest.db, first.issued + rest.issued)
  }

  /** The identity `me` is stored, asks for an enrolment, and no secret is being deleted. */
  ghost predicate Ready(k: Key, db: State, spec: Spec) {
    && WellFormed(db) && k.kind == Identity && k in db.objects
    && !db.objects[k].marked && db.objects[k].spec == spec && spec.OfIdentity? && spec.enrollment.Some?
    && forall s :: s in db.objects && s.kind == Secret ==> !db.objects[s].marked
  }

  predicate SameSecrets(db: State, db': State) {
    && (forall s :: s in db.objects && s.kind == Secret ==> s in db'.objects && db'.objects[s] == db.objects[s])
    && (forall s :: s in db'.objects && s.kind == Secret ==> s in db.objects)
  }

  /** The two keys depend on the specification alone. */
  lemma KeysOfSpec(k: Key, a: Obj, b: Obj)
    requires a.spec == b.spec
    ensures CheckedKey(k, a) == CheckedKey(k, b) && WrittenKey(k, a) == WrittenKey(k, b)
    ensures Consistent(a) <==> Consistent(b)
    ensures Consistent(a) <==> CheckedKey(k, a) == WrittenKey(k, a)
  {
    assert OutputName(a) + "" != OutputName(a) + "-idemix";
  }

  /** The status is written and nothing else changes. */
  lemma ReportSettles(parses: string -> bool, k: Key, db: State, me: Obj, v: Verdict, grant: Data, spec: Spec)
    requires Ready(k, db, spec)
    ensures var end := Solo(parses, k, db, Refetch(me, v), grant);
            && end.issued == 0 && Ready(k, end.db, spec) && SameSecrets(db, end.db)
            && end.db.objects[k].status.status == v.status && end.db.objects[k].status.message == v.message
            && end.db.objects[k].finalizers == db.objects[k].finalizers
  {
    var stored := db.objects[k];
    var pc := WriteStatus(me, v, stored);
    assert Solo(parses, k, db, Refetch(me, v), grant) == Solo(parses, k, db, pc, grant);
    var out := Effect(db, NextOp(k, pc));
    EffectKeepsWellFormed(db, NextOp(k, pc));
    assert Solo(parses, k, db, pc, grant) == Solo(parses, k, out.db, Idle, grant);
  }

  /** An existing secret: no enrolment, the verdict is that of the validation. */
  lemma CheckSettles(parses: string -> bool, k: Key, db: State, me: Obj, grant: Data, spec: Spec)
    requires Ready(k, db, spec) && me.spec == spec && CheckedKey(k, me) in db.objects
    ensures var end := Solo(parses, k, db, Exists(me), grant);
            var valid := ValidData(parses, ChecksIdemix(me), db.objects[CheckedKey(k, me)].data);
            var v := if valid then READY_EXISTING else INVALID_SECRET;
            && end.issued == 0 && Ready(k, end.db, spec) && SameSecrets(db, end.db)
            && end.db.objects[k].status.status == v.status
            && end.db.objects[k].finalizers == db.objects[k].finalizers
  {
    var valid := ValidData(parses, ChecksIdemix(me), db.objects[CheckedKey(k, me)].data);
    var v := if valid then READY_EXISTING else INVALID_SECRET;
    assert Solo(parses, k, db, Exists(me), grant) == Solo(parses, k, db, Validate(me), grant)
        == Solo(parses, k, db, Refetch(me, v), grant);
    ReportSettles(parses, k, db, me, v, grant, spec);
  }

  /** The secret after a create or, if it exists, an update. */
  lemma StoreSecret(parses: string -> bool, k: Key, db: State, me: Obj, grant: Data, spec: Spec) returns (db': State)
    requires Ready(k, db, spec) && me.spec == spec
    ensures Ready(k, db', spec)
    ensures WrittenKey(k, me) in db'.objects && db'.objects[WrittenKey(k, me)].data == grant
    ensures var secret := db'.objects[WrittenKey(k, me)]; secret.owner == Some(k) && secret.labels == spec.labels
    ensures db'.objects[k].finalizers == db.objects[k].finalizers
    ensures forall s: Key :: s.kind == Secret && s != WrittenKey(k, me) ==> (s in db'.objects <==> s in db.objects)
    ensures Solo(parses, k, db, CreateSecret(me, grant), grant)
         == Solo(parses, k, db', Refetch(WithOutputs(me), READY_ENROLLED), grant)
  {
    var pc := CreateSecret(me, grant);
    var out := Effect(db, NextOp(k, pc));
    EffectKeepsWellFormed(db, NextOp(k, pc));
    db' := out.db;
    if WrittenKey(k, me) in db.objects {
      var pc' := UpdateSecret(me, grant);
      assert Solo(parses, k, db, pc, grant) == Solo(parses, k, db, pc', grant);
      var out' := Effect(db, NextOp(k, pc'));
      EffectKeepsWellFormed(db, NextOp(k, pc'));
      assert out'.reply.Ok?;
      assert Solo(parses, k, db, pc', grant)
          == Solo(parses, k, out'.db, Refetch(WithOutputs(me), READY_ENROLLED), grant);
      db' := out'.db;
    }
  }

  /** No secret where the check looks: one certificate, stored where the enrolment puts it. */
  lemma EnrolSettles(parses: string -> bool, k: Key, db: State, me: Obj, grant: Data, spec: Spec)
    requires Ready(k, db, spec) && me.spec == spec && CheckedKey(k, me) !in db.objects
    ensures var end := Solo(parses, k, db, Exists(me), grant);
            && end.issued == 1 && Ready(k, end.db, spec)
            && WrittenKey(k, me) in end.db.objects && end.db.objects[WrittenKey(k, me)].data == grant
            && end.db.objects[WrittenKey(k, me)].owner == Some(k)
            && end.db.objects[WrittenKey(k, me)].labels == spec.labels
            && (CheckedKey(k, me) in end.db.objects <==> Consistent(me))
            && end.db.objects[k].status.status == "READY"
            && end.db.objects[k].finalizers == db.objects[k].finalizers
  {
    assert Solo(parses, k, db, Exists(me), grant) == Solo(parses, k, db, Enrol(me), grant);
    var db' := StoreSecret(parses, k, db, me, grant, spec);
    ReportSettles(parses, k, db', WithOutputs(me), READY_ENROLLED, grant, spec);
    KeysOfSpec(k, me, me);
  }

  /** Adding the finalizer first changes none of this. */
  lemma PassReachesExists(parses: string -> bool, k: Key, db: State, grant: Data, spec: Spec)
    returns (db': State, me: Obj)
    requires Ready(k, db, spec)
    ensures Ready(k, db', spec) && SameSecrets(db, db') && me.spec == spec
    ensures "identity.fabricx.kfsoft.tech/finalizer" in db'.objects[k].finalizers
    ensures Pass(parses, k, db, grant) == Solo(parses, k, db', Exists(me), grant)
  {
    db', me := db, db.objects[k];
    if FINALIZER !in me.finalizers {
      var pc := AddFinalizer(me);
      var out := Effect(db, NextOp(k, pc));
      EffectKeepsWellFormed(db, NextOp(k, pc));
      assert Solo(parses, k, db, pc, grant) == Solo(parses, k, out.db, Exists(out.reply.stored), grant);
      db', me := out.db, out.reply.stored;
    }
  }

  /** One pass, seen from outside. */
  lemma PassExact(parses: string -> bool, k: Key, db: State, grant: Data, spec: Spec, me: Obj)
    requires Ready(k, db, spec) && me.spec == spec
    ensures var end := Pass(parses, k, db, grant);
            && Ready(k, end.db, spec)
            && end.issued == (if CheckedKey(k, me) in db.objects then 0 else 1)
            && (CheckedKey(k, me) in end.db.objects <==> CheckedKey(k, me) in db.objects || Consistent(me))
            && (CheckedKey(k, me) in db.objects ==> SameSecrets(db, end.db))
  {
    var db', me' := PassReachesExists(parses, k, db, grant, spec);
    KeysOfSpec(k, me, me');
    if CheckedKey(k, me) in db.objects {
      assert CheckedKey(k, me') in db'.objects;
      CheckSettles(parses, k, db', me', grant, spec);
      assert SameSecrets(db, Pass(parses, k, db, grant).db);
    } else {
      assert CheckedKey(k, me') !in db'.objects;
      EnrolSettles(parses, k, db', me', grant, spec);
    }
  }

  /** The certificates of `n` passes: none if the checked secret exists, one if
      check and enrolment agree on idemix, and one per pass if they do not. */
  lemma {:induction false} IssuedOverPasses(parses: string -> bool, k: Key, db: State, grant: Data, spec: Spec,
                                            me: Obj, n: nat)
    requires Ready(k, db, spec) && me.spec == spec
    ensures Passes(parses, k, db, grant, n).issued ==
            if n == 0 || CheckedKey(k, me) in db.objects then 0 else if Consistent(me) then 1 else n
    decreases n
  {
    if n > 0 {
      PassExact(parses, k, db, grant, spec, me);
      IssuedOverPasses(parses, k, Pass(parses, k, db, grant).db, grant, spec, me, n - 1);
    }
  }

  /** The disagreement is exactly an idemix section that is not switched on. */
  lemma InconsistentIff(me: Obj)
    ensures !Consistent(me) <==> Idemix(me) == Some(None) || Idemix(me) == Some(Some(false))
  {
    match Idemix(me)
    case None =>
    case Some(None) =>
    case Some(Some(enabled)) => assert Idemix(me) == Some(Some(enabled));
  }

  /** A secret that exists but does not validate stays as it is: the identity is
      reported as failed and never enrolled again. */
  lemma InvalidSecretStays(parses: string -> bool, k: Key, db: State, grant: Data, spec: Spec, me: Obj)
    requires Ready(k, db, spec) && me.spec == spec && CheckedKey(k, me) in db.objects
    requires !ValidData(parses, ChecksIdemix(me), db.objects[CheckedKey(k, me)].data)
    ensures var end := Pass(parses, k, db, grant);
            && end.issued == 0 && SameSecrets(db, end.db) && k in end.db.objects
            && end.db.objects[k].status.status == "FAILED"
  {
    var db', me' := PassReachesExists(parses, k, db, grant, spec);
    KeysOfSpec(k, me, me');
    CheckSettles(parses, k, db', me', grant, spec);
  }

  /** One reconcile of an identity whose secret is there issues nothing, touches no
      secret and says READY exactly if the entries are all there: `Cred` and `Sk`
      where idemix is switched on, and otherwise three non-empty ones of which the
      certificate parses. */
  lemma ExistingPass(parses: string -> bool, k: Key, db: State, grant: Data, spec: Spec)
    requires Ready(k, db, spec)
    requires var on := spec.enrollment.value.idemix == Some(Some(true));
             Key(Secret, k.namespace, spec.outputName + if on then "-idemix" else "") in db.objects
    ensures var on := spec.enrollment.value.idemix == Some(Some(true));
            var d := db.objects[Key(Secret, k.namespace, spec.outputName + if on then "-idemix" else "")].data;
            var valid := if on then "Cred" in d && "Sk" in d
                         else && "cert.pem" in d && d["cert.pem"] != "" && "key.pem" in d && d["key.pem"] != ""
                              && "cacert.pem" in d && d["cacert.pem"] != "" && parses(d["cert.pem"]);
            var end := Pass(parses, k, db, grant);
            && end.issued == 0 && SameSecrets(db, end.db) && k in end.db.objects
            && end.db.objects[k].status.status == (if valid then "READY" else "FAILED")
            && "identity.fabricx.kfsoft.tech/finalizer" in end.db.objects[k].finalizers
  {
    var db', me := PassReachesExists(parses, k, db, grant, spec);
    CheckSettles(parses, k, db', me, grant, spec);
  }

  /** One reconcile of an identity without it asks the CA once and stores what comes
      back, owned and labelled, under the name with "-idemix" if there is an idemix
      section, switched on or not. */
  lemma EnrolPass(parses: string -> bool, k: Key, db: State, grant: Data, spec: Spec)
    requires Ready(k, db, spec)
    requires var on := spec.enrollment.value.idemix == Some(Some(true));
             Key(Secret, k.namespace, spec.outputName + if on then "-idemix" else "") !in db.objects
    ensures var section := spec.enrollment.value.idemix.Some?;
            var written := Key(Secret, k.namespace, spec.outputName + if section then "-idemix" else "");
            var end := Pass(parses, k, db, grant);
            && end.issued == 1 && written in end.db.objects && k in end.db.objects
            && end.db.objects[written].data == grant && end.db.objects[written].owner == Some(k)
            && end.db.objects[written].labels == spec.labels
            && end.db.objects[k].status.status == "READY"
            && "identity.fabricx.kfsoft.tech/finalizer" in end.db.objects[k].finalizers
  {
    var db', me := PassReachesExists(parses, k, db, grant, spec);
    EnrolSettles(parses, k, db', me, grant, spec);
  }

  /** One reconcile of a deleted identity takes its finalizer off and touches nothing
      else. */
  lemma DeletionPass(parses: string -> bool, k: Key, db: State, grant: Data)
    requires k.kind == Identity && WellFormed(db) && k in db.objects && db.objects[k].marked
    ensures var me, end := db.objects[k], Pass(parses, k, db, grant);
            && end.issued == 0
            && (k in end.db.objects ==> "identity.fabricx.kfsoft.tech/finalizer" !in end.db.objects[k].finalizers)
            && ((forall x :: x in me.finalizers ==> x == FINALIZER) ==> k !in end.db.objects)
            && forall other :: other != k ==>
                 && (other in end.db.objects <==> other in db.objects)
                 && (other in db.objects ==> end.db.objects[other] == db.objects[other])
  {
    var me := db.objects[k];
    assert me.finalizers[0] in me.finalizers;
    if FINALIZER in me.finalizers {
      var pc := RemoveFinalizer(me);
      var out := Effect(db, NextOp(k, pc));
      assert Solo(parses, k, db, pc, grant) == Solo(parses, k, out.db, Idle, grant);
      if forall x :: x in me.finalizers ==> x == FINALIZER {
        RemoveOnly(me.finalizers, FINALIZER);
      }
    }
  }

  /** Past the preamble the copy carries the finalizer. */
  predicate Guarded(pc: Pc) {
    pc.Exists? || pc.Validate? || pc.Enrol? || pc.CreateSecret? || pc.UpdateSecret? ==> FINALIZER in pc.me.finalizers
  }

  /** So in every run the CA is only asked, and the secret only written, for a copy
      that carries the finalizer. */
  lemma {:induction false} AlwaysGuarded(parses: string -> bool, k: Key, sk: Key, w: World, h: seq<Event>)
    requires k.kind == Identity && w.pc.Idle? && Follows(parses, k, sk, w, h)
    ensures Guarded(Run(parses, k, w, h).pc)
    decreases |h|
  {
    if h != [] {
      AlwaysGuarded(parses, k, sk, w, h[..|h| - 1]);
    }
  }
}
