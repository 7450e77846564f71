/** Undisturbed reconciles of a CAEnrollment: what one of them leaves behind. */
module CAEnrollmentPasses {
  import opened Prelude
  import opened ApiServer
  import opened CAEnrollmentProgram

  function Rank(pc: Pc): nat {
    match pc
    case Idle => 0
    case Report(_, _, _, _) => 1
    case PutSecret(_, _, _, _, _) => 2
    case GetExisting(_, _, _, _) => 3
    case Enroll(_, _) => 4
    case CheckSecret(_) => 5
    case AddFinalizer(_) => 6
    case RemoveFinalizer(_) => 1
    case DeleteSecret(_) => 2
    case InitStatus(_) => 7
  }

  lemma NeverRefetches(k: Key, pc: Pc)
    requires k.kind == CAEnrollment && !pc.Idle? && !pc.Enroll?
    ensures !Fetches(k, NextOp(k, pc))
  {
  }

  /** The rest of a reconcile at `now`; the CA answers with `grant`. */
  function Solo(k: Key, db: State, pc: Pc, grant: Option<int>, now: int): State
    requires k.kind == CAEnrollment
    decreases Rank(pc)
  {
    if pc.Idle? then db
    else if pc.Enroll? then Solo(k, db, Next(k, World(now, db, pc), Issue(grant)).pc, grant, now)
    else
      var out := Effect(db, NextOp(k, pc));
      NeverRefetches(k, pc);
      Solo(k, out.db, Resume(k, pc, NextOp(k, pc), out.reply, now), grant, now)
  }

  function Pass(k: Key, db: State, grant: Option<int>, now: int): State
    requires k.kind == CAEnrollment
  {
    Solo(k, db, Begin(Effect(db, Get(k)).reply), grant, now)
  }

  /** The secret needs a new certificate: there is none, or none that can be read and
      is valid for 30 days. */
  predicate Due(db: State, sk: Key, now: int) {
    sk !in db.objects ||
    match db.objects[sk].spec
    case CertSecret(Some(Readable(notAfter))) => notAfter - now < 30 * 24 * 3600
    case _ => true
  }

  /** An enrolment past its preamble. */
  ghost predicate Ready(k: Key, db: State, me: Obj) {
    && k.kind == CAEnrollment && WellFormed(db) && k in db.objects && db.objects[k] == me && !me.marked
    && FINALIZER in me.finalizers && me.spec.Enrollment?
    && var sk := Key(Secret, k.namespace, me.spec.outputSecretName);
       sk in db.objects ==> !db.objects[sk].marked
  }

  /** What a reconcile leaves: `after` the status; the secret as the CA decided. */
  ghost predicate Left(k: Key, db: State, db': State, grant: Option<int>, now: int) {
    && k in db.objects && k in db'.objects && !db'.objects[k].marked && db'.objects[k].spec == db.objects[k].spec
    && "finalizer.caenrollment.fabricx.kfsoft.tech" in db'.objects[k].finalizers && db.objects[k].spec.Enrollment?
    && var sk := Key(Secret, k.namespace, db.objects[k].spec.outputSecretName);
       var before, after := db.objects[k].status, db'.objects[k].status;
       if Due(db, sk, now) && grant.Some? then
         && sk in db'.objects && db'.objects[sk].spec == CertSecret(Some(Readable(grant.value)))
         && (sk !in db.objects ==> db'.objects[sk].owner == Some(k))
         && after.status == "Ready" && after.count == before.count + 1 && after.expiry == grant
       else
         && (sk in db'.objects <==> sk in db.objects)
         && (sk in db.objects ==> db'.objects[sk] == db.objects[sk])
         && after.status == (if Due(db, sk, now) then "Failed" else "Ready")
         && after.count == before.count && after.expiry == before.expiry
  }

  lemma ReportLands(k: Key, db: State, me: Obj, verdict: EnrollStatus, ready: bool, enrolled: bool, grant: Option<int>,
                    now: int)
    requires k.kind == CAEnrollment && k in db.objects && db.objects[k] == me && !me.marked
    ensures var db' := Solo(k, db, Report(me, verdict, ready, enrolled), grant, now);
            && k in db'.objects && db'.objects[k] == me.(status := verdict, version := db.next)
            && forall other :: other != k ==>
                 && (other in db'.objects <==> other in db.objects)
                 && (other in db.objects ==> db'.objects[other] == db.objects[other])
  {
    var pc := Report(me, verdict, ready, enrolled);
    var out := Effect(db, NextOp(k, pc));
    assert Solo(k, db, pc, grant, now) == Solo(k, out.db, Idle, grant, now) == out.db;
  }

  /** With a certificate in hand: it ends up in the secret. */
  lemma StoreLands(k: Key, db: State, me: Obj, now: int, grant: Option<int>)
    requires Ready(k, db, me) && grant.Some? && Due(db, SecretKey(k, me), now)
    ensures Left(k, db, Solo(k, db, GetExisting(me, now, now, grant.value), grant, now), grant, now)
  {
    var sk := SecretKey(k, me);
    var pc := GetExisting(me, now, now, grant.value);
    var found := if sk in db.objects then Some(db.objects[sk]) else None;
    var pc' := PutSecret(me, now, now, grant.value, found);
    assert Solo(k, db, pc, grant, now) == Solo(k, db, pc', grant, now);
    var out := Effect(db, NextOp(k, pc'));
    var done := ReadyEnrolled(me, grant.value);
    assert Solo(k, db, pc', grant, now) == Solo(k, out.db, done, grant, now);
    ReportLands(k, out.db, me, done.verdict, true, true, grant, now);
  }

  lemma CheckLands(k: Key, db: State, me: Obj, grant: Option<int>, now: int)
    requires Ready(k, db, me)
    ensures Left(k, db, Solo(k, db, CheckSecret(me), grant, now), grant, now)
  {
    var sk := SecretKey(k, me);
    if !Due(db, sk, now) {
      assert Solo(k, db, CheckSecret(me), grant, now) == Solo(k, db, CAEnrollmentProgram.Ready(me), grant, now);
      ReportLands(k, db, me, CAEnrollmentProgram.Ready(me).verdict, true, false, grant, now);
    } else {
      assert Solo(k, db, CheckSecret(me), grant, now) == Solo(k, db, Enroll(me, now), grant, now);
      if grant.Some? {
        var pc := GetExisting(me, now, now, grant.value);
        assert Solo(k, db, Enroll(me, now), grant, now) == Solo(k, db, pc, grant, now);
        StoreLands(k, db, me, now, grant);
      } else {
        var pc := FailedWith(me, "Failed to enroll identity");
        assert Solo(k, db, Enroll(me, now), grant, now) == Solo(k, db, pc, grant, now);
        ReportLands(k, db, me, pc.verdict, false, false, grant, now);
      }
    }
  }

  /** The first status and the finalizer, where they are missing. */
  lemma Prologue(k: Key, db: State, grant: Option<int>, now: int) returns (db': State, me: Obj)
    requires k.kind == CAEnrollment && WellFormed(db) && k in db.objects && !db.objects[k].marked
    requires db.objects[k].spec.Enrollment?
    requires var sk := Key(Secret, k.namespace, db.objects[k].spec.outputSecretName);
             sk in db.objects ==> !db.objects[sk].marked
    ensures Pass(k, db, grant, now) == Solo(k, db', CheckSecret(me), grant, now)
    ensures Ready(k, db', me) && me.spec == db.objects[k].spec
    ensures me.status.count == db.objects[k].status.count && me.status.expiry == db.objects[k].status.expiry
    ensures forall other :: other != k ==>
              && (other in db'.objects <==> other in db.objects)
              && (other in db.objects ==> db'.objects[other] == db.objects[other])
  {
    db', me := db, db.objects[k];
    if me.status.status == "" {
      var pc := InitStatus(me);
      var out := Effect(db, NextOp(k, pc));
      EffectKeepsWellFormed(db, NextOp(k, pc));
      assert Solo(k, db, pc, grant, now) == Solo(k, out.db, AfterInit(out.reply.stored), grant, now);
      db', me := out.db, out.reply.stored;
    }
    assert Pass(k, db, grant, now) == Solo(k, db', AfterInit(me), grant, now);
    if FINALIZER !in me.finalizers {
      var pc := AddFinalizer(me);
      var out := Effect(db', NextOp(k, pc));
      EffectKeepsWellFormed(db', NextOp(k, pc));
      assert Solo(k, db', pc, grant, now) == Solo(k, out.db, CheckSecret(out.reply.stored), grant, now);
      db', me := out.db, out.reply.stored;
    }
  }

  /** One reconcile of an enrolment that is not being deleted leaves it with the
      finalizer, and with the CA's certificate in the secret it names if one was due
      and granted; the counter and the expiry move with that alone. */
  lemma PassExact(k: Key, db: State, grant: Option<int>, now: int)
    requires k.kind == CAEnrollment && WellFormed(db) && k in db.objects && !db.objects[k].marked
    requires db.objects[k].spec.Enrollment?
    requires var sk := Key(Secret, k.namespace, db.objects[k].spec.outputSecretName);
             sk in db.objects ==> !db.objects[sk].marked
    ensures Left(k, db, Pass(k, db, grant, now), grant, now)
  {
    var db1, me := Prologue(k, db, grant, now);
    CheckLands(k, db1, me, grant, now);
  }

  /** One reconcile of a deleted enrolment that carries the finalizer deletes the
      secret it names and takes the finalizer off; nothing is enrolled. */
  lemma DeletionPass(k: Key, db: State, grant: Option<int>, now: int)
    requires k.kind == CAEnrollment && WellFormed(db) && k in db.objects && db.objects[k].marked
    requires db.objects[k].spec.Enrollment? && db.objects[k].status.status != ""
    requires "finalizer.caenrollment.fabricx.kfsoft.tech" in db.objects[k].finalizers
    ensures var me, db' := db.objects[k], Pass(k, db, grant, now);
            var sk := Key(Secret, k.namespace, me.spec.outputSecretName);
            && (sk in db'.objects ==> db'.objects[sk].marked)
            && (sk in db.objects && db.objects[sk].finalizers == [] ==> sk !in db'.objects)
            && (k in db'.objects ==> FINALIZER !in db'.objects[k].finalizers)
            && ((forall x :: x in me.finalizers ==> x == FINALIZER) ==> k !in db'.objects)
  {
    var me := db.objects[k];
    var pc := DeleteSecret(me);
    var out := Effect(db, NextOp(k, pc));
    var pc' := RemoveFinalizer(me);
    assert Solo(k, db, pc, grant, now) == Solo(k, out.db, pc', grant, now);
    var out' := Effect(out.db, NextOp(k, pc'));
    assert Solo(k, out.db, pc', grant, now) == Solo(k, out'.db, Idle, grant, now);
    if forall x :: x in me.finalizers ==> x == FINALIZER {
      RemoveOnly(me.finalizers, FINALIZER);
    }
  }
}
