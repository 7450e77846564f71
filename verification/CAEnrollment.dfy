/** The CAEnrollment reconciler itself, over the shared server and a clock that
    may advance before every step.  Its methods make exactly the calls of
    `CAEnrollmentProgram`. */
module CAEnrollmentController {
  import opened Prelude
  import opened ApiServer
  import opened CAEnrollmentProgram
  import opened CAEnrollmentSafety

  class CAEnrollmentReconciler {
    const server: Server<Body, EnrollStatus>
    const k: Key
    const sk: Key
    const lifetime: int
    const epoch: int
    var now: int
    ghost var pc: Pc
    /** The fetches so far, one for each reconcile. */
    ghost var rounds: seq<Key>
    ghost var events: seq<Event>
    /** Have all reads been current so far? */
    ghost var current: bool

    ghost function First(): World {
      World(epoch, server.start, Idle)
    }

    ghost predicate Valid()
      reads this, server
    {
      && server.Valid() && rounds == OwnGets(server.history, CAEnrollment) && k.kind == CAEnrollment
      && (forall db, op :: server.rely(db, op) ==> OthersMay(k, sk, db, op))
      && (current ==>
            Follows(k, sk, lifetime, First(), events) && Run(k, First(), events) == World(now, server.db, pc))
    }

    constructor (server: Server<Body, EnrollStatus>, k: Key, sk: Key, lifetime: int, now: int)
      requires server.Valid() && server.history == [] && k.kind == CAEnrollment
      requires forall db, op :: server.rely(db, op) ==> OthersMay(k, sk, db, op)
      ensures Valid() && pc.Idle? && current && events == []
      ensures this.server == server && this.k == k && this.sk == sk && this.lifetime == lifetime
    {
      this.server, this.k, this.sk, this.lifetime := server, k, sk, lifetime;
      this.epoch, this.now := now, now;
      pc, rounds, events, current := Idle, [], [], true;
    }

    /** Time passes. */
    method Wait()
      requires Valid()
      modifies `now, `events
      ensures Valid() && old(now) <= now && old(events) <= events
    {
      var seconds: nat := *;
      NextRun(k, First(), events, Tick(seconds));
      events := events + [Tick(seconds)];
      now := now + seconds;
    }

    /** A call, with the others' calls before it put on record. */
    method Call(op: Op<Body, EnrollStatus>) returns (reply: Answer, ghost fault: Fault)
      requires Valid()
      modifies this, server
      ensures server.Valid() && pc == old(pc) && now == old(now) && old(events) <= events && (current ==> !fault.Stale?)
      ensures rounds == OwnGets(server.history, CAEnrollment)
      ensures rounds == old(rounds) + if op.Get? && op.key.kind == CAEnrollment then [op.key] else []
      ensures current ==> old(current) && Follows(k, sk, lifetime, First(), events)
      ensures current ==>
                var w := Run(k, First(), events);
                && w.pc == pc && w.now == now && server.db == Perform(w.db, w.db, op, fault).db
                && reply == Perform(w.db, w.db, op, fault).reply
    {
      ghost var h0 := server.history;
      ghost var before;
      reply, before, fault := server.Call(op);
      OthersWithin(server.start, h0, before, server.rely, (db, op) => OthersMay(k, sk, db, op));
      if current {
        events := Absorb(k, sk, lifetime, First(), events, server.start, h0, before);
      }
      current := current && !fault.Stale?;
      rounds := rounds + if op.Get? && op.key.kind == CAEnrollment then [op.key] else [];
      assert server.history[..|before|] == before;
    }

    /** One API call: the next one of the program. */
    method Do(op: Op<Body, EnrollStatus>) returns (reply: Answer)
      requires Valid() && Expects(k, pc, op)
      modifies this, server
      ensures Valid() && old(events) <= events && old(now) <= now
      ensures rounds == old(rounds) + if Fetches(k, op) then [k] else []
      ensures pc == Resume(k, old(pc), op, reply, now)
    {
      Wait();
      ghost var fault;
      reply, fault := Call(op);
      NextRun(k, First(), events, Store(Mine(op, fault)));
      events := events + [Store(Mine(op, fault))];
      pc := Resume(k, pc, op, reply, now);
    }

    /** Reconcile.  Every run of it keeps the continuity and the counter promises,
        as long as its reads are current. */
    method Reconcile()
      requires Valid() && pc.Idle?
      modifies this, server
      ensures Valid() && pc.Idle? && old(events) <= events && old(now) <= now
      ensures rounds == old(rounds) + [k]
      ensures current && Starts(k, sk, First()) ==>
                var l := Watch(k, First(), events);
                && (l.lastOk.Some? ==> Stored(server.db, sk, l.lastOk.value + Reach(lifetime)))
                && k in server.db.objects
                && server.db.objects[k].status.count - server.start.objects[k].status.count <= |l.writes|
    {
      ReconcileBody();
      if current && Starts(k, sk, First()) {
        AlwaysInv(k, sk, First(), events, lifetime);
        CountExact(k, sk, First(), events, lifetime);
      }
    }

    method ReconcileBody()
      requires Valid() && pc.Idle?
      modifies this, server
      ensures Valid() && pc.Idle? && old(events) <= events && old(now) <= now
      ensures rounds == old(rounds) + [k]
    {
      var fetched := Do(Get(k));
      if fetched.Err? { return; }
      var me := fetched.stored;
      if me.status.status == "" {
        me := UpdateStatus(me, Says(me, "Pending", "Initializing identity enrollment"));
      }
      if me.marked {
        HandleDeletion(me);
      } else {
        EnsureFinalizer(me);
      }
    }

    /** The finalizer, then the rest of Reconcile. */
    method EnsureFinalizer(me0: Obj)
      requires Valid() && !me0.marked && pc == AfterInit(me0)
      modifies this, server
      ensures Valid() && pc.Idle? && old(events) <= events && old(now) <= now
      ensures rounds == old(rounds)
    {
      var me := me0;
      if FINALIZER !in me.finalizers {
        var reply := Do(Update(k, me.(finalizers := me.finalizers + [FINALIZER])));
        if reply.Err? {
          var _ := UpdateStatus(me, Says(me, "Failed", "Failed to add finalizer"));
          return;
        }
        me := reply.stored;
      }
      CheckAndEnroll(me);
    }

    /** The part of Reconcile that looks at the output secret. */
    method CheckAndEnroll(me: Obj)
      requires Valid() && pc == CheckSecret(me)
      modifies this, server
      ensures Valid() && pc.Idle? && old(events) <= events && old(now) <= now
      ensures rounds == old(rounds)
    {
      var got := Do(Get(SecretKey(k, me)));
      if got.Ok? {
        var renew := RenewalDue(got.stored, now);
        if !renew {
          var _ := UpdateStatus(me, Says(me, "Ready", "Identity enrolled successfully"));
          return;
        }
      } else if got.error != NotFound {
        return;
      }
      EnrollAndReport(me);
    }

    /** The rest of Reconcile: enrol, and report how it went. */
    method EnrollAndReport(me: Obj)
      requires Valid() && pc.Enroll? && pc.me == me
      modifies this, server
      ensures Valid() && pc.Idle? && old(events) <= events && old(now) <= now
      ensures rounds == old(rounds)
    {
      var ok, me' := EnrollIdentity(me);
      if ok {
        var _ := UpdateStatus(me', Says(me', "Ready", "Identity enrolled successfully"));
      } else {
        var _ := UpdateStatus(me, Says(me, "Failed", "Failed to enroll identity"));
      }
    }

    /** needsRenewal: less than 30 days left, or no certificate that can be read. */
    method RenewalDue(secret: Obj, now: int) returns (r: bool)
      ensures r <==> !(exists notAfter ::
                         secret.spec == CertSecret(Some(Readable(notAfter))) && notAfter - now >= 30 * 24 * 3600)
    {
      if !secret.spec.CertSecret? || secret.spec.cert.None? {
        return true;
      }
      match secret.spec.cert.value
      case Unreadable => return true;
      case Readable(notAfter) =>
        assert secret.spec == CertSecret(Some(Readable(notAfter)));
        return notAfter < now + RENEWAL;
    }

    /** updateStatus: the copy takes the status even if the write fails. */
    method UpdateStatus(me: Obj, status: EnrollStatus) returns (me': Obj)
      requires Valid() && !pc.Idle? && !pc.Enroll?
      requires NextOp(k, pc) == StatusUpdate(k, me.(status := status))
      modifies this, server
      ensures Valid() && old(events) <= events && old(now) <= now
      ensures rounds == old(rounds)
      ensures old(pc).Report? ==> pc.Idle?
      ensures old(pc).InitStatus? ==> pc == AfterInit(me')
    {
      me' := me.(status := status);
      var reply := Do(StatusUpdate(k, me'));
      if reply.Ok? {
        me' := reply.stored;
      }
    }

    method HandleDeletion(me: Obj)
      requires Valid() && pc == if FINALIZER in me.finalizers then DeleteSecret(me) else Idle
      modifies this, server
      ensures Valid() && pc.Idle? && old(events) <= events && old(now) <= now
      ensures rounds == old(rounds)
    {
      if FINALIZER in me.finalizers {
        var reply := Do(Delete(SecretKey(k, me)));
        if reply.Err? && reply.error != NotFound { return; }
        var _ := Do(Update(k, me.(finalizers := RemoveString(me.finalizers, FINALIZER))));
      }
    }

    /** enrollIdentity: on success the copy's counter and expiry are advanced, but
        only in memory. */
    method EnrollIdentity(me: Obj) returns (ok: bool, me': Obj)
      requires Valid() && pc.Enroll? && pc.me == me
      modifies this, server
      ensures Valid() && old(events) <= events && old(now) <= now
      ensures rounds == old(rounds)
      ensures !ok ==> me' == me && pc == FailedWith(me, "Failed to enroll identity")
      ensures ok ==> exists notAfter ::
                && pc == ReadyEnrolled(me, notAfter)
                && me' == me.(status := me.status.(count := me.status.count + 1, expiry := Some(notAfter)))
    {
      me' := me;
      Wait();
      var issued := EnrollUser();
      if issued.None? { return false, me; }
      var notAfter := issued.value;
      ok := StoreSecret(me, notAfter);
      if !ok { return; }
      me' := me.(status := me.status.(count := me.status.count + 1, expiry := Some(notAfter)));
    }

    /** The second half of enrollIdentity: create the secret, or overwrite its certificate. */
    method StoreSecret(me: Obj, notAfter: int) returns (ok: bool)
      requires Valid() && pc.GetExisting? && pc.me == me && pc.notAfter == notAfter
      modifies this, server
      ensures Valid() && old(events) <= events && old(now) <= now
      ensures rounds == old(rounds)
      ensures pc == if ok then ReadyEnrolled(me, notAfter) else FailedWith(me, "Failed to enroll identity")
    {
      var secret := NewSecret(k, notAfter);
      var existing := Do(Get(SecretKey(k, me)));
      var reply: Answer;
      if existing.Err? {
        if existing.error != NotFound { return false; }
        reply := Do(Create(SecretKey(k, me), secret));
      } else {
        reply := Do(Update(SecretKey(k, me), existing.stored.(spec := secret.spec)));
      }
      ok := reply.Ok?;
    }

    /** Put the CA's answer on record. */
    ghost method NoteIssue(notAfter: Option<int>)
      requires Valid() && pc.Enroll? && (notAfter.Some? ==> notAfter.value >= now + lifetime)
      modifies `events, `pc
      ensures Valid() && old(events) <= events
      ensures pc == if notAfter.Some? then GetExisting(old(pc).me, old(pc).checked, now, notAfter.value)
                    else FailedWith(old(pc).me, "Failed to enroll identity")
    {
      if current {
        Extend(k, sk, lifetime, First(), events, Issue(notAfter));
      }
      events := events + [Issue(notAfter)];
      pc := if notAfter.Some? then GetExisting(pc.me, pc.checked, now, notAfter.value)
            else FailedWith(pc.me, "Failed to enroll identity");
    }

    /** The CA signs now, for at least `lifetime`, or anything on the way fails. */
    method EnrollUser() returns (notAfter: Option<int>)
      requires Valid() && pc.Enroll?
      modifies `events, `pc
      ensures Valid() && old(events) <= events
      ensures pc == if notAfter.Some? then GetExisting(old(pc).me, old(pc).checked, now, notAfter.value)
                    else FailedWith(old(pc).me, "Failed to enroll identity")
    {
      var signed: bool, extra: nat := *, *;
      notAfter := if signed then Some(now + lifetime + extra) else None;
      NoteIssue(notAfter);
    }
  }

  lemma NextRun(k: Key, w: World, h: seq<Event>, e: Event)
    ensures Run(k, w, h + [e]) == Next(k, Run(k, w, h), e)
    ensures forall sk, lifetime ::
              Follows(k, sk, lifetime, w, h + [e]) <==>
              Follows(k, sk, lifetime, w, h) && Permits(k, sk, lifetime, Run(k, w, h), e)
  {
    assert (h + [e])[..|h|] == h;
  }

  /** Append the others' calls to the events. */
  lemma {:induction false} Absorb(k: Key, sk: Key, lifetime: int, w: World, events: seq<Event>,
                                  start: State, h0: History<Body, EnrollStatus>, h: History<Body, EnrollStatus>)
    returns (r: seq<Event>)
    requires Follows(k, sk, lifetime, w, events) && Run(k, w, events).db == Replay(start, h0)
    requires OthersOnly(start, h0, h, (db, op) => OthersMay(k, sk, db, op))
    ensures Follows(k, sk, lifetime, w, r) && events <= r
    ensures Run(k, w, r) == Run(k, w, events).(db := Replay(start, h))
    decreases |h|
  {
    if |h| == |h0| {
      r := events;
      assert h == h0;
    } else {
      var before, last := h[..|h| - 1], h[|h| - 1];
      OthersOnlyShrink(start, h0, h, (db, op) => OthersMay(k, sk, db, op));
      r := Absorb(k, sk, lifetime, w, events, start, h0, before);
      NextRun(k, w, r, Store(last));
      r := r + [Store(last)];
    }
  }
}
