/** Convergence of a Committer whose specification is left alone: under
    reconciles that fail anywhere, no child that has its wanted specification
    ever loses it, children are brought there in the fixed order, and a reconcile
    that gets through leaves all five in place for good. */
module CommitterConvergence {
  import opened ApiServer
  import opened CommitterSpecs
  import opened CommitterProgram
  import opened CommitterPasses

  predicate OnTarget(db: State, c: Key, role: Role) {
    && c in db.objects && ChildKey(c, role) in db.objects
    && db.objects[ChildKey(c, role)].spec == Wanted(db.objects[c], role)
  }

  function OffTarget(db: State, c: Key): set<Role> {
    set role: Role | !OnTarget(db, c, role)
  }

  /** The others keep away from the specification and the existence of `c` and
      its children; statuses and finalizers stay free. */
  predicate QuietMay(db: State, op: Call, c: Key) {
    match op
    case Get(_) => true
    case Create(k, _) => !IsChildKind(k.kind)
    case Update(k, o) => k == c || IsChildOf(c, k) ==> k in db.objects && o.spec == db.objects[k].spec
    case StatusUpdate(_, _) => true
    case Delete(k) => k != c && !IsChildOf(c, k)
  }

  /** Nothing of this Committer is being deleted. */
  ghost predicate Undisturbed(db: State, c: Key) {
    && c in db.objects && !db.objects[c].marked
    && forall role: Role :: ChildKey(c, role) in db.objects ==> !db.objects[ChildKey(c, role)].marked
  }

  /** A reconcile of `c` under way works on the current specification and has
      brought the children before its position to target. */
  ghost predicate OnCourse(db: State, pc: Pc, c: Key) {
    && InRange(pc)
    && (!pc.Idle? && pc.c == c ==>
          && c in db.objects && pc.me.spec == db.objects[c].spec
          && !Tearing(pc)
          && (pc.GetChild? || pc.PutChild? ==> forall j :: 0 <= j < pc.i ==> OnTarget(db, c, ROLES[j]))
          && (pc.Report? && pc.status == RECONCILED ==> OffTarget(db, c) == {}))
  }

  predicate Tearing(pc: Pc) {
    pc.DeleteStatus? || pc.CleanGet? || pc.CleanDelete? || pc.DropFinalizer?
  }

  /** A call that may touch the family of `c` only by giving a child its wanted
      specification or by rewriting what is already there. */
  ghost predicate Respectful(db: State, op: Call, c: Key) {
    match op
    case Get(_) => true
    case Create(k, o) =>
      forall role: Role :: k == ChildKey(c, role) ==> c in db.objects && o.spec == Wanted(db.objects[c], role)
    case Update(k, o) =>
      && (k == c && k in db.objects ==> o.spec == db.objects[k].spec)
      && (forall role: Role :: k == ChildKey(c, role) && c in db.objects && k in db.objects ==>
            o.spec == Wanted(db.objects[c], role) || o.spec == db.objects[k].spec)
    case StatusUpdate(_, _) => true
    case Delete(k) => k != c && forall role: Role :: k != ChildKey(c, role)
  }

  lemma ParentKept(db: State, op: Call, c: Key)
    requires c in db.objects && !db.objects[c].marked && op != Delete(c)
    requires op.Update? && op.key == c ==> op.obj.spec == db.objects[c].spec
    ensures var db' := Effect(db, op).db;
            c in db'.objects && !db'.objects[c].marked && db'.objects[c].spec == db.objects[c].spec
  {
  }

  lemma ChildKept(db: State, op: Call, k: Key, wanted: Spec)
    requires (k in db.objects ==> !db.objects[k].marked) && op != Delete(k)
    requires op.Update? && op.key == k && k in db.objects ==> op.obj.spec in {wanted, db.objects[k].spec}
    ensures var db' := Effect(db, op).db;
            && (k in db'.objects ==> !db'.objects[k].marked)
            && (k in db.objects && db.objects[k].spec == wanted ==> k in db'.objects && db'.objects[k].spec == wanted)
  {
  }

  lemma RespectfulKeeps(db: State, op: Call, c: Key, role: Role)
    requires c.kind == Committer && Undisturbed(db, c) && Respectful(db, op, c)
    ensures var db' := Effect(db, op).db;
            && c in db'.objects && !db'.objects[c].marked && db'.objects[c].spec == db.objects[c].spec
            && (ChildKey(c, role) in db'.objects ==> !db'.objects[ChildKey(c, role)].marked)
            && (OnTarget(db, c, role) ==> OnTarget(db', c, role))
  {
    ParentKept(db, op, c);
    ChildKept(db, op, ChildKey(c, role), Wanted(db.objects[c], role));
  }

  lemma RespectfulKeepsAll(db: State, op: Call, c: Key)
    requires c.kind == Committer && Undisturbed(db, c) && Respectful(db, op, c)
    ensures var db' := Effect(db, op).db;
            Undisturbed(db', c) && db'.objects[c].spec == db.objects[c].spec && OffTarget(db', c) <= OffTarget(db, c)
  {
    forall role: Role {
      RespectfulKeeps(db, op, c, role);
    }
    RespectfulKeeps(db, op, c, Sidecar);
  }

  /** The program's calls are respectful to every family, including those of
      other Committers. */
  lemma ProgramIsRespectful(db: State, pc: Pc, op: Call, c: Key)
    requires c.kind == Committer && OnCourse(db, pc, c) && Expects(pc, op)
    ensures Respectful(db, op, c)
  {
    if !StartsReconcile(op) && (pc.PutChild? || pc.CleanDelete?) {
      forall role: Role | ChildKey(pc.c, ROLES[pc.i]) == ChildKey(c, role)
        ensures pc.c == c && ROLES[pc.i] == role
      {
        ChildKeyInjective(pc.c, ROLES[pc.i], c, role);
      }
    }
  }

  /** A fetch puts the reconcile on course. */
  lemma FetchOnCourse(db: State, past: State, op: Call, f: Fault, c: Key)
    requires StartsReconcile(op) && (op == Get(c) ==> !f.Stale?) && Undisturbed(db, c)
    ensures OnCourse(db, Begin(op.key, Perform(db, past, op, f).reply), c)
  {
  }

  /** A child write that was answered has put its child on target. */
  lemma PutLands(db: State, past: State, pc: Pc, f: Fault, c: Key)
    requires c.kind == Committer && Undisturbed(db, c) && OnCourse(db, pc, c)
    requires pc.PutChild? && pc.c == c && Perform(db, past, NextOp(pc), f).reply.Ok?
    ensures OnTarget(Perform(db, past, NextOp(pc), f).db, c, ROLES[pc.i])
  {
    var op, k := NextOp(pc), ChildKey(c, ROLES[pc.i]);
    assert op.key == k && op.obj.spec == Wanted(db.objects[c], ROLES[pc.i]);
    WriteLands(db, op, k);
    ParentKept(db, op, c);
  }

  lemma WriteLands(db: State, op: Call, k: Key)
    requires (op.Create? || op.Update?) && op.key == k && Effect(db, op).reply.Ok?
    requires k in db.objects ==> !db.objects[k].marked
    ensures var db' := Effect(db, op).db; k in db'.objects && db'.objects[k].spec == op.obj.spec
  {
  }

  lemma StepRespects(db: State, past: State, pc: Pc, op: Call, f: Fault, c: Key)
    requires c.kind == Committer && Undisturbed(db, c) && OnCourse(db, pc, c) && Expects(pc, op)
    ensures var db' := Perform(db, past, op, f).db;
            && Undisturbed(db', c) && OffTarget(db', c) <= OffTarget(db, c)
            && db'.objects[c].spec == db.objects[c].spec
  {
    ProgramIsRespectful(db, pc, op, c);
    RespectfulKeepsAll(db, op, c);
  }

  lemma StepOnCourse(db: State, past: State, pc: Pc, op: Call, f: Fault, c: Key)
    requires c.kind == Committer && Undisturbed(db, c) && OnCourse(db, pc, c) && Expects(pc, op)
    requires op == Get(c) ==> !f.Stale?
    ensures var out := Perform(db, past, op, f);
            && Undisturbed(out.db, c) && OffTarget(out.db, c) <= OffTarget(db, c)
            && out.db.objects[c].spec == db.objects[c].spec
            && OnCourse(out.db, Resume(pc, op, out.reply), c)
  {
    StepRespects(db, past, pc, op, f, c);
    var out := Perform(db, past, op, f);
    if StartsReconcile(op) {
      FetchOnCourse(db, past, op, f, c);
    } else if pc.c == c {
      if pc.PutChild? && out.reply.Ok? {
        PutLands(db, past, pc, f, c);
        PutOnCourse(db, out.db, pc, c);
      } else {
        ProgramIsRespectful(db, pc, op, c);
        OtherOnCourse(db, past, pc, f, c);
      }
    }
  }

  lemma PutOnCourse(db: State, db': State, pc: Pc, c: Key)
    requires c.kind == Committer && OnCourse(db, pc, c) && pc.PutChild? && pc.c == c
    requires c in db.objects && c in db'.objects && db'.objects[c].spec == db.objects[c].spec
    requires OffTarget(db', c) <= OffTarget(db, c) && OnTarget(db', c, ROLES[pc.i])
    ensures OnCourse(db', AfterChild(c, pc.me, pc.i), c)
  {
    forall j | 0 <= j < pc.i + 1
      ensures OnTarget(db', c, ROLES[j])
    {
      if j < pc.i {
        assert ROLES[j] !in OffTarget(db, c);
        assert ROLES[j] !in OffTarget(db', c);
      }
    }
    if pc.i + 1 == |ROLES| {
      forall role: Role
        ensures OnTarget(db', c, role)
      {
        RolesComplete(role);
      }
    }
  }

  lemma OtherOnCourse(db: State, past: State, pc: Pc, f: Fault, c: Key)
    requires c.kind == Committer && Undisturbed(db, c) && OnCourse(db, pc, c)
    requires !pc.Idle? && pc.c == c
    requires OffTarget(Perform(db, past, NextOp(pc), f).db, c) <= OffTarget(db, c)
    requires Respectful(db, NextOp(pc), c)
    requires pc.PutChild? ==> !Perform(db, past, NextOp(pc), f).reply.Ok?
    ensures var out := Perform(db, past, NextOp(pc), f);
            OnCourse(out.db, Resume(pc, NextOp(pc), out.reply), c)
  {
    var out := Perform(db, past, NextOp(pc), f);
    RespectfulKeepsAll(db, NextOp(pc), c);
    if pc.GetChild? {
      forall j | 0 <= j < pc.i
        ensures OnTarget(out.db, c, ROLES[j])
      {
        assert ROLES[j] !in OffTarget(db, c);
        assert ROLES[j] !in OffTarget(out.db, c);
      }
    }
  }

  lemma QuietIsRespectful(db: State, op: Call, c: Key)
    requires QuietMay(db, op, c) && c.kind == Committer
    ensures Respectful(db, op, c)
  {
    forall role: Role
      ensures IsChildOf(c, ChildKey(c, role))
    {
    }
  }

  /** After `h0` fetches of `c` are current and the others quiet, as far as `c` goes. */
  ghost predicate Quiet(start: State, h0: Trace, h: Trace, c: Key) {
    && h0 <= h
    && forall j :: |h0| <= j < |h| ==> QuietEntry(Replay(start, h[..j]), h[j], c)
  }

  ghost predicate QuietEntry(db: State, e: Entry<Spec, Status>, c: Key) {
    match e
    case Other(op) => QuietMay(db, op, c)
    case Mine(op, f) => op == Get(c) ==> !f.Stale?
  }

  /** Drift never rises: from any point where the reconciler is on course (for
      instance between two reconciles), whatever calls fail and whatever the
      quiet others do, a child once on target stays there. */
  lemma {:induction false} DriftNeverRises(start: State, h0: Trace, h: Trace, c: Key)
    requires c.kind == Committer && Follows(start, h) && Quiet(start, h0, h, c)
    requires Undisturbed(Replay(start, h0), c) && OnCourse(Replay(start, h0), PcAfter(start, h0), c)
    ensures Undisturbed(Replay(start, h), c) && OnCourse(Replay(start, h), PcAfter(start, h), c)
    ensures OffTarget(Replay(start, h), c) <= OffTarget(Replay(start, h0), c)
    decreases |h|
  {
    if |h| > |h0| {
      var before, last := h[..|h| - 1], h[|h| - 1];
      assert Quiet(start, h0, before, c) by {
        forall j | |h0| <= j < |before|
          ensures QuietEntry(Replay(start, before[..j]), before[j], c)
        {
          assert before[..j] == h[..j];
        }
      }
      DriftNeverRises(start, h0, before, c);
      var db, pc := Replay(start, before), PcAfter(start, before);
      assert QuietEntry(db, last, c) && Permits(start, before, last);
      match last
      case Other(op) =>
        QuietIsRespectful(db, op, c);
        RespectfulKeepsAll(db, op, c);
        QuietKeepsCourse(db, op, pc, c);
      case Mine(op, f) =>
        StepOnCourse(db, Past(start, before, f), pc, op, f, c);
    } else {
      assert h == h0;
    }
  }

  lemma QuietKeepsCourse(db: State, op: Call, pc: Pc, c: Key)
    requires c.kind == Committer && Undisturbed(db, c) && OnCourse(db, pc, c) && Respectful(db, op, c)
    ensures OnCourse(Effect(db, op).db, pc, c)
  {
    RespectfulKeepsAll(db, op, c);
    if !pc.Idle? && pc.c == c && (pc.GetChild? || pc.PutChild?) {
      forall j | 0 <= j < pc.i
        ensures OnTarget(Effect(db, op).db, c, ROLES[j])
      {
        assert ROLES[j] !in OffTarget(db, c);
        assert ROLES[j] !in OffTarget(Effect(db, op).db, c);
      }
    }
  }

  /** A reconcile that reaches its success report has put all five children on
      target, and from then on they stay there. */
  lemma ConvergedStays(start: State, h0: Trace, h1: Trace, h: Trace, c: Key)
    requires c.kind == Committer && Follows(start, h) && Quiet(start, h0, h, c) && h0 <= h1 <= h
    requires Undisturbed(Replay(start, h0), c) && OnCourse(Replay(start, h0), PcAfter(start, h0), c)
    requires var pc := PcAfter(start, h1); pc.Report? && pc.c == c && pc.status == RECONCILED
    ensures OffTarget(Replay(start, h1), c) == {} && OffTarget(Replay(start, h), c) == {}
  {
    PrefixFollows(start, h1, h);
    assert Quiet(start, h0, h1, c) && Quiet(start, h1, h, c) by {
      assert forall j :: 0 <= j < |h1| ==> h1[..j] == h[..j] && h1[j] == h[j];
    }
    DriftNeverRises(start, h0, h1, c);
    DriftNeverRises(start, h1, h, c);
  }

  lemma {:induction false} PrefixFollows(start: State, h1: Trace, h: Trace)
    requires h1 <= h && Follows(start, h)
    ensures Follows(start, h1)
    decreases |h|
  {
    if |h1| < |h| {
      PrefixFollows(start, h1, h[..|h| - 1]);
    } else {
      assert h1 == h;
    }
  }

  /** The report is stored if the copy is current. */
  lemma ReportLands(db: State, c: Key, me: Obj)
    requires c.kind == Committer && c in db.objects && !db.objects[c].marked && db.objects[c].version == me.version
    ensures var db' := Solo(db, Report(c, me, RECONCILED), {});
            && c in db'.objects && db'.objects[c].spec == db.objects[c].spec && db'.objects[c].status == RECONCILED
            && db'.objects[c].finalizers == db.objects[c].finalizers
            && forall k :: k != c ==> Same(db, db', k)
  {
    var pc := Report(c, me, RECONCILED);
    var out := Perform(db, db, NextOp(pc), Clear);
    assert Solo(db, pc, {}) == Solo(out.db, Idle, {}) == out.db;
  }

  /** The loop from child `i` on, undisturbed: it puts the remaining children on
      target, keeps the earlier ones there, and reports success. */
  lemma {:induction false} BuildingConverges(db: State, c: Key, me: Obj, i: nat, role: Role)
    requires c.kind == Committer && i < |ROLES| && WellFormed(db)
    requires c in db.objects && db.objects[c] == me && !me.marked
    requires Earlier(role, i) ==> OnTarget(db, c, role)
    ensures var db' := Solo(db, GetChild(c, me, i), {});
            && c in db'.objects && db'.objects[c].spec == me.spec && db'.objects[c].status == RECONCILED
            && db'.objects[c].finalizers == me.finalizers
            && OnTarget(db', c, role)
    decreases |ROLES| - i
  {
    var db1 := BuildingUnrolls(db, c, me, i);
    assert Same(db, db1, c);
    EarlierStep(role, i);
    if role != ROLES[i] && Earlier(role, i) {
      if ChildKey(c, role) == ChildKey(c, ROLES[i]) {
        ChildKeyInjective(c, role, c, ROLES[i]);
      }
      assert Same(db, db1, ChildKey(c, role));
    }
    assert Earlier(role, i + 1) ==> OnTarget(db1, c, role);
    if i + 1 < |ROLES| {
      BuildingConverges(db1, c, me, i + 1, role);
    } else {
      RolesComplete(role);
      ReportLands(db1, c, me);
      assert Same(db1, Solo(db1, Report(c, me, RECONCILED), {}), ChildKey(c, role));
    }
  }

  /** The first status and the finalizer, where they are missing. */
  lemma Prologue(db: State, c: Key) returns (db': State, me: Obj)
    requires c.kind == Committer && WellFormed(db) && c in db.objects && !db.objects[c].marked
    ensures Pass(db, c, {}) == Solo(db', GetChild(c, me, 0), {})
    ensures WellFormed(db') && c in db'.objects && db'.objects[c] == me && !me.marked && me.spec == db.objects[c].spec
    ensures "committer.fabricx.kfsoft.tech/finalizer" in me.finalizers
  {
    db', me := db, db.objects[c];
    if me.status.phase == Unset {
      var pc := InitStatus(c, me);
      var out := Perform(db, db, NextOp(pc), Clear);
      EffectKeepsWellFormed(db, NextOp(pc));
      assert Solo(db, pc, {}) == Solo(out.db, Resume(pc, NextOp(pc), out.reply), {});
      db', me := out.db, out.reply.stored;
    }
    assert Pass(db, c, {}) == Solo(db', AfterStatus(c, me), {});
    if FINALIZER !in me.finalizers {
      var pc := EnsureFinalizer(c, me);
      var out := Perform(db', db', NextOp(pc), Clear);
      EffectKeepsWellFormed(db', NextOp(pc));
      assert Solo(db', pc, {}) == Solo(out.db, Resume(pc, NextOp(pc), out.reply), {});
      db', me := out.db, out.reply.stored;
    }
  }

  /** Progress: one undisturbed reconcile of a Committer that is not being deleted
      leaves no child off target, whatever was there before, and reports success. */
  lemma PassConverges(db: State, c: Key)
    requires c.kind == Committer && WellFormed(db) && c in db.objects && !db.objects[c].marked
    ensures var db' := Pass(db, c, {});
            && c in db'.objects && db'.objects[c].spec == db.objects[c].spec && db'.objects[c].status == RECONCILED
            && "committer.fabricx.kfsoft.tech/finalizer" in db'.objects[c].finalizers
            && OffTarget(db', c) == {}
  {
    var db1, me := Prologue(db, c);
    var db' := Pass(db, c, {});
    forall role: Role
      ensures OnTarget(db', c, role)
    {
      BuildingConverges(db1, c, me, 0, role);
    }
    BuildingConverges(db1, c, me, 0, Sidecar);
  }

  /** A child of this specification is there, under this name. */
  predicate HasChild(db: State, c: Key, kind: Kind, suffix: string, spec: ChildSpec) {
    var k := Key(kind, c.namespace, c.name + suffix);
    k in db.objects && db.objects[k].spec == OfChild(spec)
  }

  /** The names and kinds of the five children. */
  predicate HasAllChildren(db: State, c: Key, spec: CommitterSpec) {
    && HasChild(db, c, CommitterCoordinator, "-coordinator", Target(Coordinator, spec))
    && HasChild(db, c, CommitterSidecar, "-sidecar", Target(Sidecar, spec))
    && HasChild(db, c, CommitterValidator, "-validator", Target(Validator, spec))
    && HasChild(db, c, CommitterVerifier, "-verifier", Target(Verifier, spec))
    && HasChild(db, c, CommitterQueryService, "-query-service", Target(QueryService, spec))
  }

  lemma OnTargetMeans(db: State, c: Key)
    requires c in db.objects && db.objects[c].spec.OfCommitter? && OffTarget(db, c) == {}
    ensures HasAllChildren(db, c, db.objects[c].spec.committer)
  {
    forall role: Role
      ensures OnTarget(db, c, role)
    {
      assert role !in OffTarget(db, c);
    }
    assert forall role: Role :: OnTarget(db, c, role);
    assert OnTarget(db, c, Coordinator) && OnTarget(db, c, Sidecar) && OnTarget(db, c, Validator);
    assert OnTarget(db, c, Verifier) && OnTarget(db, c, QueryService);
  }

  /** What is then in the store: the five children, each under its name, and the
      Committer Running and under its finalizer. */
  lemma PassBuilds(db: State, c: Key)
    requires c.kind == Committer && WellFormed(db) && c in db.objects && !db.objects[c].marked
    requires db.objects[c].spec.OfCommitter?
    ensures var db' := Pass(db, c, {});
            && c in db'.objects && db'.objects[c].status.phase == Running
            && "committer.fabricx.kfsoft.tech/finalizer" in db'.objects[c].finalizers
            && HasAllChildren(db', c, db.objects[c].spec.committer)
  {
    PassConverges(db, c);
    OnTargetMeans(Pass(db, c, {}), c);
  }

  /** What the next report says: Running exactly when the last child was written,
      Failed exactly after a failure. */
  lemma ReportPhases(pc: Pc, op: Call, reply: Answer)
    requires InRange(pc) && Expects(pc, op) && !StartsReconcile(op)
    ensures var pc' := Resume(pc, op, reply);
            pc'.Report? ==>
              && (pc'.status.phase == Running <==> pc.PutChild? && ROLES[pc.i] == QueryService && reply.Ok?)
              && (pc'.status.phase == Failed <==> reply.Err?)
  {
  }
}
