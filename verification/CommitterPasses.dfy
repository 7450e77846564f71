/** Undisturbed reconciles of the Committer: the program run to its end with no
    other actor in between.  The only failures considered are cleanup reads of
    the children in `unread`, which the code takes for "not there". */
module CommitterPasses {
  import opened Prelude
  import opened ApiServer
  import opened CommitterSpecs
  import opened CommitterProgram
  import opened CommitterSafety

  /** An upper bound on the calls that remain. */
  function Rank(pc: Pc): nat
    requires InRange(pc)
  {
    match pc
    case Idle => 0
    case Report(_, _, _) => 1
    case DropFinalizer(_, _) => 2
    case CleanDelete(_, _, i) => 3 + 2 * (|ROLES| - i)
    case CleanGet(_, _, i) => 4 + 2 * (|ROLES| - i)
    case DeleteStatus(_, _) => 20
    case PutChild(_, _, i, _) => 3 + 2 * (|ROLES| - i)
    case GetChild(_, _, i) => 4 + 2 * (|ROLES| - i)
    case EnsureFinalizer(_, _) => 20
    case InitStatus(_, _) => 21
  }

  /** Every call brings the reconcile closer to its end, whatever the answer. */
  lemma ResumeAdvances(pc: Pc, reply: Answer)
    requires InRange(pc) && !pc.Idle? && !StartsReconcile(NextOp(pc))
    ensures InRange(Resume(pc, NextOp(pc), reply))
    ensures Rank(Resume(pc, NextOp(pc), reply)) < Rank(pc)
  {
  }

  lemma ProgramNeverRestarts(pc: Pc)
    requires InRange(pc) && !pc.Idle?
    ensures !StartsReconcile(NextOp(pc))
  {
  }

  function SoloFault(pc: Pc, unread: set<Role>): Fault {
    if pc.CleanGet? && pc.i < |ROLES| && ROLES[pc.i] in unread then Refused else Clear
  }

  function Solo(db: State, pc: Pc, unread: set<Role>): State
    requires InRange(pc)
    decreases Rank(pc)
  {
    if pc.Idle? then db
    else
      var out := Perform(db, db, NextOp(pc), SoloFault(pc, unread));
      ProgramNeverRestarts(pc);
      ResumeAdvances(pc, out.reply);
      Solo(out.db, Resume(pc, NextOp(pc), out.reply), unread)
  }

  /** One whole reconcile of `c`. */
  function Pass(db: State, c: Key, unread: set<Role>): State
    requires c.kind == Committer
  {
    Solo(db, Begin(c, Effect(db, Get(c)).reply), unread)
  }

  predicate Earlier(role: Role, i: nat)
    requires i <= |ROLES|
  {
    role in ROLES[..i]
  }

  lemma RolesComplete(role: Role)
    ensures Earlier(role, |ROLES|)
  {
    assert ROLES[0] == Coordinator && ROLES[1] == Sidecar && ROLES[2] == Validator;
    assert ROLES[3] == Verifier && ROLES[4] == QueryService;
  }

  lemma EarlierStep(role: Role, i: nat)
    requires i < |ROLES|
    ensures Earlier(role, i + 1) <==> Earlier(role, i) || role == ROLES[i]
    ensures !Earlier(ROLES[i], i)
  {
    assert ROLES[..i + 1] == ROLES[..i] + [ROLES[i]];
    assert ROLES[0] == Coordinator && ROLES[1] == Sidecar && ROLES[2] == Validator;
    assert ROLES[3] == Verifier && ROLES[4] == QueryService;
  }

  predicate IsChildOf(c: Key, k: Key) {
    exists role: Role :: k == ChildKey(c, role)
  }

  /** The same object, or none, at `k`. */
  predicate Same(db: State, db': State, k: Key) {
    (k in db'.objects <==> k in db.objects) && (k in db.objects ==> db'.objects[k] == db.objects[k])
  }

  /** The store after the cleanup of child `i`. */
  function AfterCleaning(db: State, c: Key, i: nat, unread: set<Role>): State
    requires i < |ROLES|
  {
    var k := ChildKey(c, ROLES[i]);
    if k in db.objects && ROLES[i] !in unread then Effect(db, Delete(k)).db else db
  }

  lemma CleanupUnrolls(db: State, c: Key, me: Obj, i: nat, unread: set<Role>)
    requires c.kind == Committer && i < |ROLES|
    ensures Solo(db, CleanGet(c, me, i), unread) == Solo(AfterCleaning(db, c, i, unread), AfterClean(c, me, i), unread)
  {
    var pc := CleanGet(c, me, i);
    var out := Perform(db, db, NextOp(pc), SoloFault(pc, unread));
    assert out.db == db;
    var pc' := Resume(pc, NextOp(pc), out.reply);
    assert Solo(db, pc, unread) == Solo(db, pc', unread);
    if pc'.CleanDelete? {
      var out' := Perform(db, db, NextOp(pc'), Clear);
      assert Solo(db, pc', unread) == Solo(out'.db, Resume(pc', NextOp(pc'), out'.reply), unread);
    }
  }

  lemma CleaningFate(db: State, c: Key, i: nat, unread: set<Role>, role: Role)
    requires c.kind == Committer && i < |ROLES|
    ensures var db' := AfterCleaning(db, c, i, unread);
            && (Live(db', ChildKey(c, role)) <==>
                Live(db, ChildKey(c, role)) && (role == ROLES[i] ==> role in unread))
            && Same(db, db', c)
  {
    if role != ROLES[i] && ChildKey(c, role) == ChildKey(c, ROLES[i]) {
      ChildKeyInjective(c, role, c, ROLES[i]);
    }
  }

  /** The cleanup of child `i` decides the fate of that child alone. */
  lemma CleaningExact(db: State, c: Key, me: Obj, i: nat, unread: set<Role>, role: Role) returns (db': State)
    requires c.kind == Committer && i < |ROLES|
    ensures Solo(db, CleanGet(c, me, i), unread) == Solo(db', AfterClean(c, me, i), unread)
    ensures Live(db', ChildKey(c, role)) <==> Live(db, ChildKey(c, role)) && (role == ROLES[i] ==> role in unread)
    ensures Same(db, db', c)
  {
    CleanupUnrolls(db, c, me, i, unread);
    CleaningFate(db, c, i, unread, role);
    db' := AfterCleaning(db, c, i, unread);
  }

  /** The last step: the finalizer goes and nothing but `c` changes. */
  lemma DropExact(db: State, c: Key, me: Obj, unread: set<Role>)
    requires c.kind == Committer && c in db.objects && db.objects[c].version == me.version
    ensures var db' := Solo(db, DropFinalizer(c, me), unread);
            && !Guarded(db', c)
            && (forall k :: k != c ==> Same(db, db', k))
            && (db.objects[c].marked && RemoveString(me.finalizers, FINALIZER) == [] ==> c !in db'.objects)
  {
    var pc := DropFinalizer(c, me);
    var out := Perform(db, db, NextOp(pc), Clear);
    assert out.reply.Ok?;
    assert Solo(db, pc, unread) == Solo(out.db, Idle, unread) == out.db;
  }

  lemma {:induction false} CleanupFate(db: State, c: Key, me: Obj, i: nat, unread: set<Role>, role: Role)
    requires c.kind == Committer && i < |ROLES|
    requires c in db.objects && db.objects[c].version == me.version
    ensures Live(Solo(db, CleanGet(c, me, i), unread), ChildKey(c, role)) <==>
            Live(db, ChildKey(c, role)) && (role in unread || Earlier(role, i))
    decreases |ROLES| - i
  {
    var db1 := CleaningExact(db, c, me, i, unread, role);
    EarlierStep(role, i);
    if i + 1 < |ROLES| {
      CleanupFate(db1, c, me, i + 1, unread, role);
    } else {
      RolesComplete(role);
      DropExact(db1, c, me, unread);
      assert Same(db1, Solo(db1, DropFinalizer(c, me), unread), ChildKey(c, role));
    }
  }

  lemma {:induction false} CleanupUnguards(db: State, c: Key, me: Obj, i: nat, unread: set<Role>)
    requires c.kind == Committer && i < |ROLES|
    requires c in db.objects && db.objects[c].version == me.version
    ensures var db' := Solo(db, CleanGet(c, me, i), unread);
            && !Guarded(db', c)
            && (db.objects[c].marked && RemoveString(me.finalizers, FINALIZER) == [] ==> c !in db'.objects)
    decreases |ROLES| - i
  {
    var db1 := CleaningExact(db, c, me, i, unread, Sidecar);
    if i + 1 < |ROLES| {
      CleanupUnguards(db1, c, me, i + 1, unread);
    } else {
      DropExact(db1, c, me, unread);
    }
  }

  /** The cleanup loop from child `i` on: afterwards a child is live exactly if
      it was and it either precedes `i` or could not be read; the Committer has
      lost the finalizer. */
  lemma CleanupExact(db: State, c: Key, me: Obj, i: nat, unread: set<Role>, role: Role)
    requires c.kind == Committer && i < |ROLES|
    requires c in db.objects && db.objects[c].version == me.version
    ensures var db' := Solo(db, CleanGet(c, me, i), unread);
            && (Live(db', ChildKey(c, role)) <==>
                Live(db, ChildKey(c, role)) && (role in unread || Earlier(role, i)))
            && !Guarded(db', c)
            && (db.objects[c].marked && RemoveString(me.finalizers, FINALIZER) == [] ==> c !in db'.objects)
  {
    CleanupFate(db, c, me, i, unread, role);
    CleanupUnguards(db, c, me, i, unread);
  }

  /** Exactly when a deletion pass orphans: it leaves a live child without a
      guarded Committer if and only if some live child could not be read. */
  lemma DeletionPassOrphansIff(db: State, c: Key, unread: set<Role>)
    requires WellFormed(db) && c.kind == Committer
    requires c in db.objects && db.objects[c].marked
    ensures var db' := Pass(db, c, unread);
            && !Guarded(db', c)
            && ((exists role: Role :: Live(db', ChildKey(c, role)) && !Guarded(db', c)) <==>
                (exists role: Role :: role in unread && Live(db, ChildKey(c, role))))
  {
    var me := db.objects[c];
    var out := Effect(db, NextOp(DeleteStatus(c, me)));
    var me' := out.reply.stored;
    assert Pass(db, c, unread) == Solo(out.db, CleanGet(c, me', 0), unread);
    forall role: Role
      ensures var db' := Pass(db, c, unread);
              && (Live(db', ChildKey(c, role)) <==> Live(db, ChildKey(c, role)) && role in unread)
              && !Guarded(db', c)
    {
      CleanupExact(out.db, c, me', 0, unread, role);
    }
  }

  /** The write that gives child `i` its wanted specification. */
  function ChildWrite(db: State, c: Key, me: Obj, i: nat): Call
    requires i < |ROLES|
  {
    var k := ChildKey(c, ROLES[i]);
    NextOp(PutChild(c, me, i, if k in db.objects then Some(db.objects[k]) else None))
  }

  /** The write of child `i` succeeds, makes it live unless it is marked, and
      touches nothing else. */
  lemma WriteExact(db: State, c: Key, me: Obj, i: nat)
    requires c.kind == Committer && i < |ROLES|
    ensures Effect(db, ChildWrite(db, c, me, i)).reply.Ok?
    ensures var db', k := Effect(db, ChildWrite(db, c, me, i)).db, ChildKey(c, ROLES[i]);
            && (Live(db', k) <==> Live(db, k) || k !in db.objects)
            && (forall k' :: k' != k ==> Same(db, db', k'))
            && (WellFormed(db) ==>
                  WellFormed(db') && k in db'.objects && db'.objects[k].spec == Wanted(me, ROLES[i]))
  {
    if WellFormed(db) {
      EffectKeepsWellFormed(db, ChildWrite(db, c, me, i));
    }
  }

  lemma ReadLeads(db: State, c: Key, me: Obj, i: nat)
    requires c.kind == Committer && i < |ROLES|
    ensures var k := ChildKey(c, ROLES[i]);
            Solo(db, GetChild(c, me, i), {}) ==
            Solo(db, PutChild(c, me, i, if k in db.objects then Some(db.objects[k]) else None), {})
  {
    var pc := GetChild(c, me, i);
    var out := Perform(db, db, NextOp(pc), Clear);
    assert Solo(db, pc, {}) == Solo(out.db, Resume(pc, NextOp(pc), out.reply), {});
  }

  /** One round of the loop. */
  lemma BuildingUnrolls(db: State, c: Key, me: Obj, i: nat) returns (db': State)
    requires c.kind == Committer && i < |ROLES|
    ensures Solo(db, GetChild(c, me, i), {}) == Solo(db', AfterChild(c, me, i), {})
    ensures var k := ChildKey(c, ROLES[i]);
            && (Live(db', k) <==> Live(db, k) || k !in db.objects)
            && (forall k' :: k' != k ==> Same(db, db', k'))
            && (WellFormed(db) ==>
                  WellFormed(db') && k in db'.objects && db'.objects[k].spec == Wanted(me, ROLES[i]))
  {
    ReadLeads(db, c, me, i);
    WriteExact(db, c, me, i);
    var k := ChildKey(c, ROLES[i]);
    var pc := PutChild(c, me, i, if k in db.objects then Some(db.objects[k]) else None);
    var out := Perform(db, db, NextOp(pc), Clear);
    db' := out.db;
    assert Solo(db, pc, {}) == Solo(db', Resume(pc, NextOp(pc), out.reply), {});
  }

  /** The status report: whatever the server answers, only `c` changes, and not
      its finalizers. */
  lemma ReportExact(db: State, c: Key, me: Obj, status: Status)
    requires c.kind == Committer
    ensures var db' := Solo(db, Report(c, me, status), {});
            && (Guarded(db', c) <==> Guarded(db, c))
            && forall k :: k != c ==> Same(db, db', k)
  {
    var pc := Report(c, me, status);
    var out := Perform(db, db, NextOp(pc), Clear);
    assert Solo(db, pc, {}) == Solo(out.db, Idle, {}) == out.db;
  }

  /** The building loop changes nothing outside the family. */
  lemma {:induction false} BuildingFrame(db: State, c: Key, me: Obj, i: nat, k: Key)
    requires c.kind == Committer && i < |ROLES| && k != c && !IsChildOf(c, k)
    ensures Same(db, Solo(db, GetChild(c, me, i), {}), k)
    decreases |ROLES| - i
  {
    var db1 := BuildingUnrolls(db, c, me, i);
    assert Same(db, db1, k);
    if i + 1 < |ROLES| {
      BuildingFrame(db1, c, me, i + 1, k);
    } else {
      ReportExact(db1, c, me, RECONCILED);
      assert Same(db1, Solo(db1, Report(c, me, RECONCILED), {}), k);
    }
  }

  /** The building loop leaves the Committer as guarded as it was. */
  lemma {:induction false} BuildingGuards(db: State, c: Key, me: Obj, i: nat)
    requires c.kind == Committer && i < |ROLES|
    ensures Guarded(Solo(db, GetChild(c, me, i), {}), c) <==> Guarded(db, c)
    decreases |ROLES| - i
  {
    var db1 := BuildingUnrolls(db, c, me, i);
    assert Same(db, db1, c);
    if i + 1 < |ROLES| {
      BuildingGuards(db1, c, me, i + 1);
    } else {
      ReportExact(db1, c, me, RECONCILED);
    }
  }

  /** From child `i` on: afterwards a child is live exactly if it was, or was absent
      and is not before `i`. */
  lemma {:induction false} BuildingExact(db: State, c: Key, me: Obj, i: nat, role: Role)
    requires c.kind == Committer && i < |ROLES|
    ensures var db', k := Solo(db, GetChild(c, me, i), {}), ChildKey(c, role);
            Live(db', k) <==> Live(db, k) || (k !in db.objects && !Earlier(role, i))
    decreases |ROLES| - i
  {
    var db1 := BuildingUnrolls(db, c, me, i);
    EarlierStep(role, i);
    if role != ROLES[i] {
      if ChildKey(c, role) == ChildKey(c, ROLES[i]) {
        ChildKeyInjective(c, role, c, ROLES[i]);
      }
      assert Same(db, db1, ChildKey(c, role));
    }
    if i + 1 < |ROLES| {
      BuildingExact(db1, c, me, i + 1, role);
    } else {
      RolesComplete(role);
      ReportExact(db1, c, me, RECONCILED);
      assert Same(db1, Solo(db1, Report(c, me, RECONCILED), {}), ChildKey(c, role));
    }
  }

  /** A copy that carries the finalizer goes straight to the loop. */
  lemma FromCopy(db: State, c: Key, copy: Obj) returns (db': State, me: Obj)
    requires c.kind == Committer && !copy.marked && FINALIZER in copy.finalizers
    requires copy.status.phase == Unset ==> Remembers(db, c, copy)
    ensures Solo(db, Begin(c, Ok(copy)), {}) == Solo(db', GetChild(c, me, 0), {})
    ensures (Guarded(db', c) <==> Guarded(db, c)) && forall k :: k != c ==> Same(db, db', k)
  {
    db', me := db, copy;
    if copy.status.phase == Unset {
      var pc := InitStatus(c, copy);
      var out := Perform(db, db, NextOp(pc), Clear);
      assert Solo(db, pc, {}) == Solo(out.db, Resume(pc, NextOp(pc), out.reply), {});
      db', me := out.db, Copy(copy, INITIALIZING, out.reply);
    }
  }

  /** The building pass seen from outside: of the family it makes exactly the
      absent children live. */
  lemma BuildingPassExact(db: State, c: Key, copy: Obj)
    requires c.kind == Committer && !copy.marked && FINALIZER in copy.finalizers
    requires copy.status.phase == Unset ==> Remembers(db, c, copy)
    ensures var db' := Solo(db, Begin(c, Ok(copy)), {});
            && (Guarded(db', c) <==> Guarded(db, c))
            && (forall k :: k != c && !IsChildOf(c, k) ==> Same(db, db', k))
            && (forall role: Role ::
                  Live(db', ChildKey(c, role)) <==> Live(db, ChildKey(c, role)) || ChildKey(c, role) !in db.objects)
  {
    var db1, me := FromCopy(db, c, copy);
    BuildingGuards(db1, c, me, 0);
    var db' := Solo(db, Begin(c, Ok(copy)), {});
    forall role: Role
      ensures Live(db', ChildKey(c, role)) <==> Live(db, ChildKey(c, role)) || ChildKey(c, role) !in db.objects
    {
      BuildingExact(db1, c, me, 0, role);
      assert Same(db, db1, ChildKey(c, role));
    }
    forall k | k != c && !IsChildOf(c, k)
      ensures Same(db, db', k)
    {
      BuildingFrame(db1, c, me, 0, k);
      assert Same(db, db1, k) && Same(db1, db', k);
    }
  }

  /** Exactly when a building pass orphans.  It starts from a copy of the Committer
      that was current at some time, unmarked and with the finalizer; it ends with
      an orphan if and only if the Committer is no longer guarded and some child
      is absent, which the pass then creates.  So reads must be current. */
  lemma BuildingOrphansIff(db: State, c: Key, copy: Obj)
    requires NoOrphans(db) && c.kind == Committer && !copy.marked && FINALIZER in copy.finalizers
    requires copy.status.phase == Unset ==> Remembers(db, c, copy)
    ensures !NoOrphans(Solo(db, Begin(c, Ok(copy)), {})) <==>
            !Guarded(db, c) && exists role: Role :: ChildKey(c, role) !in db.objects
  {
    var db' := Solo(db, Begin(c, Ok(copy)), {});
    BuildingPassExact(db, c, copy);
    forall c': Key, role: Role | c'.kind == Committer && c' != c && Live(db', ChildKey(c', role))
      ensures Guarded(db', c')
    {
      OtherFamily(c, c', role);
      assert Same(db, db', ChildKey(c', role)) && Same(db, db', c');
      assert Live(db, ChildKey(c', role));
    }
    if !Guarded(db, c) {
      if role: Role :| ChildKey(c, role) !in db.objects {
        assert Live(db', ChildKey(c, role)) && !Guarded(db', c);
      }
    }
  }

  lemma OtherFamily(c: Key, c': Key, role: Role)
    requires c.kind == Committer && c'.kind == Committer && c' != c
    ensures !IsChildOf(c, ChildKey(c', role)) && !IsChildOf(c, c')
  {
    forall role': Role
      ensures ChildKey(c', role) != ChildKey(c, role')
    {
      if ChildKey(c', role) == ChildKey(c, role') {
        ChildKeyInjective(c', role, c, role');
      }
    }
  }
}
