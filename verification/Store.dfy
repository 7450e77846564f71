/** The API server every controller talks to.

    An object is addressed by (kind, namespace, name).  Each accepted write gives
    the object a fresh resource version taken from one global counter; a write
    that carries another version than the stored one is rejected.  Deleting an
    object that still has finalizers only marks it; a marked object disappears
    with its last finalizer. */
module ApiServer {
  import opened Prelude

  datatype Kind =
    | Committer | CommitterCoordinator | CommitterSidecar | CommitterValidator
    | CommitterVerifier | CommitterQueryService
    | OrdererGroup | OrdererConsenter | OrdererAssembler | OrdererRouter | OrdererBatcher
    | ChainNamespace | CAEnrollment | Identity | Genesis
    | Secret | ConfigMap | Service | PersistentVolumeClaim | Deployment

  datatype Key = Key(kind: Kind, namespace: string, name: string)

  datatype Object<S, T> = Object(
    spec: S,
    status: T,
    labels: map<string, string>,
    data: map<string, string>,
    finalizers: seq<string>,
    marked: bool,
    owner: Option<Key>,
    version: nat)

  datatype Db<S, T> = Db(objects: map<Key, Object<S, T>>, next: nat)

  datatype Error = NotFound | AlreadyExists | Conflict | Unavailable

  datatype Reply<S, T> = Ok(stored: Object<S, T>) | Err(error: Error)

  /** What can go wrong with one call: it is refused without effect, it takes
      effect but the answer is lost, or (reads only) it is answered from the
      state that held after the first `at` entries of the history. */
  datatype Fault = Clear | Refused | ReplyLost | Stale(at: nat)

  datatype Op<S, T> =
    | Get(key: Key)
    | Create(key: Key, obj: Object<S, T>)
    | Update(key: Key, obj: Object<S, T>)
    | StatusUpdate(key: Key, obj: Object<S, T>)
    | Delete(key: Key)

  datatype Outcome<S, T> = Outcome(db: Db<S, T>, reply: Reply<S, T>)

  /** Stored versions are positive and below the counter, and no marked object
      has run out of finalizers. */
  ghost predicate WellFormed<S, T>(db: Db<S, T>) {
    && 0 < db.next
    && forall k :: k in db.objects ==>
         && 0 < db.objects[k].version < db.next
         && (db.objects[k].marked ==> db.objects[k].finalizers != [])
  }

  /** Store `o` under `k` with a fresh version, unless it is marked and has no
      finalizer left, in which case it goes away. */
  function Put<S, T>(db: Db<S, T>, k: Key, o: Object<S, T>): Db<S, T> {
    if o.marked && o.finalizers == []
    then Db(db.objects - {k}, db.next + 1)
    else Db(db.objects[k := o.(version := db.next)], db.next + 1)
  }

  /** The effect and the answer of a call that reaches the server. */
  function Effect<S, T>(db: Db<S, T>, op: Op<S, T>): Outcome<S, T> {
    match op
    case Get(k) =>
      if k in db.objects then Outcome(db, Ok(db.objects[k])) else Outcome(db, Err(NotFound))
    case Create(k, o) =>
      if k in db.objects then Outcome(db, Err(AlreadyExists))
      else
        var created := o.(marked := false);
        Outcome(Put(db, k, created), Ok(created.(version := db.next)))
    case Update(k, o) =>
      if k !in db.objects then Outcome(db, Err(NotFound))
      else if o.version != 0 && o.version != db.objects[k].version then Outcome(db, Err(Conflict))
      else
        // status and the deletion mark are not writable through Update
        var o' := o.(status := db.objects[k].status, marked := db.objects[k].marked);
        Outcome(Put(db, k, o'), Ok(o'.(version := db.next)))
    case StatusUpdate(k, o) =>
      if k !in db.objects then Outcome(db, Err(NotFound))
      else if o.version != 0 && o.version != db.objects[k].version then Outcome(db, Err(Conflict))
      else
        var o' := db.objects[k].(status := o.status);
        Outcome(Put(db, k, o'), Ok(o'.(version := db.next)))
    case Delete(k) =>
      if k !in db.objects then Outcome(db, Err(NotFound))
      else
        var o' := db.objects[k].(marked := true);
        Outcome(Put(db, k, o'), Ok(o'))
  }

  /** A call under a fault; `then` is the state a stale read is answered from. */
  function Perform<S, T>(db: Db<S, T>, past: Db<S, T>, op: Op<S, T>, f: Fault): Outcome<S, T> {
    match f
    case Clear => Effect(db, op)
    case Refused => Outcome(db, Err(Unavailable))
    case ReplyLost => Outcome(Effect(db, op).db, Err(Unavailable))
    case Stale(_) => if op.Get? then Outcome(db, Effect(past, op).reply) else Effect(db, op)
  }

  /** What the history records: a call of the controller under study, or a call
      of anybody else (users, other controllers, the garbage collector). */
  datatype Entry<S, T> = Mine(op: Op<S, T>, fault: Fault) | Other(op: Op<S, T>)

  type History<S, T> = seq<Entry<S, T>>

  function Past<S, T>(start: Db<S, T>, h: History<S, T>, f: Fault): Db<S, T>
    decreases |h|, 1
  {
    if f.Stale? && f.at < |h| then Replay(start, h[..f.at]) else Replay(start, h)
  }

  /** The database after a history. */
  function Replay<S, T>(start: Db<S, T>, h: History<S, T>): Db<S, T>
    decreases |h|, 0
  {
    if h == [] then start
    else
      var before := h[..|h| - 1];
      match h[|h| - 1]
      case Other(op) => Effect(Replay(start, before), op).db
      case Mine(op, f) => Perform(Replay(start, before), Past(start, before, f), op, f).db
  }

  lemma EffectKeepsWellFormed<S, T>(db: Db<S, T>, op: Op<S, T>)
    requires WellFormed(db)
    ensures WellFormed(Effect(db, op).db)
    ensures Effect(db, op).db.next >= db.next
  {
  }

  /** Everybody's calls keep the store well formed, whatever faults occur. */
  lemma {:induction false} ReplayWellFormed<S, T>(start: Db<S, T>, h: History<S, T>)
    requires WellFormed(start)
    ensures WellFormed(Replay(start, h))
    decreases |h|
  {
    if h != [] {
      var before := h[..|h| - 1];
      ReplayWellFormed(start, before);
      EffectKeepsWellFormed(Replay(start, before), h[|h| - 1].op);
    }
  }

  /** `o` is a faithful memory of `k`: should the stored object carry the same
      version, then it is `o` itself. */
  ghost predicate Remembers<S, T>(db: Db<S, T>, k: Key, o: Object<S, T>) {
    && 0 < o.version < db.next
    && (k in db.objects && db.objects[k].version == o.version ==> db.objects[k] == o)
  }

  /** Every write takes a version of its own, so memories stay faithful. */
  lemma EffectKeepsMemory<S, T>(db: Db<S, T>, op: Op<S, T>, k: Key, o: Object<S, T>)
    requires Remembers(db, k, o)
    ensures Remembers(Effect(db, op).db, k, o)
  {
  }

  /** Whatever was ever stored is remembered ever after. */
  lemma {:induction false} PastIsRemembered<S, T>(start: Db<S, T>, h: History<S, T>, j: nat, k: Key)
    requires WellFormed(start) && j <= |h| && k in Replay(start, h[..j]).objects
    ensures Remembers(Replay(start, h), k, Replay(start, h[..j]).objects[k])
    decreases |h|
  {
    if j == |h| {
      assert h[..j] == h;
      ReplayWellFormed(start, h);
    } else {
      var before := h[..|h| - 1];
      assert before[..j] == h[..j];
      PastIsRemembered(start, before, j, k);
      EffectKeepsMemory(Replay(start, before), h[|h| - 1].op, k, Replay(start, h[..j]).objects[k]);
    }
  }

  /** Everything in `h` after its prefix `h0` was done by others, within `rely`. */
  ghost predicate OthersOnly<S, T>(start: Db<S, T>, h0: History<S, T>, h: History<S, T>,
                                   rely: (Db<S, T>, Op<S, T>) -> bool)
  {
    && h0 <= h
    && forall j :: |h0| <= j < |h| ==> h[j].Other? && rely(Replay(start, h[..j]), h[j].op)
  }

  /** Peel the last of the others' calls off. */
  lemma OthersOnlyShrink<S, T>(start: Db<S, T>, h0: History<S, T>, h: History<S, T>,
                               rely: (Db<S, T>, Op<S, T>) -> bool)
    requires OthersOnly(start, h0, h, rely) && |h| > |h0|
    ensures var before, last := h[..|h| - 1], h[|h| - 1];
            OthersOnly(start, h0, before, rely) && last.Other? && rely(Replay(start, before), last.op)
  {
    var before := h[..|h| - 1];
    forall j | |h0| <= j < |before|
      ensures before[j].Other? && rely(Replay(start, before[..j]), before[j].op)
    {
      assert before[..j] == h[..j];
    }
  }

  lemma OthersWithin<S, T>(start: Db<S, T>, h0: History<S, T>, h: History<S, T>,
                           rely: (Db<S, T>, Op<S, T>) -> bool, wider: (Db<S, T>, Op<S, T>) -> bool)
    requires OthersOnly(start, h0, h, rely)
    requires forall db, op :: rely(db, op) ==> wider(db, op)
    ensures OthersOnly(start, h0, h, wider)
  {
  }

  lemma OthersOnlyExtend<S, T>(start: Db<S, T>, h0: History<S, T>, h: History<S, T>,
                               rely: (Db<S, T>, Op<S, T>) -> bool, op: Op<S, T>)
    requires OthersOnly(start, h0, h, rely) && rely(Replay(start, h), op)
    ensures OthersOnly(start, h0, h + [Other(op)], rely)
  {
    var h' := h + [Other(op)];
    forall j | |h0| <= j < |h'|
      ensures h'[j].Other? && rely(Replay(start, h'[..j]), h'[j].op)
    {
      assert h'[..j] == h[..j];
      if j == |h| {
        assert h[..j] == h;
      }
    }
  }

  /** The keys of the controller's own reads of objects of a kind, in order. */
  function OwnGets<S, T>(h: History<S, T>, kind: Kind): seq<Key> {
    if h == [] then []
    else
      var last := h[|h| - 1];
      OwnGets(h[..|h| - 1], kind) +
      if last.Mine? && last.op.Get? && last.op.key.kind == kind then [last.op.key] else []
  }

  lemma {:induction false} OthersGetNothing<S, T>(start: Db<S, T>, h0: History<S, T>, h: History<S, T>,
                                                  rely: (Db<S, T>, Op<S, T>) -> bool, kind: Kind)
    requires OthersOnly(start, h0, h, rely)
    ensures OwnGets(h, kind) == OwnGets(h0, kind)
    decreases |h|
  {
    if |h| > |h0| {
      OthersOnlyShrink(start, h0, h, rely);
      OthersGetNothing(start, h0, h[..|h| - 1], rely, kind);
    } else {
      assert h == h0;
    }
  }

  /** The server as the controllers see it: between any two calls the other
      actors may do anything `rely` allows, and any call may fail. */
  class Server<S(0), T(0)> {
    const start: Db<S, T>
    const rely: (Db<S, T>, Op<S, T>) -> bool
    var db: Db<S, T>
    var history: History<S, T>

    ghost predicate Valid()
      reads this
    {
      db == Replay(start, history)
    }

    constructor (start: Db<S, T>, rely: (Db<S, T>, Op<S, T>) -> bool)
      ensures Valid() && history == [] && db == start
      ensures this.start == start && this.rely == rely
    {
      this.start := start;
      this.rely := rely;
      db := start;
      history := [];
    }

    /** Any number of calls by other actors. */
    method Others()
      requires Valid()
      modifies this
      ensures Valid() && OthersOnly(start, old(history), history, rely)
    {
      var rounds: nat := *;
      while rounds > 0
        invariant Valid() && OthersOnly(start, old(history), history, rely)
      {
        var op: Op<S, T> := *;
        if rely(db, op) {
          OthersOnlyExtend(start, old(history), history, rely, op);
          db := Effect(db, op).db;
          history := history + [Other(op)];
        }
        rounds := rounds - 1;
      }
    }

    /** One call of the controller, after whatever the others did meanwhile.
        `before` is the history at the instant the call is served. */
    method Call(op: Op<S, T>) returns (reply: Reply<S, T>, ghost before: History<S, T>, ghost fault: Fault)
      requires Valid()
      modifies this
      ensures Valid() && OthersOnly(start, old(history), before, rely)
      ensures history == before + [Mine(op, fault)]
      ensures reply == Perform(Replay(start, before), Past(start, before, fault), op, fault).reply
      ensures forall kind :: OwnGets(history, kind) ==
                OwnGets(old(history), kind) + if op.Get? && op.key.kind == kind then [op.key] else []
    {
      Others();
      before := history;
      var f: Fault := *;
      fault := f;
      var past := Past(start, history, f);
      var outcome := Perform(db, past, op, f);
      db, history := outcome.db, history + [Mine(op, f)];
      reply := outcome.reply;
      assert history[..|history| - 1] == before;
      forall kind: Kind
        ensures OwnGets(before, kind) == OwnGets(old(history), kind)
      {
        OthersGetNothing(start, old(history), before, rely, kind);
      }
    }
  }
}
