/** What an OrdererGroup's children are made of, field by field, and what its
    reports say. */
module OrdererChildren {
  import opened Prelude
  import opened Components
  import opened ApiServer
  import opened OrdererSpecs
  import opened OrdererNames
  import opened OrdererGroupProgram

  predicate Overrides<T(==)>(result: Option<T>, over: Option<T>, under: Option<T>) {
    (over.Some? ==> result == over) && (over.None? ==> result == under)
  }

  /** Each field comes from the upper layer if that sets it, else from the lower one. */
  lemma MergeFieldwise(over: Layer, under: Layer)
    ensures var r, o, u := Merge(over, under).common, over.common, under.common;
            && (o.replicas != 0 ==> r.replicas == o.replicas) && (o.replicas == 0 ==> r.replicas == u.replicas)
            && Overrides(r.storage, o.storage, u.storage)
            && Overrides(r.resources, o.resources, u.resources)
            && Overrides(r.securityContext, o.securityContext, u.securityContext)
            && Overrides(r.podAnnotations, o.podAnnotations, u.podAnnotations)
            && Overrides(r.podLabels, o.podLabels, u.podLabels)
            && Overrides(r.volumes, o.volumes, u.volumes)
            && Overrides(r.affinity, o.affinity, u.affinity)
            && Overrides(r.volumeMounts, o.volumeMounts, u.volumeMounts)
            && Overrides(r.imagePullSecrets, o.imagePullSecrets, u.imagePullSecrets)
            && Overrides(r.tolerations, o.tolerations, u.tolerations)
            && Overrides(Merge(over, under).enrollment, over.enrollment, under.enrollment)
  {
  }

  /** The shared fields come from the group, and from this configuration over its
      Common and enrollment. */
  predicate MadeOf(s: Shared, g: GroupSpec, config: Component) {
    && s.bootstrapMode == (if g.bootstrapMode != "" then g.bootstrapMode else "configure")
    && s.mspID == g.mspID && s.partyID == g.partyID && s.genesis == g.genesis
    && s.image == (if g.image != "" then g.image else "hyperledger/fabric-x-orderer")
    && s.imageTag == (if g.imageTag != "" then g.imageTag else "0.0.19")
    && s.own == config.own
    && var group := if g.common.Some? then g.common.value
                    else Common(0, None, None, None, None, None, None, None, None, None, None);
       Layer(s.common, s.enrollment) == Merge(Layer(config.common, config.enrollment), Layer(group, g.enrollment))
  }

  /** The child of this slot is there, under its name, made of its own entry. */
  predicate Assembled(db: State, c: Key, g: GroupSpec, slot: Slot)
    requires Configured(g, slot)
  {
    match slot
    case Consenter =>
      var k := Key(OrdererConsenter, c.namespace, c.name + "-consenter");
      && k in db.objects && db.objects[k].spec.OfChild? && db.objects[k].spec.child.ForConsenter?
      && var spec := db.objects[k].spec.child.consenter;
         MadeOf(spec.shared, g, g.consenter.value) && spec.consenterID == g.consenter.value.instanceID
    case Assembler =>
      var k := Key(OrdererAssembler, c.namespace, c.name + "-assembler");
      && k in db.objects && db.objects[k].spec.OfChild? && db.objects[k].spec.child.ForAssembler?
      && MadeOf(db.objects[k].spec.child.assembler.shared, g, g.assembler.value)
    case Router =>
      var k := Key(OrdererRouter, c.namespace, c.name + "-router");
      && k in db.objects && db.objects[k].spec.OfChild? && db.objects[k].spec.child.ForRouter?
      && MadeOf(db.objects[k].spec.child.router.shared, g, g.router.value)
    case Batcher(i) =>
      var k := Key(OrdererBatcher, c.namespace, c.name + ("-batcher-" + Decimal(i)));
      && k in db.objects && db.objects[k].spec.OfChild? && db.objects[k].spec.child.ForBatcher?
      && var spec := db.objects[k].spec.child.batcher;
         MadeOf(spec.shared, g, g.batchers[i]) && spec.shardID == g.batchers[i].instanceID
  }

  lemma TargetMadeOf(g: GroupSpec, config: Component)
    ensures MadeOf(Target(g, config), g, config)
  {
    TwoLayers(Layer(config.common, config.enrollment), GroupLayer(g));
  }

  /** A child on target is built. */
  lemma WantedAssembled(db: State, c: Key, g: GroupSpec, slot: Slot)
    requires Configured(g, slot)
    requires SlotKey(c, slot) in db.objects && db.objects[SlotKey(c, slot)].spec == OfChild(Wanted(g, slot))
    ensures Assembled(db, c, g, slot)
  {
    match slot
    case Consenter => TargetMadeOf(g, g.consenter.value);
    case Assembler => TargetMadeOf(g, g.assembler.value);
    case Router => TargetMadeOf(g, g.router.value);
    case Batcher(i) => TargetMadeOf(g, g.batchers[i]);
  }

  /** No call about a child is made for a group that does not manage its children,
      nor one about a child the group does not configure. */
  lemma OnlyConfigured(pc: Pc, op: Call)
    requires Expects(pc, op) && IsChildKind(op.key.kind)
    ensures !pc.Idle? && SpecOf(pc.me).manageChildCRDs != Some(false)
    ensures exists slot: Slot :: op.key == SlotKey(pc.c, slot) && Configured(SpecOf(pc.me), slot)
    ensures op.Create? ==> op.obj.owner == Some(pc.c) && op.obj.finalizers == []
  {
    SlotsExact(SpecOf(pc.me), pc.p);
    assert op.key == SlotKey(pc.c, SlotAt(pc));
  }

  /** What the next report says: Running exactly after the last child of a reconcile
      that got through (or if there is none), Failed after a failure. */
  lemma ReportPhases(pc: Pc, op: Call, reply: Answer)
    requires InRange(pc) && Expects(pc, op) && !StartsReconcile(op)
    ensures var pc' := Resume(pc, op, reply);
            pc'.Report? ==>
              && (pc'.status.phase == Running <==> reply.Ok? || pc.InitStatus?)
              && (pc'.status.phase == Failed <==> reply.Err? && !pc.InitStatus?)
  {
  }

  predicate Guarded(pc: Pc) {
    pc.GetChild? || pc.PutChild? ==> "orderergroup.fabricx.kfsoft.tech/finalizer" in pc.me.finalizers
  }

  lemma AfterChildrenGuarded(c: Key, me: Obj, p: nat)
    requires FINALIZER in me.finalizers
    ensures Guarded(AfterChildren(c, me, p))
  {
  }

  lemma StepGuarded(db: State, past: State, pc: Pc, f: Fault)
    requires !pc.Idle? && InRange(pc) && !StartsReconcile(NextOp(pc)) && Guarded(pc)
    ensures Guarded(Resume(pc, NextOp(pc), Perform(db, past, NextOp(pc), f).reply))
  {
    var reply := Perform(db, past, NextOp(pc), f).reply;
    match pc
    case InitStatus(c, me) => StatusGuarded(c, Copy(me, INITIALIZING, reply));
    case EnsureFinalizer(c, me) =>
      if reply.Ok? {
        AfterChildrenGuarded(c, reply.stored, 0);
      }
    case PutChild(c, me, p, _) => AfterChildrenGuarded(c, me, p + 1);
    case _ =>
  }

  lemma StatusGuarded(c: Key, me: Obj)
    ensures Guarded(AfterStatus(c, me))
  {
  }

  /** In every run, whatever fails and however outdated the reads are, children are
      read and written only on behalf of a copy that carries the finalizer. */
  lemma {:induction false} AlwaysGuarded(start: State, h: Trace, rely: (State, Call) -> bool)
    requires Follows(start, h, rely)
    ensures InRange(PcAfter(start, h)) && Guarded(PcAfter(start, h))
    decreases |h|
  {
    if h != [] {
      var before, last := h[..|h| - 1], h[|h| - 1];
      AlwaysGuarded(start, before, rely);
      if last.Mine? {
        var reply := Answered(start, before, last.op, last.fault);
        ResumeInRange(PcAfter(start, before), last.op, reply);
        if StartsReconcile(last.op) {
          FetchGuarded(last.op.key, reply);
        } else {
          StepGuarded(Replay(start, before), Past(start, before, last.fault), PcAfter(start, before), last.fault);
        }
      }
    }
  }

  lemma FetchGuarded(c: Key, reply: Answer)
    ensures Guarded(Begin(c, reply))
  {
  }
}
