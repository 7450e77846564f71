/** The specifications an OrdererGroup gives its children: one left-biased merge
    of configuration layers, and the four builders that compute it. */
module OrdererSpecs {
  import opened Prelude
  import opened Components

  datatype GroupSpec = GroupSpec(
    bootstrapMode: string,
    mspID: string,
    partyID: int,
    image: string,
    imageTag: string,
    common: Option<Common>,
    genesis: GenesisRef,
    enrollment: Option<Json>,
    manageChildCRDs: Option<bool>,
    consenter: Option<Component>,
    assembler: Option<Component>,
    router: Option<Component>,
    batchers: seq<Component>)

  /** The fields all four child kinds have. */
  datatype Shared = Shared(
    bootstrapMode: string,
    mspID: string,
    partyID: int,
    image: string,
    imageTag: string,
    genesis: GenesisRef,
    common: Common,
    enrollment: Option<Json>,
    own: Own)

  /** Fields of consenters and batchers that no builder sets. */
  datatype Claim = Claim(storageClassName: string, accessModes: seq<string>, storageSize: string)

  const NO_CLAIM := Claim("", [], "")

  datatype ConsenterSpec = ConsenterSpec(shared: Shared, consenterID: int, claim: Claim)
  datatype AssemblerSpec = AssemblerSpec(shared: Shared)
  datatype RouterSpec = RouterSpec(shared: Shared)
  datatype BatcherSpec = BatcherSpec(shared: Shared, shardID: int, claim: Claim)

  datatype OrdererSpec =
    | ForConsenter(consenter: ConsenterSpec)
    | ForAssembler(assembler: AssemblerSpec)
    | ForRouter(router: RouterSpec)
    | ForBatcher(batcher: BatcherSpec)

  /** What a component may inherit. */
  datatype Layer = Layer(common: Common, enrollment: Option<Json>)

  const UNSET := Layer(ZERO_COMMON, None)

  /** Left-biased: what `over` sets wins, the rest comes from `under`. */
  function Merge(over: Layer, under: Layer): Layer {
    var o, u := over.common, under.common;
    Layer(
      Common(
        if o.replicas != 0 then o.replicas else u.replicas,
        OrElse(o.storage, u.storage),
        OrElse(o.resources, u.resources),
        OrElse(o.securityContext, u.securityContext),
        OrElse(o.podAnnotations, u.podAnnotations),
        OrElse(o.podLabels, u.podLabels),
        OrElse(o.volumes, u.volumes),
        OrElse(o.affinity, u.affinity),
        OrElse(o.volumeMounts, u.volumeMounts),
        OrElse(o.imagePullSecrets, u.imagePullSecrets),
        OrElse(o.tolerations, u.tolerations)),
      OrElse(over.enrollment, under.enrollment))
  }

  /** A stack of layers, the strongest first. */
  function MergeAll(layers: seq<Layer>): Layer {
    if layers == [] then UNSET else Merge(layers[0], MergeAll(layers[1..]))
  }

  /** Layers form an idempotent monoid. */
  lemma MergeMonoid(a: Layer, b: Layer, c: Layer)
    ensures Merge(Merge(a, b), c) == Merge(a, Merge(b, c))
    ensures Merge(a, UNSET) == a && Merge(UNSET, a) == a && Merge(a, a) == a
  {
  }

  /** A stack may be merged in any grouping, and a layer below itself is moot. */
  lemma {:induction false} MergeAllSplits(upper: seq<Layer>, lower: seq<Layer>)
    ensures MergeAll(upper + lower) == Merge(MergeAll(upper), MergeAll(lower))
    ensures upper != [] ==> MergeAll([upper[0]] + upper + lower) == MergeAll(upper + lower)
  {
    if upper == [] {
      assert upper + lower == lower;
      MergeMonoid(MergeAll(lower), UNSET, UNSET);
    } else {
      assert (upper + lower)[1..] == upper[1..] + lower;
      assert ([upper[0]] + upper + lower)[1..] == upper + lower;
      MergeAllSplits(upper[1..], lower);
      MergeMonoid(upper[0], MergeAll(upper[1..]), MergeAll(lower));
      MergeMonoid(upper[0], upper[0], MergeAll(upper[1..] + lower));
    }
  }

  function GroupLayer(g: GroupSpec): Layer {
    Layer(if g.common.Some? then g.common.value else ZERO_COMMON, g.enrollment)
  }

  /** The reference: the component's layer over the group's, plus what is never inherited. */
  function Target(g: GroupSpec, config: Component): Shared {
    var merged := MergeAll([Layer(config.common, config.enrollment), GroupLayer(g)]);
    Shared(
      NonEmpty(g.bootstrapMode, "configure"), g.mspID, g.partyID,
      NonEmpty(g.image, "hyperledger/fabric-x-orderer"), NonEmpty(g.imageTag, "0.0.19"),
      g.genesis, merged.common, merged.enrollment, config.own)
  }

  /** `if text == "" { text = default }` */
  method Default(text: string, default: string) returns (r: string)
    ensures r == NonEmpty(text, default)
  {
    r := text;
    if r == "" {
      r := default;
    }
  }

  /** One link of the chain: `if over != nil { field = over }`. */
  method Prefer(over: Option<Json>, field: Option<Json>) returns (r: Option<Json>)
    ensures r == OrElse(over, field)
  {
    r := field;
    if over.Some? {
      r := over;
    }
  }

  method BuildConsenterSpecFromInstance(g: GroupSpec, config: Component) returns (spec: ConsenterSpec)
    ensures spec == ConsenterSpec(Target(g, config), config.instanceID, NO_CLAIM)
  {
    var bootstrapMode := Default(g.bootstrapMode, "configure");
    var image := Default(g.image, "hyperledger/fabric-x-orderer");
    var imageTag := Default(g.imageTag, "0.0.19");
    var s := Shared(bootstrapMode, g.mspID, g.partyID, image, imageTag, g.genesis, ZERO_COMMON, g.enrollment, ZERO_OWN);
    if g.common.Some? {
      var c := g.common.value;
      s := s.(common := Common(c.replicas, c.storage, c.resources, c.securityContext, c.podAnnotations, c.podLabels,
                               c.volumes, c.affinity, c.volumeMounts, c.imagePullSecrets, c.tolerations));
    }
    var c, o, common := config.common, config.own, s.common;
    var replicas := common.replicas;
    if c.replicas != 0 {
      replicas := c.replicas;
    }
    var storage := Prefer(c.storage, common.storage);
    var resources := Prefer(c.resources, common.resources);
    var securityContext := Prefer(c.securityContext, common.securityContext);
    var podAnnotations := Prefer(c.podAnnotations, common.podAnnotations);
    var podLabels := Prefer(c.podLabels, common.podLabels);
    var volumes := Prefer(c.volumes, common.volumes);
    var affinity := Prefer(c.affinity, common.affinity);
    var volumeMounts := Prefer(c.volumeMounts, common.volumeMounts);
    var imagePullSecrets := Prefer(c.imagePullSecrets, common.imagePullSecrets);
    var tolerations := Prefer(c.tolerations, common.tolerations);
    var enrollment := Prefer(config.enrollment, s.enrollment);
    var own := s.own.(ingress := o.ingress, sans := o.sans, endpoints := o.endpoints, env := o.env);
    own := own.(command := o.command, args := o.args);
    common := Common(replicas, storage, resources, securityContext, podAnnotations, podLabels, volumes, affinity,
                     volumeMounts, imagePullSecrets, tolerations);
    s := s.(common := common, enrollment := enrollment, own := own);
    spec := ConsenterSpec(s, config.instanceID, NO_CLAIM);
    TwoLayers(Layer(config.common, config.enrollment), GroupLayer(g));
  }

  method BuildAssemblerSpec(g: GroupSpec, config: Component) returns (spec: AssemblerSpec)
    ensures spec == AssemblerSpec(Target(g, config))
  {
    var bootstrapMode := Default(g.bootstrapMode, "configure");
    var image := Default(g.image, "hyperledger/fabric-x-orderer");
    var imageTag := Default(g.imageTag, "0.0.19");
    var s := Shared(bootstrapMode, g.mspID, g.partyID, image, imageTag, g.genesis, ZERO_COMMON, g.enrollment, ZERO_OWN);
    if g.common.Some? {
      var c := g.common.value;
      s := s.(common := Common(c.replicas, c.storage, c.resources, c.securityContext, c.podAnnotations, c.podLabels,
                               c.volumes, c.affinity, c.volumeMounts, c.imagePullSecrets, c.tolerations));
    }
    var c, o, common := config.common, config.own, s.common;
    var replicas := common.replicas;
    if c.replicas != 0 {
      replicas := c.replicas;
    }
    var storage := Prefer(c.storage, common.storage);
    var resources := Prefer(c.resources, common.resources);
    var securityContext := Prefer(c.securityContext, common.securityContext);
    var podAnnotations := Prefer(c.podAnnotations, common.podAnnotations);
    var podLabels := Prefer(c.podLabels, common.podLabels);
    var volumes := Prefer(c.volumes, common.volumes);
    var affinity := Prefer(c.affinity, common.affinity);
    var volumeMounts := Prefer(c.volumeMounts, common.volumeMounts);
    var imagePullSecrets := Prefer(c.imagePullSecrets, common.imagePullSecrets);
    var tolerations := Prefer(c.tolerations, common.tolerations);
    var own := s.own.(ingress := o.ingress, sans := o.sans, endpoints := o.endpoints, env := o.env);
    own := own.(command := o.command);
    var enrollment := Prefer(config.enrollment, s.enrollment);
    own := own.(args := o.args);
    common := Common(replicas, storage, resources, securityContext, podAnnotations, podLabels, volumes, affinity,
                     volumeMounts, imagePullSecrets, tolerations);
    s := s.(common := common, enrollment := enrollment, own := own);
    spec := AssemblerSpec(s);
    TwoLayers(Layer(config.common, config.enrollment), GroupLayer(g));
  }

  method BuildRouterSpec(g: GroupSpec, config: Component) returns (spec: RouterSpec)
    ensures spec == RouterSpec(Target(g, config))
  {
    var bootstrapMode := Default(g.bootstrapMode, "configure");
    var image := Default(g.image, "hyperledger/fabric-x-orderer");
    var imageTag := Default(g.imageTag, "0.0.19");
    var s := Shared(bootstrapMode, g.mspID, g.partyID, image, imageTag, g.genesis, ZERO_COMMON, g.enrollment, ZERO_OWN);
    if g.common.Some? {
      var c := g.common.value;
      s := s.(common := Common(c.replicas, c.storage, c.resources, c.securityContext, c.podAnnotations, c.podLabels,
                               c.volumes, c.affinity, c.volumeMounts, c.imagePullSecrets, c.tolerations));
    }
    var c, o, common := config.common, config.own, s.common;
    var replicas := common.replicas;
    if c.replicas != 0 {
      replicas := c.replicas;
    }
    var storage := Prefer(c.storage, common.storage);
    var resources := Prefer(c.resources, common.resources);
    var securityContext := Prefer(c.securityContext, common.securityContext);
    var podAnnotations := Prefer(c.podAnnotations, common.podAnnotations);
    var podLabels := Prefer(c.podLabels, common.podLabels);
    var volumes := Prefer(c.volumes, common.volumes);
    var affinity := Prefer(c.affinity, common.affinity);
    var volumeMounts := Prefer(c.volumeMounts, common.volumeMounts);
    var imagePullSecrets := Prefer(c.imagePullSecrets, common.imagePullSecrets);
    var tolerations := Prefer(c.tolerations, common.tolerations);
    var enrollment := Prefer(config.enrollment, s.enrollment);
    var own := s.own.(ingress := o.ingress, sans := o.sans, endpoints := o.endpoints, env := o.env);
    own := own.(command := o.command, args := o.args);
    common := Common(replicas, storage, resources, securityContext, podAnnotations, podLabels, volumes, affinity,
                     volumeMounts, imagePullSecrets, tolerations);
    s := s.(common := common, enrollment := enrollment, own := own);
    spec := RouterSpec(s);
    TwoLayers(Layer(config.common, config.enrollment), GroupLayer(g));
  }

  method BuildBatcherSpec(g: GroupSpec, config: Component) returns (spec: BatcherSpec)
    ensures spec == BatcherSpec(Target(g, config), config.instanceID, NO_CLAIM)
  {
    var bootstrapMode := Default(g.bootstrapMode, "configure");
    var partyID := g.partyID;
    var image := Default(g.image, "hyperledger/fabric-x-orderer");
    var imageTag := Default(g.imageTag, "0.0.19");
    var s := Shared(bootstrapMode, g.mspID, partyID, image, imageTag, g.genesis, ZERO_COMMON, g.enrollment, ZERO_OWN);
    if g.common.Some? {
      var c := g.common.value;
      s := s.(common := Common(c.replicas, c.storage, c.resources, c.securityContext, c.podAnnotations, c.podLabels,
                               c.volumes, c.affinity, c.volumeMounts, c.imagePullSecrets, c.tolerations));
    }
    var c, o, common := config.common, config.own, s.common;
    var replicas := common.replicas;
    if c.replicas != 0 {
      replicas := c.replicas;
    }
    var storage := Prefer(c.storage, common.storage);
    var resources := Prefer(c.resources, common.resources);
    var securityContext := Prefer(c.securityContext, common.securityContext);
    var podAnnotations := Prefer(c.podAnnotations, common.podAnnotations);
    var podLabels := Prefer(c.podLabels, common.podLabels);
    var volumes := Prefer(c.volumes, common.volumes);
    var affinity := Prefer(c.affinity, common.affinity);
    var volumeMounts := Prefer(c.volumeMounts, common.volumeMounts);
    var imagePullSecrets := Prefer(c.imagePullSecrets, common.imagePullSecrets);
    var tolerations := Prefer(c.tolerations, common.tolerations);
    var enrollment := Prefer(config.enrollment, s.enrollment);
    var own := s.own.(ingress := o.ingress, sans := o.sans, endpoints := o.endpoints, env := o.env);
    own := own.(command := o.command, args := o.args);
    common := Common(replicas, storage, resources, securityContext, podAnnotations, podLabels, volumes, affinity,
                     volumeMounts, imagePullSecrets, tolerations);
    s := s.(common := common, enrollment := enrollment, own := own);
    spec := BatcherSpec(s, config.instanceID, NO_CLAIM);
    TwoLayers(Layer(config.common, config.enrollment), GroupLayer(g));
  }

  /** The four builders on one group and configuration: they agree on every shared
      field, and that is the component over Common over zero. */
  method BuildersAgree(g: GroupSpec, config: Component)
    returns (consenter: ConsenterSpec, assembler: AssemblerSpec, router: RouterSpec, batcher: BatcherSpec)
    ensures consenter.shared == assembler.shared == router.shared == batcher.shared
    ensures Layer(consenter.shared.common, consenter.shared.enrollment) ==
            MergeAll([Layer(config.common, config.enrollment), GroupLayer(g), UNSET])
    ensures consenter.shared.own == config.own && consenter.consenterID == batcher.shardID == config.instanceID
  {
    consenter := BuildConsenterSpecFromInstance(g, config);
    assembler := BuildAssemblerSpec(g, config);
    router := BuildRouterSpec(g, config);
    batcher := BuildBatcherSpec(g, config);
    var own, group := Layer(config.common, config.enrollment), GroupLayer(g);
    MergeAllSplits([own, group], [UNSET]);
    assert [own, group] + [UNSET] == [own, group, UNSET] && [UNSET][1..] == [];
    MergeMonoid(MergeAll([own, group]), UNSET, UNSET);
  }

  lemma TwoLayers(a: Layer, b: Layer)
    ensures MergeAll([a, b]) == Merge(a, b)
  {
    assert [a, b][1..] == [b] && [b][1..] == [];
    assert MergeAll([b]) == Merge(b, UNSET);
    MergeMonoid(b, UNSET, UNSET);
  }
}
