/** The specifications a Committer gives its five children. */
module CommitterSpecs {
  import opened Prelude
  import opened Components

  datatype Role = Coordinator | Sidecar | Validator | Verifier | QueryService

  datatype CommitterSpec = CommitterSpec(
    bootstrapMode: string,
    mspID: string,
    image: string,
    imageTag: string,
    common: Option<Common>,
    genesis: GenesisRef,
    sidecar: Option<Component>,
    coordinator: Option<Component>,
    verifierService: Option<Component>,
    validator: Option<Component>,
    queryService: Option<Component>,
    ordererEndpoints: seq<string>,
    committerHost: string,
    committerPort: int,
    coordinatorVerifierEndpoints: seq<string>,
    coordinatorValidatorCommitterEndpoints: seq<string>,
    enrollment: Option<Json>)

  const EMPTY_COMMITTER := CommitterSpec(
    "", "", "", "", None, GenesisRef("", "", ""), None, None, None, None, None, [], "", 0, [], [], None)

  datatype ChildSpec = ChildSpec(
    bootstrapMode: string,
    mspID: string,
    partyID: int,
    image: string,
    imageTag: string,
    common: Common,
    own: Own,
    enrollment: Option<Json>,
    postgresql: Option<Json>,
    genesis: Option<GenesisRef>,
    ordererEndpoints: seq<string>,
    committerHost: string,
    committerPort: int,
    verifierEndpoints: seq<string>,
    validatorCommitterEndpoints: seq<string>)

  function ConfigOf(role: Role, c: CommitterSpec): Option<Component> {
    match role
    case Coordinator => c.coordinator
    case Sidecar => c.sidecar
    case Validator => c.validator
    case Verifier => c.verifierService
    case QueryService => c.queryService
  }

  /** One description of all five: the group-wide Common replaces the defaults
      as a whole (the component's own Common is not consulted), the component's
      enrollment wins over the Committer's, and each role adds its own fields. */
  function Target(role: Role, c: CommitterSpec): ChildSpec {
    var config := ConfigOf(role, c);
    ChildSpec(
      c.bootstrapMode, c.mspID, 1,
      NonEmpty(c.image, "hyperledger/fabric-x-committer"),
      NonEmpty(c.imageTag, "0.1.5"),
      if c.common.Some? then c.common.value else ZERO_COMMON.(replicas := 1),
      if config.Some? then config.value.own else ZERO_OWN,
      OrElse(if config.Some? then config.value.enrollment else None, c.enrollment),
      if role in {Validator, QueryService} && config.Some? then config.value.postgresql else None,
      if role.Sidecar? then Some(c.genesis) else None,
      if role.Sidecar? then OrdererEndpoints(config, c.ordererEndpoints) else [],
      if role.Sidecar? then c.committerHost else "",
      if role.Sidecar? then c.committerPort else 0,
      if role.Coordinator? && config.Some? then c.coordinatorVerifierEndpoints else [],
      if role.Coordinator? && config.Some? then c.coordinatorValidatorCommitterEndpoints else [])
  }

  /** What the five children of a Committer have in common, whatever their roles:
      everything but the part each configuration owns. */
  lemma ChildrenAgree(c: CommitterSpec, role: Role, role': Role)
    ensures var a, b := Target(role, c), Target(role', c);
            (a.bootstrapMode, a.mspID, a.partyID, a.image, a.imageTag, a.common) ==
            (b.bootstrapMode, b.mspID, b.partyID, b.image, b.imageTag, b.common)
    ensures ConfigOf(role, c).None? && ConfigOf(role', c).None? ==>
              Target(role, c).enrollment == Target(role', c).enrollment == c.enrollment
  {
  }

  /** `c` with another Common in the configuration of one role. */
  function WithCommon(role: Role, c: CommitterSpec, common: Common): CommitterSpec
    requires ConfigOf(role, c).Some?
  {
    var config := Some(ConfigOf(role, c).value.(common := common));
    match role
    case Coordinator => c.(coordinator := config)
    case Sidecar => c.(sidecar := config)
    case Validator => c.(validator := config)
    case Verifier => c.(verifierService := config)
    case QueryService => c.(queryService := config)
  }

  /** The Common of a component's own configuration reaches no child, neither its
      own nor another. */
  lemma ComponentCommonIgnored(c: CommitterSpec, role: Role, common: Common, child: Role)
    requires ConfigOf(role, c).Some?
    ensures Target(child, WithCommon(role, c, common)) == Target(child, c)
  {
    var c' := WithCommon(role, c, common);
    if child == role {
      assert ConfigOf(child, c').value == ConfigOf(child, c).value.(common := common);
    } else {
      assert ConfigOf(child, c') == ConfigOf(child, c);
    }
  }

  function OrdererEndpoints(config: Option<Component>, shared: seq<string>): seq<string> {
    if config.Some? && config.value.own.endpoints != [] then config.value.own.endpoints else shared
  }

  /** The prefix common to the five builders: defaults, then Common. */
  method StartSpec(c: CommitterSpec) returns (spec: ChildSpec)
    ensures spec == ChildSpec(
      c.bootstrapMode, c.mspID, 1,
      NonEmpty(c.image, "hyperledger/fabric-x-committer"), NonEmpty(c.imageTag, "0.1.5"),
      if c.common.Some? then c.common.value else ZERO_COMMON.(replicas := 1),
      ZERO_OWN, None, None, None, [], "", 0, [], [])
  {
    var image := c.image;
    if image == "" {
      image := "hyperledger/fabric-x-committer";
    }
    var imageTag := c.imageTag;
    if imageTag == "" {
      imageTag := "0.1.5";
    }
    spec := ChildSpec(c.bootstrapMode, c.mspID, 1, image, imageTag,
                      ZERO_COMMON.(replicas := 1), ZERO_OWN, None, None, None, [], "", 0, [], []);
    if c.common.Some? {
      spec := spec.(common := c.common.value);
    }
  }

  method BuildCoordinatorSpec(c: CommitterSpec) returns (spec: ChildSpec)
    ensures spec == Target(Coordinator, c)
  {
    spec := StartSpec(c);
    if c.coordinator.Some? {
      spec := spec.(own := c.coordinator.value.own, enrollment := c.coordinator.value.enrollment);
      spec := spec.(verifierEndpoints := c.coordinatorVerifierEndpoints);
      spec := spec.(validatorCommitterEndpoints := c.coordinatorValidatorCommitterEndpoints);
    }
    if spec.enrollment.None? && c.enrollment.Some? {
      spec := spec.(enrollment := c.enrollment);
    }
  }

  method BuildSidecarSpec(c: CommitterSpec) returns (spec: ChildSpec)
    ensures spec == Target(Sidecar, c)
  {
    spec := StartSpec(c);
    spec := spec.(genesis := Some(c.genesis));
    if c.sidecar.Some? {
      spec := spec.(own := c.sidecar.value.own, enrollment := c.sidecar.value.enrollment);
    }
    if c.sidecar.Some? && |c.sidecar.value.own.endpoints| > 0 {
      spec := spec.(ordererEndpoints := c.sidecar.value.own.endpoints);
    } else if |c.ordererEndpoints| > 0 {
      spec := spec.(ordererEndpoints := c.ordererEndpoints);
    }
    if c.committerHost != "" {
      spec := spec.(committerHost := c.committerHost);
    }
    if c.committerPort != 0 {
      spec := spec.(committerPort := c.committerPort);
    }
    if spec.enrollment.None? && c.enrollment.Some? {
      spec := spec.(enrollment := c.enrollment);
    }
  }

  method BuildValidatorSpec(c: CommitterSpec) returns (spec: ChildSpec)
    ensures spec == Target(Validator, c)
  {
    spec := StartSpec(c);
    if c.validator.Some? {
      spec := spec.(own := c.validator.value.own, enrollment := c.validator.value.enrollment);
      spec := spec.(postgresql := c.validator.value.postgresql);
    }
    if spec.enrollment.None? && c.enrollment.Some? {
      spec := spec.(enrollment := c.enrollment);
    }
  }

  method BuildVerifierSpec(c: CommitterSpec) returns (spec: ChildSpec)
    ensures spec == Target(Verifier, c)
  {
    spec := StartSpec(c);
    if c.verifierService.Some? {
      spec := spec.(own := c.verifierService.value.own, enrollment := c.verifierService.value.enrollment);
    }
    if spec.enrollment.None? && c.enrollment.Some? {
      spec := spec.(enrollment := c.enrollment);
    }
  }

  method BuildQueryServiceSpec(c: CommitterSpec) returns (spec: ChildSpec)
    ensures spec == Target(QueryService, c)
  {
    spec := StartSpec(c);
    if c.queryService.Some? {
      spec := spec.(own := c.queryService.value.own, enrollment := c.queryService.value.enrollment);
      spec := spec.(postgresql := c.queryService.value.postgresql);
    }
    if spec.enrollment.None? && c.enrollment.Some? {
      spec := spec.(enrollment := c.enrollment);
    }
  }
}
