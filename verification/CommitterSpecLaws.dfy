/** What reaches a Committer's children, field by field: every field of the
    Committer's specification moves exactly the child fields named here, and from
    an empty specification the children start with the values below.  Together
    these laws determine the children's specifications. */
module CommitterSpecLaws {
  import opened Prelude
  import opened Components
  import opened CommitterSpecs

  /** The children of an empty Committer. */
  lemma FromNothing(role: Role)
    ensures Target(role, EMPTY_COMMITTER) == ChildSpec(
      "", "", 1, "hyperledger/fabric-x-committer", "0.1.5",
      Common(1, None, None, None, None, None, None, None, None, None, None),
      Own(None, None, [], [], [], []), None, None,
      if role == Sidecar then Some(GenesisRef("", "", "")) else None, [], "", 0, [], [])
  {
  }

  /** What all children take over, and what stands in for it. */
  lemma SharedLaws(role: Role, c: CommitterSpec, text: string, common: Option<Common>)
    ensures Target(role, c.(bootstrapMode := text)) == Target(role, c).(bootstrapMode := text)
    ensures Target(role, c.(mspID := text)) == Target(role, c).(mspID := text)
    ensures text != "" ==> Target(role, c.(image := text)) == Target(role, c).(image := text)
    ensures Target(role, c.(image := "")) == Target(role, c).(image := "hyperledger/fabric-x-committer")
    ensures text != "" ==> Target(role, c.(imageTag := text)) == Target(role, c).(imageTag := text)
    ensures Target(role, c.(imageTag := "")) == Target(role, c).(imageTag := "0.1.5")
    ensures common.Some? ==> Target(role, c.(common := common)) == Target(role, c).(common := common.value)
    ensures Target(role, c.(common := None)) ==
            Target(role, c).(common := Common(1, None, None, None, None, None, None, None, None, None, None))
  {
  }

  /** The enrollment serves the components that have none of their own. */
  lemma EnrollmentLaws(c: CommitterSpec, x: Option<Json>)
    ensures Target(Coordinator, c.(enrollment := x)) ==
            if c.coordinator.Some? && c.coordinator.value.enrollment.Some? then Target(Coordinator, c)
            else Target(Coordinator, c).(enrollment := x)
    ensures Target(Sidecar, c.(enrollment := x)) ==
            if c.sidecar.Some? && c.sidecar.value.enrollment.Some? then Target(Sidecar, c)
            else Target(Sidecar, c).(enrollment := x)
    ensures Target(Validator, c.(enrollment := x)) ==
            if c.validator.Some? && c.validator.value.enrollment.Some? then Target(Validator, c)
            else Target(Validator, c).(enrollment := x)
    ensures Target(Verifier, c.(enrollment := x)) ==
            if c.verifierService.Some? && c.verifierService.value.enrollment.Some? then Target(Verifier, c)
            else Target(Verifier, c).(enrollment := x)
    ensures Target(QueryService, c.(enrollment := x)) ==
            if c.queryService.Some? && c.queryService.value.enrollment.Some? then Target(QueryService, c)
            else Target(QueryService, c).(enrollment := x)
  {
  }

  /** Genesis, orderer endpoints and the committer's address go to the sidecar alone. */
  lemma SidecarLaws(role: Role, c: CommitterSpec, genesis: GenesisRef, endpoints: seq<string>, host: string, port: int)
    ensures Target(role, c.(genesis := genesis)) ==
            if role == Sidecar then Target(role, c).(genesis := Some(genesis)) else Target(role, c)
    ensures Target(role, c.(ordererEndpoints := endpoints)) ==
            if role == Sidecar && (c.sidecar.None? || c.sidecar.value.own.endpoints == [])
            then Target(role, c).(ordererEndpoints := endpoints) else Target(role, c)
    ensures Target(role, c.(committerHost := host)) ==
            if role == Sidecar then Target(role, c).(committerHost := host) else Target(role, c)
    ensures Target(role, c.(committerPort := port)) ==
            if role == Sidecar then Target(role, c).(committerPort := port) else Target(role, c)
  {
  }

  /** The verifiers' and validators' endpoints go to a configured coordinator alone,
      each to the field of its kind. */
  lemma CoordinatorLaws(role: Role, c: CommitterSpec, endpoints: seq<string>)
    ensures Target(role, c.(coordinatorVerifierEndpoints := endpoints)) ==
            if role == Coordinator && c.coordinator.Some? then Target(role, c).(verifierEndpoints := endpoints)
            else Target(role, c)
    ensures Target(role, c.(coordinatorValidatorCommitterEndpoints := endpoints)) ==
            if role == Coordinator && c.coordinator.Some?
            then Target(role, c).(validatorCommitterEndpoints := endpoints)
            else Target(role, c)
  {
  }

  /** What configuring a child changes in it, apart from its role's own fields. */
  function Configured(s: ChildSpec, config: Component, fallback: Option<Json>): ChildSpec {
    s.(own := Own(config.own.ingress, config.own.sans, config.own.endpoints, config.own.env, config.own.command,
                  config.own.args),
       enrollment := if config.enrollment.Some? then config.enrollment else fallback)
  }

  /** Each configuration moves its own child: the part it owns, the enrollment, and
      the database, the endpoints or the orderers of the kinds that have them. */
  lemma ConfigurationLaws(c: CommitterSpec, x: Component)
    ensures Target(Coordinator, c.(coordinator := Some(x))) ==
            Configured(Target(Coordinator, c), x, c.enrollment)
            .(verifierEndpoints := c.coordinatorVerifierEndpoints,
              validatorCommitterEndpoints := c.coordinatorValidatorCommitterEndpoints)
    ensures Target(Sidecar, c.(sidecar := Some(x))) ==
            Configured(Target(Sidecar, c), x, c.enrollment)
            .(ordererEndpoints := if x.own.endpoints != [] then x.own.endpoints else c.ordererEndpoints)
    ensures Target(Validator, c.(validator := Some(x))) ==
            Configured(Target(Validator, c), x, c.enrollment).(postgresql := x.postgresql)
    ensures Target(Verifier, c.(verifierService := Some(x))) == Configured(Target(Verifier, c), x, c.enrollment)
    ensures Target(QueryService, c.(queryService := Some(x))) ==
            Configured(Target(QueryService, c), x, c.enrollment).(postgresql := x.postgresql)
  {
  }

  /** A configuration moves no other child. */
  lemma ForeignConfiguration(role: Role, c: CommitterSpec, x: Option<Component>)
    ensures role != Coordinator ==> Target(role, c.(coordinator := x)) == Target(role, c)
    ensures role != Sidecar ==> Target(role, c.(sidecar := x)) == Target(role, c)
    ensures role != Validator ==> Target(role, c.(validator := x)) == Target(role, c)
    ensures role != Verifier ==> Target(role, c.(verifierService := x)) == Target(role, c)
    ensures role != QueryService ==> Target(role, c.(queryService := x)) == Target(role, c)
  {
  }
}
