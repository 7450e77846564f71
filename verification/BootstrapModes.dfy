/** What becomes of a group's bootstrap mode on its way to the children. */
module BootstrapModes {
  import Components
  import CommitterSpecs
  import OrdererSpecs

  datatype Treatment = Configure | Deploy | Reject

  /** The switch of the sidecar and of the assembler.  The default for an empty mode
      is computed before it but never used. */
  function TreatmentOf(bootstrapMode: string): Treatment {
    if bootstrapMode == "configure" then Configure
    else if bootstrapMode == "deploy" then Deploy
    else Reject
  }

  /** A Committer passes its mode on as it is, so its children reject exactly what
      is not spelled out; an OrdererGroup fills in the default, so an omitted mode
      configures its children. */
  lemma ChildModes(c: CommitterSpecs.CommitterSpec, role: CommitterSpecs.Role,
                   g: OrdererSpecs.GroupSpec, config: Components.Component)
    ensures TreatmentOf(CommitterSpecs.Target(role, c).bootstrapMode) == Reject <==>
            c.bootstrapMode !in {"configure", "deploy"}
    ensures TreatmentOf(OrdererSpecs.Target(g, config).bootstrapMode) == Reject <==>
            g.bootstrapMode !in {"", "configure", "deploy"}
    ensures g.bootstrapMode == "" ==> TreatmentOf(OrdererSpecs.Target(g, config).bootstrapMode) == Configure
  {
  }
}
