/** Configuration shared by the component kinds.  Kubernetes sub-documents that
    the controllers only copy (storage, affinity, SANs, ...) are opaque text. */
module Components {
  import opened Prelude

  type Json = string

  datatype EnvVar = EnvVar(name: string, val: string)

  /** api/v1alpha1 CommonComponentConfig. */
  datatype Common = Common(
    replicas: int,
    storage: Option<Json>,
    resources: Option<Json>,
    securityContext: Option<Json>,
    podAnnotations: Option<Json>,
    podLabels: Option<Json>,
    volumes: Option<Json>,
    affinity: Option<Json>,
    volumeMounts: Option<Json>,
    imagePullSecrets: Option<Json>,
    tolerations: Option<Json>)

  const ZERO_COMMON := Common(0, None, None, None, None, None, None, None, None, None, None)

  /** The part of a component configuration that is not inherited. */
  datatype Own = Own(
    ingress: Option<Json>,
    sans: Option<Json>,
    endpoints: seq<string>,
    env: seq<EnvVar>,
    command: seq<string>,
    args: seq<string>)

  const ZERO_OWN := Own(None, None, [], [], [], [])

  /** api/v1alpha1 ComponentConfig, BatcherInstance, ConsenterInstance and
      ValidatorComponentConfig; `instanceID` is the shard or consenter number. */
  datatype Component = Component(
    common: Common,
    own: Own,
    enrollment: Option<Json>,
    postgresql: Option<Json>,
    instanceID: int)

  datatype GenesisRef = GenesisRef(secretName: string, secretKey: string, secretNamespace: string)

  function OrElse<T>(first: Option<T>, second: Option<T>): Option<T> {
    if first.Some? then first else second
  }

  function NonEmpty(text: string, default: string): string {
    if text == "" then default else text
  }
}
