/** Component configuration: the parts of RuntimeConfig (pkg/apis/common/types.go) that decide
    which objects are built and how they refer to each other. */
module Config {
  import opened Text
  import opened Names
  import opened ServicePorts

  datatype ConfigMount = ConfigMount(name: string, volumeName: string, mountPath: string,
                                     subPath: Option<string>, readOnly: Option<bool>, items: seq<string>)

  datatype SecretMount = SecretMount(secretName: string, volumeName: string, mountPath: string,
                                     readOnly: Option<bool>, items: seq<string>)

  datatype Storage = Storage(enabled: bool, hasSize: bool, claimName: string, mountPath: string,
                             dataSubpath: Option<string>)

  datatype Image = Image(repository: string, tag: string)

  datatype ServicePart = ServicePart(serviceType: Option<string>, ports: seq<PortSpec>)

  datatype RuntimeConfig = RuntimeConfig(
    replicas: Option<int>, image: Option<Image>, ports: seq<PortSpec>, initContainer: bool,
    storage: Option<Storage>, configMounts: seq<ConfigMount>, secretMounts: seq<SecretMount>,
    configFiles: map<string, string>, service: Option<ServicePart>, account: Option<ServiceAccount>)

  /** The recorded SHA-256 of a ConfigMap's data: injective, so the data stands for it. */
  datatype ConfigHash = ConfigHash(data: map<string, string>)

  /** verifyParameters for the one workload kind there is, StatefulSet. */
  predicate Verified(cfg: RuntimeConfig) {
    && cfg.replicas.Some?
    && cfg.image.Some? && !(cfg.image.value.repository == "" && cfg.image.value.tag == "")
    && cfg.ports != []
    && cfg.storage.Some? && cfg.storage.value.enabled
    && cfg.storage.value.hasSize && cfg.storage.value.mountPath != ""
  }

  /** The raw properties of a component after unmarshalling. */
  datatype Properties = NoProperties | Malformed(text: string) | Parsed(config: RuntimeConfig)

  datatype Component = Component(name: string, apiVersion: string, kind: string, properties: Properties)

  datatype Spec = Spec(components: seq<Component>, suspend: Option<bool>)

  predicate WantsSuspend(spec: Spec) {
    spec.suspend == Some(true)
  }

  /** ShouldBuildClientService; the type "None" stands for a headless service. */
  predicate BuildsClientService(service: Option<ServicePart>) {
    service.Some? && service.value.ports != [] && service.value.serviceType != Some("None")
  }

  /** Where an error text comes from: the fixed part of the text. */
  datatype Origin =
    | EmptyComponentName | DuplicateComponentName
    | BuilderError | UnmarshalError | UnnamedObject
    | ServiceLookup | OwnerReference | ApplyMetadata | ApplyAnswer
    | HealthLookup | SpecMissing
    | RequestFailed | ObjectNotFound | Forbidden | GaveUp | ListFailed | ClaimDeletion

  /** An error: the fixed and the variable part of its text, and whether it is a conflict. */
  datatype Error = Error(origin: Origin, text: string, conflict: bool)

  function Prefix(o: Origin): string {
    match o
    case EmptyComponentName => "component name cannot be empty in spec"
    case DuplicateComponentName => "duplicate component name found in spec: "
    case BuilderError => "builder strategy failed for component "
    case UnmarshalError => "failed to unmarshal properties for component "
    case UnnamedObject => "builder returned object without name or namespace for component "
    case ServiceLookup => "failed to get existing service "
    case OwnerReference => "Failed to set OwnerReference on "
    case ApplyMetadata => "object is missing essential GVK or Name/Namespace for apply "
    case ApplyAnswer => ""
    case HealthLookup => "failed to get resource "
    case SpecMissing => "component spec not found for "
    case RequestFailed => ""
    case ObjectNotFound => "not found "
    case Forbidden => "forbidden "
    case GaveUp => "failed after 3 attempts"
    case ListFailed => ""
    case ClaimDeletion => ""
  }

  function Render(e: Error): string {
    Prefix(e.origin) + e.text
  }
}
