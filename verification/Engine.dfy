/**
 Engine-side service specs: the part of the Docker API types the repository reads or
 writes.  Everything else a record holds is one `Unmodelled` bag, so that what an
 update keeps and what it drops stays visible.  The wire format omits empty lists,
 hence plain sequences.
 */
module Engine {
  import opened Basics
  import opened Spec

  type Unmodelled = map<string, string>

  datatype HealthConfig = HealthConfig(
    test: seq<string>, interval: int, timeout: int, retries: int, startPeriod: int, other: Unmodelled)

  datatype Mount = Mount(kind: string, source: string, target: string, readOnly: bool, other: Unmodelled)

  /** other holds the owner. */
  datatype FileTarget = FileTarget(name: string, mode: nat, other: Unmodelled)

  datatype ConfigReference = ConfigReference(
    configName: string, configID: string, file: Option<FileTarget>, other: Unmodelled)

  datatype SecretReference = SecretReference(secretName: string, secretID: string, file: Option<FileTarget>)

  datatype ContainerSpec = ContainerSpec(
    image: string,
    env: seq<string>,
    healthcheck: Option<HealthConfig>,
    command: seq<string>,
    args: seq<string>,
    hostname: string,
    user: string,
    capabilityAdd: seq<string>,
    stopGracePeriod: Option<int>,
    ulimits: seq<UlimitSpec>,
    mounts: seq<Mount>,
    configs: seq<ConfigReference>,
    secrets: seq<SecretReference>,
    other: Unmodelled)

  const EMPTY_CONTAINER := ContainerSpec("", [], None, [], [], "", "", [], None, [], [], [], [], map[])

  datatype RestartPolicy = RestartPolicy(
    condition: string, delay: Option<int>, maxAttempts: Option<nat>, window: Option<int>)

  datatype Limit = Limit(memoryBytes: int, nanoCPUs: int, other: Unmodelled)

  datatype ResourceRequirements = ResourceRequirements(limits: Option<Limit>, reservations: Unmodelled)

  datatype Placement = Placement(constraints: seq<string>, preferences: Unmodelled)

  datatype UpdateConfig = UpdateConfig(parallelism: nat, other: Unmodelled)

  datatype NetworkAttachment = NetworkAttachment(target: string, other: Unmodelled)

  datatype TaskSpec = TaskSpec(
    container: Option<ContainerSpec>,
    restartPolicy: Option<RestartPolicy>,
    resources: Option<ResourceRequirements>,
    placement: Option<Placement>,
    networks: seq<NetworkAttachment>,
    other: Unmodelled)

  /** One pointer per mode, as in the API: nothing stops a record from holding none or several. */
  datatype ServiceMode = ServiceMode(
    replicated: Option<Option<nat>>, global: bool, replicatedJob: Option<Unmodelled>, globalJob: bool)

  datatype PortConfig = PortConfig(
    protocol: string, targetPort: nat, publishedPort: nat, publishMode: string, other: Unmodelled)

  datatype EndpointSpec = EndpointSpec(ports: seq<PortConfig>, resolution: string)

  datatype EngineSpec = EngineSpec(
    name: string,
    labels: map<string, string>,
    task: TaskSpec,
    mode: ServiceMode,
    updateConfig: Option<UpdateConfig>,
    endpoint: Option<EndpointSpec>,
    other: Unmodelled)
}
