/** Service specs in the shape both the compose parser and the observer produce (internal/spec/types.go). */
module Spec {
  import opened Basics

  const MANAGED_LABEL := "swarmgate.managed"
  const LABEL_PREFIX := "swarmgate."
  const STACK_LABEL := "swarmgate.stack"
  const NAMESPACE_LABEL := "com.docker.stack.namespace"

  datatype PortSpec = PortSpec(target: nat, published: nat, protocol: string, mode: string)

  datatype UlimitSpec = UlimitSpec(name: string, soft: int, hard: int)

  datatype VolumeMount = VolumeMount(source: string, target: string, readOnly: bool, bind: bool)

  datatype FileRef = FileRef(source: string, target: string, mode: nat)

  datatype HealthcheckSpec = HealthcheckSpec(
    test: Slice<string>, interval: int, timeout: int, retries: int, startPeriod: int)

  datatype RestartPolicySpec = RestartPolicySpec(
    condition: string, delay: int, maxAttempts: nat, window: int)

  datatype ResourcesSpec = ResourcesSpec(memoryBytes: int, nanoCPUs: int)

  datatype PlacementSpec = PlacementSpec(constraints: Slice<string>)

  datatype UpdateConfigSpec = UpdateConfigSpec(parallelism: nat)

  /** Pointer fields are options; durations are nanoseconds. */
  datatype ServiceSpec = ServiceSpec(
    name: string,
    image: string,
    replicas: nat,
    env: Dict,
    labels: Dict,
    deployLabels: Dict,
    networks: Slice<string>,
    ports: Slice<PortSpec>,
    healthcheck: Option<HealthcheckSpec>,
    command: Slice<string>,
    entrypoint: Slice<string>,
    hostname: string,
    capAdd: Slice<string>,
    user: string,
    stopGracePeriod: int,
    ulimits: Slice<UlimitSpec>,
    volumes: Slice<VolumeMount>,
    configs: Slice<FileRef>,
    secrets: Slice<FileRef>,
    mode: string,
    restartPolicy: Option<RestartPolicySpec>,
    resources: Option<ResourcesSpec>,
    placement: Option<PlacementSpec>,
    updateConfig: Option<UpdateConfigSpec>)

  /** A record nobody filled in. */
  const ZERO_SPEC := ServiceSpec("", "", 0, None, None, None, None, None, None, None, None, "", None, "", 0,
                                 None, None, None, None, "", None, None, None, None)

  /** Services by qualified name, on either side of the diff. */
  type Services = map<string, ServiceSpec>

  ghost predicate KeyedByName(services: Services) {
    forall n :: n in services ==> services[n].name == n
  }

  datatype DesiredState = DesiredState(services: Services, configs: map<string, seq<bv8>>)

  function ServiceName(stack: string, service: string): string {
    stack + "_" + service
  }

  function DefaultNetwork(stack: string): string {
    stack + "_default"
  }

  /** An omitted deploy.replicas means 1; an explicit 0 stays 0. */
  function DefaultReplicas(r: Option<nat>): nat {
    if r.None? then 1 else r.value
  }
}
