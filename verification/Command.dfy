/** The fixed command vocabulary: a structured request, the argv and stdin it is
    rendered to for the local Docker CLI, and the name patterns that guard it.

    A Go string is a byte sequence; here every character stands for one byte. */
module Command {
  import opened Basics
  import opened Text
  import opened Addressing

  const MAX_COMPOSE_BYTES: nat := 0x10_0000
  const MAX_CONFIG_BYTES: nat := 0x1_0000

  datatype Operation =
    | NodeAvailability | ServiceRestart | ServiceRollback | ServiceScale | ServiceLogs
    | StackConfig | StackDeploy | StackRemove
    | SecretCreate | SecretList | SecretRemove | ConfigCreate | ConfigList
    | NodeRole | NodeLabelAdd | NodeLabelRemove | NodeRemove
    | ServiceImage | ServiceLimits | ServiceRemove
    | NetworkCreate | NetworkRemove | NetworkPrune
    | VolumeCreate | VolumeRemove | VolumePrune
    | ConfigRemove
    | ImagePull | ImageRemove | ImagePrune
    | ContainerStart | ContainerStop | ContainerRestart | ContainerRemove | ContainerPrune
    | BuilderPrune | SwarmTokenRotate | SwarmUpdate
    | Unsupported(name: string)

  datatype Request = Request(
    operation: Operation,
    nameonly all: bool := false,
    nameonly attachable: bool := false,
    nameonly availability: string := "",
    nameonly cpuLimit: string := "",
    nameonly driver: string := "",
    nameonly encrypted: bool := false,
    nameonly gateway: string := "",
    nameonly image: string := "",
    nameonly ingress: bool := false,
    nameonly isolated: bool := false,
    nameonly key: string := "",
    nameonly limit: nat := 0,
    nameonly memoryLimit: string := "",
    nameonly role: string := "",
    nameonly value: string := "",
    nameonly compose: string := "",
    nameonly config: string := "",
    nameonly name: string := "",
    nameonly replicas: nat := 0,
    nameonly resolveImageChanged: bool := false,
    nameonly secret: string := "",
    nameonly serviceId: string := "",
    nameonly subnet: string := "",
    nameonly tail: nat := 0,
    nameonly withRegistryAuth: bool := false)

  datatype Invocation = Invocation(args: seq<string>, input: string)

  // ----- Patterns -----

  predicate Reference(s: string) {
    Word(s, Alphanumeric, c => Alphanumeric(c) || c in "._:-", 127)
  }

  predicate StackName(s: string) {
    Word(s, LowerOrDigit, c => LowerOrDigit(c) || c in "_-", 62)
  }

  predicate ResourceName(s: string) {
    Word(s, Alphanumeric, c => Alphanumeric(c) || c in "_.-", 62)
  }

  predicate LabelKey(s: string) {
    Word(s, Alphanumeric, c => Alphanumeric(c) || c in "_./-", 62)
  }

  predicate LabelValue(s: string) {
    Word(s, Alphanumeric, c => Alphanumeric(c) || c in "_.:/@ -", 127)
  }

  predicate CpuLimit(s: string) {
    var cut := Cut(s, '.');
    (cut.before == "0" || Word(cut.before, c => '1' <= c <= '9', Digit, 1)) &&
    (cut.found ==> 1 <= |cut.after| <= 3 && AllOf(cut.after, Digit))
  }

  predicate MemoryLimit(s: string) {
    2 <= |s| && s[|s| - 1] in "MG" && Word(s[..|s| - 1], c => '1' <= c <= '9', Digit, 5)
  }

  /** The first segment may hold the extra character of a registry port. */
  predicate PathSegment(s: string, inner: char -> bool) {
    s != "" && LowerOrDigit(s[0]) && LowerOrDigit(s[|s| - 1]) && AllOf(s, inner)
  }

  predicate PlainSegment(s: string) {
    PathSegment(s, c => LowerOrDigit(c) || c in "._-")
  }

  predicate FirstSegment(s: string) {
    PathSegment(s, c => LowerOrDigit(c) || c in "._:-")
  }

  predicate ImagePath(s: string)
    decreases |s|, 1
  {
    PlainSegment(s) || exists k :: 0 < k < |s| && PathAt(s, k)
  }

  /** A segment ends at the slash at `k`, and a path follows. */
  predicate PathAt(s: string, k: nat)
    requires k < |s|
    decreases |s|, 0
  {
    s[k] == '/' && PlainSegment(s[..k]) && ImagePath(s[k + 1..])
  }

  predicate ImageName(s: string) {
    FirstSegment(s) || exists k :: 0 < k < |s| && NameAt(s, k)
  }

  predicate NameAt(s: string, k: nat)
    requires k < |s|
  {
    s[k] == '/' && FirstSegment(s[..k]) && ImagePath(s[k + 1..])
  }

  predicate ImageTag(s: string) {
    s == "" || (s[0] == ':' && Word(s[1..], Alphanumeric, c => Alphanumeric(c) || c in "._-", 127))
  }

  predicate ImageDigest(s: string) {
    s == "" || (HasPrefix(s, "@sha256:") && |s| == 72 && AllOf(s[8..], Hex))
  }

  predicate ImageRef(s: string) {
    exists i :: 0 <= i <= |s| && DigestAt(s, i)
  }

  predicate DigestAt(s: string, i: nat)
    requires i <= |s|
  {
    ImageDigest(s[i..]) && TaggedImage(s[..i])
  }

  predicate TaggedImage(s: string) {
    exists i :: 0 <= i <= |s| && TagAt(s, i)
  }

  predicate TagAt(s: string, i: nat)
    requires i <= |s|
  {
    ImageTag(s[i..]) && ImageName(s[..i])
  }

  predicate VersionSuffix(s: string) {
    HasPrefix(s, "_v") && Word(s[2..], c => '1' <= c <= '9', Digit, |s|)
  }

  /** `prefix`, a word of at most `limit` + 1 characters, and a version. */
  predicate Versioned(s: string, prefix: string, limit: nat) {
    HasPrefix(s, prefix) && exists k :: |prefix| <= k <= |s| && VersionedAt(s, |prefix|, limit, k)
  }

  predicate VersionedAt(s: string, start: nat, limit: nat, k: nat)
    requires start <= k <= |s|
  {
    VersionSuffix(s[k..]) && Word(s[start..k], LowerOrDigit, c => LowerOrDigit(c) || c == '_', limit)
  }

  predicate FixedVersioned(s: string, prefix: string) {
    HasPrefix(s, prefix) && VersionSuffix(s[|prefix|..])
  }

  predicate ConnectionSecret(s: string, middle: string) {
    exists k :: 0 <= k <= |s| && ConnectionAt(s, middle, k)
  }

  predicate ConnectionAt(s: string, middle: string, k: nat)
    requires k <= |s|
  {
    FixedVersioned(s[k..], middle) && Word(s[..k], LowerOrDigit, c => LowerOrDigit(c) || c in "_-", 80)
  }

  predicate ManagedSecret(s: string) {
    || (HasPrefix(s, "swarmops_") && Word(s[9..], LowerOrDigit, c => LowerOrDigit(c) || c == '_', 54))
    || Versioned(s, "traefik_dns_", 72)
    || FixedVersioned(s, "traefik_dashboard_auth")
    || ConnectionSecret(s, "_postgres_uri")
    || ConnectionSecret(s, "_mongo_uri")
    || ConnectionSecret(s, "_redis_uri")
  }

  predicate RemovableDnsSecret(s: string) {
    Versioned(s, "traefik_dns_cloudflare_", 62) || Versioned(s, "traefik_dns_arvan_", 62)
  }

  predicate HexTail(s: string, prefix: string, count: nat) {
    HasPrefix(s, prefix) && |s| == |prefix| + count && AllOf(s[|prefix|..], Hex)
  }

  predicate ManagedConfig(s: string) {
    || HexTail(s, "swarmops_traefik_static_v1_", 16)
    || FixedVersioned(s, "nim_traefik_dynamic")
    || FixedVersioned(s, "swarmops_prometheus_config")
    || FixedVersioned(s, "swarmops_prometheus_rules")
    || FixedVersioned(s, "swarmops_alertmanager_config")
    || FixedVersioned(s, "swarmops_jaeger_config")
    || FixedVersioned(s, "swarmops_fluentd_aggregator")
    || FixedVersioned(s, "swarmops_fluentd_forwarder")
    || HexTail(s, "swarmops_postgres_app_bootstrap_", 12)
    || HexTail(s, "swarmops_mongo_app_bootstrap_", 12)
    || HexTail(s, "swarmops_redis_app_bootstrap_", 12)
  }

  predicate SecretValue(s: string) {
    16 <= |s| <= 512 && AllOf(s, c => Alphanumeric(c) || c in "+/=_.:@?&-")
  }

  /** `operator:` and a bcrypt hash; bcrypt itself accepts costs 4 to 31. */
  predicate DashboardAuth(s: string) {
    && |s| == 69 && HasPrefix(s, "operator:$2") && s[11] in "aby" && s[12] == '$'
    && Digit(s[13]) && Digit(s[14]) && s[15] == '$'
    && AllOf(s[16..], c => Alphanumeric(c) || c in "./")
    && 4 <= Value(s[13..15]) <= 31
  }

  predicate ValidSecret(name: string, secret: string) {
    if HasPrefix(name, "traefik_dashboard_auth_v") then DashboardAuth(secret) else SecretValue(secret)
  }

  predicate ValidConfig(config: string) {
    config != "" && |config| <= MAX_CONFIG_BYTES && '\0' !in config
  }

  predicate ValidCompose(compose: string) {
    compose != "" && |compose| <= MAX_COMPOSE_BYTES
  }

  // ----- Rendering: command.go:270-360 and resources.go:55-196 -----

  function DeployFlags(r: Request): seq<string> {
    (if r.resolveImageChanged then ["--resolve-image=changed"] else []) +
    (if r.withRegistryAuth then ["--with-registry-auth"] else [])
  }

  function NetworkFlags(attachable: bool, isolated: bool, encrypted: bool): seq<string> {
    (if attachable then ["--attachable"] else []) +
    ((if isolated then ["--internal"] else []) +
     (if encrypted then ["--opt", "encrypted=true"] else []))
  }

  /** The ingress network is a separate, singleton shape. */
  predicate ValidNetwork(r: Request) {
    && ResourceName(r.name) && r.driver in ["overlay", "bridge"]
    && (if r.ingress then
          && r.driver == "overlay" && r.name == "ingress"
          && !r.attachable && !r.isolated && !r.encrypted
          && ValidIngress(r.subnet, r.gateway)
        else r.encrypted ==> r.driver == "overlay")
  }

  /** What the agent checks before it renders a request. */
  predicate Valid(r: Request) {
    match r.operation
    case NodeAvailability => r.availability in ["active", "pause", "drain"] && Reference(r.serviceId)
    case ServiceRestart | ServiceRollback | NodeRemove | ServiceRemove
      | ContainerStart | ContainerStop | ContainerRestart | ContainerRemove => Reference(r.serviceId)
    case ServiceScale => Reference(r.serviceId) && r.replicas <= 1000
    case ServiceLogs => Reference(r.serviceId) && 1 <= r.tail <= 1000
    case StackConfig => ValidCompose(r.compose)
    case StackDeploy => ValidCompose(r.compose) && StackName(r.name)
    case StackRemove => StackName(r.name)
    case SecretCreate => ManagedSecret(r.name) && ValidSecret(r.name, r.secret)
    case SecretRemove => RemovableDnsSecret(r.name)
    case ConfigCreate => ManagedConfig(r.name) && ValidConfig(r.config)
    case NodeRole => r.role in ["promote", "demote"] && Reference(r.serviceId)
    case NodeLabelAdd => Reference(r.serviceId) && LabelKey(r.key) && LabelValue(r.value)
    case NodeLabelRemove => Reference(r.serviceId) && LabelKey(r.key)
    case ServiceImage => Reference(r.serviceId) && ImageRef(r.image)
    case ServiceLimits => Reference(r.serviceId) && CpuLimit(r.cpuLimit) && MemoryLimit(r.memoryLimit)
    case NetworkCreate => ValidNetwork(r)
    case NetworkRemove | VolumeCreate | VolumeRemove | ConfigRemove => ResourceName(r.name)
    case ImagePull | ImageRemove => ImageRef(r.image)
    case SecretList | ConfigList | NetworkPrune | VolumePrune | ImagePrune | ContainerPrune | BuilderPrune => true
    case SwarmTokenRotate => r.role in ["worker", "manager"]
    case SwarmUpdate => 1 <= r.limit <= 1000
    case Unsupported(_) => false
  }

  function NetworkArgs(r: Request): seq<string> {
    if r.ingress then
      ["network", "create", "--driver", "overlay"] +
      ["--ingress", "--subnet", r.subnet, "--gateway", r.gateway, "ingress"]
    else
      ["network", "create", "--driver", r.driver] +
      (NetworkFlags(r.attachable, r.isolated, r.encrypted) + [r.name])
  }

  /** The argv of a request, without the program name. */
  function Args(r: Request): seq<string> {
    match r.operation
    case NodeAvailability => ["node", "update", "--availability", r.availability, r.serviceId]
    case ServiceRestart => ["service", "update", "--force", r.serviceId]
    case ServiceRollback => ["service", "rollback", r.serviceId]
    case ServiceScale => ["service", "scale", r.serviceId + ['='] + Decimal(r.replicas)]
    case ServiceLogs => ["service", "logs", "--raw", "--timestamps", "--tail", Decimal(r.tail), r.serviceId]
    case StackConfig => ["stack", "config", "--compose-file", "-"]
    case StackDeploy => ["stack", "deploy", "--detach=false"] + (DeployFlags(r) + ["--compose-file", "-", r.name])
    case StackRemove => ["stack", "rm", r.name]
    case SecretCreate => ["secret", "create", r.name, "-"]
    case SecretList => ["secret", "ls", "--format", "{{.Name}}"]
    case SecretRemove => ["secret", "rm", r.name]
    case ConfigCreate => ["config", "create", r.name, "-"]
    case ConfigList => ["config", "ls", "--format", "{{.Name}}"]
    case NodeRole => ["node", r.role, r.serviceId]
    case NodeLabelAdd => ["node", "update", "--label-add", r.key + ['='] + r.value, r.serviceId]
    case NodeLabelRemove => ["node", "update", "--label-rm", r.key, r.serviceId]
    case NodeRemove => ["node", "rm", "--force", r.serviceId]
    case ServiceImage => ["service", "update", "--image", r.image, r.serviceId]
    case ServiceLimits =>
      ["service", "update", "--limit-cpu", r.cpuLimit, "--limit-memory", r.memoryLimit, r.serviceId]
    case ServiceRemove => ["service", "rm", r.serviceId]
    case NetworkCreate => NetworkArgs(r)
    case NetworkRemove => ["network", "rm", r.name]
    case NetworkPrune => ["network", "prune", "--force"]
    case VolumeCreate => ["volume", "create", "--driver", "local", r.name]
    case VolumeRemove => ["volume", "rm", r.name]
    case VolumePrune => ["volume", "prune", "--force"]
    case ConfigRemove => ["config", "rm", r.name]
    case ImagePull => ["image", "pull", r.image]
    case ImageRemove => ["image", "rm", r.image]
    case ImagePrune => ["image", "prune", "--force"] + (if r.all then ["--all"] else [])
    case ContainerStart => ["container", "start", r.serviceId]
    case ContainerStop => ["container", "stop", r.serviceId]
    case ContainerRestart => ["container", "restart", r.serviceId]
    case ContainerRemove => ["container", "rm", "--force", r.serviceId]
    case ContainerPrune => ["container", "prune", "--force"]
    case BuilderPrune => ["builder", "prune", "--force"]
    case SwarmTokenRotate => ["swarm", "join-token", "--rotate", "--quiet", r.role]
    case SwarmUpdate => ["swarm", "update", "--task-history-limit", Decimal(r.limit)]
    case Unsupported(_) => []
  }

  /** The standard input that goes with it. */
  function Input(r: Request): string {
    match r.operation
    case StackConfig | StackDeploy => r.compose
    case SecretCreate => r.secret
    case ConfigCreate => r.config
    case _ => ""
  }

  function DockerArgs(r: Request): Result<Invocation> {
    if Valid(r) then Ok(Invocation(Args(r), Input(r))) else Err("invalid operation")
  }

  function Keep(used: bool, value: string): string {
    if used then value else ""
  }

  function Count(used: bool, value: nat): nat {
    if used then value else 0
  }

  predicate UsesService(op: Operation) {
    || op.NodeAvailability? || op.ServiceRestart? || op.ServiceRollback? || op.ServiceScale? || op.ServiceLogs?
    || op.NodeRole? || op.NodeLabelAdd? || op.NodeLabelRemove? || op.NodeRemove?
    || op.ServiceImage? || op.ServiceLimits? || op.ServiceRemove?
    || op.ContainerStart? || op.ContainerStop? || op.ContainerRestart? || op.ContainerRemove?
  }

  predicate UsesName(op: Operation) {
    || op.StackDeploy? || op.StackRemove? || op.SecretCreate? || op.SecretRemove? || op.ConfigCreate?
    || op.NetworkCreate? || op.NetworkRemove? || op.VolumeCreate? || op.VolumeRemove? || op.ConfigRemove?
  }

  /** The request with every field its operation does not use set to zero; the
      ingress network and the ordinary network use different fields. */
  function Relevant(r: Request): Request {
    var op := r.operation;
    var ingress := op.NetworkCreate? && r.ingress;
    var ordinary := op.NetworkCreate? && !r.ingress;
    Request(op,
            all := op.ImagePrune? && r.all,
            attachable := ordinary && r.attachable,
            availability := Keep(op.NodeAvailability?, r.availability),
            cpuLimit := Keep(op.ServiceLimits?, r.cpuLimit),
            driver := Keep(op.NetworkCreate?, r.driver),
            encrypted := ordinary && r.encrypted,
            gateway := Keep(ingress, r.gateway),
            image := Keep(op.ServiceImage? || op.ImagePull? || op.ImageRemove?, r.image),
            ingress := ingress,
            isolated := ordinary && r.isolated,
            key := Keep(op.NodeLabelAdd? || op.NodeLabelRemove?, r.key),
            limit := Count(op.SwarmUpdate?, r.limit),
            memoryLimit := Keep(op.ServiceLimits?, r.memoryLimit),
            role := Keep(op.NodeRole? || op.SwarmTokenRotate?, r.role),
            value := Keep(op.NodeLabelAdd?, r.value),
            compose := Keep(op.StackConfig? || op.StackDeploy?, r.compose),
            config := Keep(op.ConfigCreate?, r.config),
            name := Keep(UsesName(op), r.name),
            replicas := Count(op.ServiceScale?, r.replicas),
            resolveImageChanged := op.StackDeploy? && r.resolveImageChanged,
            secret := Keep(op.SecretCreate?, r.secret),
            serviceId := Keep(UsesService(op), r.serviceId),
            subnet := Keep(ingress, r.subnet),
            tail := Count(op.ServiceLogs?, r.tail),
            withRegistryAuth := op.StackDeploy? && r.withRegistryAuth)
  }
}
