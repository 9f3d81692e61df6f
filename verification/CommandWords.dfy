/** The words of a rendered command: no field of a request can become an option. */
module CommandWords {
  import opened Basics
  import opened Text
  import opened Addressing
  import opened Command

  const EARLY: seq<string> := [
    "-", "--all", "--attachable", "--availability", "--compose-file",
    "--detach=false", "--driver", "--force", "--format"]

  const MIDDLE: seq<string> := [
    "--gateway", "--image", "--ingress", "--internal", "--label-add",
    "--label-rm", "--limit-cpu", "--limit-memory", "--opt"]

  const LATE: seq<string> := [
    "--quiet", "--raw", "--resolve-image=changed", "--rotate", "--subnet",
    "--tail", "--task-history-limit", "--timestamps", "--with-registry-auth"]

  /** All the options there are; the dash alone stands for standard input. */
  const OPTIONS: seq<string> := EARLY + MIDDLE + LATE

  predicate ListsEarly(options: seq<string>) {
    && "-" in options && "--all" in options && "--attachable" in options
    && "--availability" in options && "--compose-file" in options && "--detach=false" in options
    && "--driver" in options && "--force" in options && "--format" in options
  }

  predicate ListsMiddle(options: seq<string>) {
    && "--gateway" in options && "--image" in options && "--ingress" in options
    && "--internal" in options && "--label-add" in options && "--label-rm" in options
    && "--limit-cpu" in options && "--limit-memory" in options && "--opt" in options
  }

  predicate ListsLate(options: seq<string>) {
    && "--quiet" in options && "--raw" in options && "--resolve-image=changed" in options
    && "--rotate" in options && "--subnet" in options && "--tail" in options
    && "--task-history-limit" in options && "--timestamps" in options && "--with-registry-auth" in options
  }

  predicate Lists(options: seq<string>) {
    ListsEarly(options) && ListsMiddle(options) && ListsLate(options)
  }

  lemma PartsAreListed()
    ensures ListsEarly(EARLY) && ListsMiddle(MIDDLE) && ListsLate(LATE)
  {
  }

  lemma ListedTogether(a: seq<string>, b: seq<string>, c: seq<string>)
    requires ListsEarly(a) && ListsMiddle(b) && ListsLate(c)
    ensures Lists(a + b + c)
  {
    var all := a + b + c;
    forall x | x in a || x in b || x in c ensures x in all {
    }
  }

  lemma OptionsAreListed()
    ensures Lists(OPTIONS)
  {
    PartsAreListed();
    ListedTogether(EARLY, MIDDLE, LATE);
  }

  /** Not empty, and an option only if it is one of these. */
  predicate Sound(word: string, options: seq<string>) {
    word != "" && (word[0] == '-' ==> word in options)
  }

  predicate AllSound(words: seq<string>, options: seq<string>) {
    forall i :: 0 <= i < |words| ==> Sound(words[i], options)
  }

  lemma AllSoundTogether(a: seq<string>, b: seq<string>, options: seq<string>)
    requires AllSound(a, options) && AllSound(b, options)
    ensures AllSound(a + b, options)
  {
  }

  // ----- How fields begin -----

  /** Begins like a name or a number. */
  predicate Named(s: string) {
    s != "" && Alphanumeric(s[0])
  }

  lemma ImageIsNamed(s: string)
    requires ImageRef(s)
    ensures Named(s)
  {
    var i :| 0 <= i <= |s| && DigestAt(s, i);
    var tagged := s[..i];
    var j :| 0 <= j <= |tagged| && TagAt(tagged, j);
    var name := tagged[..j];
    assert ImageName(name);
    if !FirstSegment(name) {
      var k :| 0 < k < |name| && NameAt(name, k);
    }
  }

  lemma LimitsAreNamed(cpu: string, memory: string)
    ensures CpuLimit(cpu) ==> Named(cpu)
    ensures MemoryLimit(memory) ==> Named(memory)
  {
    if CpuLimit(cpu) {
      var cut := Cut(cpu, '.');
      assert cut.before[0] == cpu[0];
    }
    if MemoryLimit(memory) {
      assert memory[..|memory| - 1][0] == memory[0];
    }
  }

  lemma SecretIsNamed(s: string)
    ensures ManagedSecret(s) || RemovableDnsSecret(s) ==> Named(s)
  {
    ConnectionIsNamed(s, "_postgres_uri");
    ConnectionIsNamed(s, "_mongo_uri");
    ConnectionIsNamed(s, "_redis_uri");
    PrefixIsNamed(s, "swarmops_");
    PrefixIsNamed(s, "traefik_dns_");
    PrefixIsNamed(s, "traefik_dashboard_auth");
    PrefixIsNamed(s, "traefik_dns_cloudflare_");
    PrefixIsNamed(s, "traefik_dns_arvan_");
  }

  lemma PrefixIsNamed(s: string, prefix: string)
    requires Named(prefix)
    ensures HasPrefix(s, prefix) ==> Named(s)
  {
    assert HasPrefix(s, prefix) ==> s[..|prefix|][0] == s[0];
  }

  lemma ConnectionIsNamed(s: string, middle: string)
    ensures ConnectionSecret(s, middle) ==> Named(s)
  {
    if ConnectionSecret(s, middle) {
      var k :| 0 <= k <= |s| && ConnectionAt(s, middle, k);
      assert s[..k][0] == s[0];
    }
  }

  lemma ConfigIsNamed(s: string)
    requires ManagedConfig(s)
    ensures Named(s)
  {
    PrefixIsNamed(s, "swarmops_traefik_static_v1_");
    PrefixIsNamed(s, "nim_traefik_dynamic");
    PrefixIsNamed(s, "swarmops_prometheus_config");
    PrefixIsNamed(s, "swarmops_prometheus_rules");
    PrefixIsNamed(s, "swarmops_alertmanager_config");
    PrefixIsNamed(s, "swarmops_jaeger_config");
    PrefixIsNamed(s, "swarmops_fluentd_aggregator");
    PrefixIsNamed(s, "swarmops_fluentd_forwarder");
    PrefixIsNamed(s, "swarmops_postgres_app_bootstrap_");
    PrefixIsNamed(s, "swarmops_mongo_app_bootstrap_");
    PrefixIsNamed(s, "swarmops_redis_app_bootstrap_");
  }

  lemma DecimalIsNamed(n: nat)
    ensures Named(Decimal(n))
  {
    assert AllOf(Decimal(n), Digit);
  }

  lemma AddressesAreNamed(subnet: string, gateway: string)
    requires ValidIngress(subnet, gateway)
    ensures Named(subnet) && Named(gateway)
  {
    IngressIsRoutable(subnet, gateway);
    var network := ParseOctets(Cut(subnet, '/').before).value;
    var host := ParseOctets(gateway).value;
    QuadIsNamed(network);
    QuadIsNamed(host);
    assert subnet[0] == Quad(network)[0];
  }

  lemma QuadIsNamed(o: Octets)
    ensures Named(Quad(o))
  {
    DecimalIsNamed(o.a);
    assert Quad(o)[0] == Decimal(o.a)[0];
  }

  // ----- Every operation -----

  lemma NodeWords(r: Request, options: seq<string>)
    requires Valid(r) && r.operation in [NodeAvailability, NodeRole, NodeRemove]
    requires Lists(options)
    ensures AllSound(Args(r), options)
  {
  }

  lemma NodeLabelWords(r: Request, options: seq<string>)
    requires Valid(r) && r.operation in [NodeLabelAdd, NodeLabelRemove]
    requires Lists(options)
    ensures AllSound(Args(r), options)
  {
  }

  lemma ServiceWords(r: Request, options: seq<string>)
    requires Valid(r) && r.operation in [ServiceRestart, ServiceRollback, ServiceScale, ServiceRemove]
    requires Lists(options)
    ensures AllSound(Args(r), options)
  {
  }

  lemma ServiceLogsWords(r: Request, options: seq<string>)
    requires Valid(r) && r.operation == ServiceLogs
    requires Lists(options)
    ensures AllSound(Args(r), options)
  {
    DecimalIsNamed(r.tail);
  }

  lemma ServiceChangeWords(r: Request, options: seq<string>)
    requires Valid(r) && r.operation in [ServiceImage, ServiceLimits]
    requires Lists(options)
    ensures AllSound(Args(r), options)
  {
    LimitsAreNamed(r.cpuLimit, r.memoryLimit);
    if r.operation == ServiceImage {
      ImageIsNamed(r.image);
    }
  }

  lemma StackWords(r: Request, options: seq<string>)
    requires Valid(r) && r.operation in [StackConfig, StackRemove]
    requires Lists(options)
    ensures AllSound(Args(r), options)
  {
  }

  lemma StackDeployWords(r: Request, options: seq<string>)
    requires Valid(r) && r.operation == StackDeploy
    requires Lists(options)
    ensures AllSound(Args(r), options)
  {
    assert AllSound(["stack", "deploy", "--detach=false"], options) && AllSound(["--compose-file", "-", r.name], options);
    assert AllSound(DeployFlags(r), options);
    AllSoundTogether(DeployFlags(r), ["--compose-file", "-", r.name], options);
    AllSoundTogether(["stack", "deploy", "--detach=false"], DeployFlags(r) + ["--compose-file", "-", r.name], options);
  }

  lemma SecretWords(r: Request, options: seq<string>)
    requires Valid(r) && r.operation in [SecretCreate, SecretList, SecretRemove]
    requires Lists(options)
    ensures AllSound(Args(r), options)
  {
    SecretIsNamed(r.name);
  }

  lemma ConfigWords(r: Request, options: seq<string>)
    requires Valid(r) && r.operation in [ConfigCreate, ConfigList, ConfigRemove]
    requires Lists(options)
    ensures AllSound(Args(r), options)
  {
    if r.operation == ConfigCreate {
      ConfigIsNamed(r.name);
    }
  }

  lemma NetworkFlagWords(a: bool, i: bool, e: bool, options: seq<string>)
    requires Lists(options)
    ensures AllSound(NetworkFlags(a, i, e), options)
  {
  }

  lemma IngressTailWords(subnet: string, gateway: string, options: seq<string>)
    requires Named(subnet) && Named(gateway) && Lists(options)
    ensures AllSound(["network", "create", "--driver", "overlay"] +
                     ["--ingress", "--subnet", subnet, "--gateway", gateway, "ingress"], options)
  {
    AllSoundTogether(["network", "create", "--driver", "overlay"],
                     ["--ingress", "--subnet", subnet, "--gateway", gateway, "ingress"], options);
  }

  lemma IngressWords(r: Request, options: seq<string>)
    requires Valid(r) && r.operation == NetworkCreate && r.ingress
    requires Lists(options)
    ensures AllSound(Args(r), options)
  {
    AddressesAreNamed(r.subnet, r.gateway);
    IngressTailWords(r.subnet, r.gateway, options);
  }

  lemma NetworkCreateWords(r: Request, options: seq<string>)
    requires Valid(r) && r.operation == NetworkCreate && !r.ingress
    requires Lists(options)
    ensures AllSound(Args(r), options)
  {
    var flags := NetworkFlags(r.attachable, r.isolated, r.encrypted);
    NetworkFlagWords(r.attachable, r.isolated, r.encrypted, options);
    AllSoundTogether(flags, [r.name], options);
    AllSoundTogether(["network", "create", "--driver", r.driver], flags + [r.name], options);
  }

  lemma PruneWords(r: Request, options: seq<string>)
    requires Valid(r) && r.operation in [NetworkPrune, VolumePrune, BuilderPrune, ContainerPrune]
    requires Lists(options)
    ensures AllSound(Args(r), options)
  {
  }

  lemma ResourceWords(r: Request, options: seq<string>)
    requires Valid(r) && r.operation in [NetworkRemove, VolumeCreate, VolumeRemove]
    requires Lists(options)
    ensures AllSound(Args(r), options)
  {
  }

  lemma ImageWords(r: Request, options: seq<string>)
    requires Valid(r) && r.operation in [ImagePull, ImageRemove, ImagePrune]
    requires Lists(options)
    ensures AllSound(Args(r), options)
  {
    if r.operation != ImagePrune {
      ImageIsNamed(r.image);
    }
  }

  lemma ContainerVerbWords(verb: string, name: string, options: seq<string>)
    requires verb in ["start", "stop", "restart"] && Named(name) && "--force" in options
    ensures AllSound(["container", verb, name], options) && AllSound(["container", "rm", "--force", name], options)
  {
  }

  lemma ContainerWords(r: Request, options: seq<string>)
    requires Valid(r)
    requires r.operation in [ContainerStart, ContainerStop, ContainerRestart, ContainerRemove]
    requires Lists(options)
    ensures AllSound(Args(r), options)
  {
    assert Named(r.serviceId);
    match r.operation
    case ContainerStart => ContainerVerbWords("start", r.serviceId, options);
    case ContainerStop => ContainerVerbWords("stop", r.serviceId, options);
    case _ => ContainerVerbWords("restart", r.serviceId, options);
  }

  lemma SwarmWords(r: Request, options: seq<string>)
    requires Valid(r) && r.operation in [SwarmTokenRotate, SwarmUpdate]
    requires Lists(options)
    ensures AllSound(Args(r), options)
  {
    DecimalIsNamed(r.limit);
  }

  lemma NodeAndServiceWords(r: Request, options: seq<string>)
    requires Valid(r) && Lists(options)
    ensures
      match r.operation
      case NodeAvailability | NodeRole | NodeLabelAdd | NodeLabelRemove | NodeRemove => AllSound(Args(r), options)
      case ServiceRestart | ServiceRollback | ServiceScale | ServiceRemove => AllSound(Args(r), options)
      case ServiceLogs | ServiceImage | ServiceLimits => AllSound(Args(r), options)
      case _ => true
  {
    match r.operation
    case NodeAvailability | NodeRole | NodeRemove => NodeWords(r, options);
    case NodeLabelAdd | NodeLabelRemove => NodeLabelWords(r, options);
    case ServiceRestart | ServiceRollback | ServiceScale | ServiceRemove => ServiceWords(r, options);
    case ServiceLogs => ServiceLogsWords(r, options);
    case ServiceImage | ServiceLimits => ServiceChangeWords(r, options);
    case _ =>
  }

  lemma StackAndStoreWords(r: Request, options: seq<string>)
    requires Valid(r) && Lists(options)
    ensures
      match r.operation
      case StackConfig | StackRemove | StackDeploy => AllSound(Args(r), options)
      case SecretCreate | SecretList | SecretRemove => AllSound(Args(r), options)
      case ConfigCreate | ConfigList | ConfigRemove => AllSound(Args(r), options)
      case _ => true
  {
    match r.operation
    case StackConfig | StackRemove => StackWords(r, options);
    case StackDeploy => StackDeployWords(r, options);
    case SecretCreate | SecretList | SecretRemove => SecretWords(r, options);
    case ConfigCreate | ConfigList | ConfigRemove => ConfigWords(r, options);
    case _ =>
  }

  lemma AllWords(r: Request, options: seq<string>)
    requires Valid(r) && Lists(options)
    ensures AllSound(Args(r), options)
  {
    NodeAndServiceWords(r, options);
    StackAndStoreWords(r, options);
    match r.operation
    case NetworkCreate =>
      if r.ingress {
        IngressWords(r, options);
      } else {
        NetworkCreateWords(r, options);
      }
    case NetworkRemove | VolumeCreate | VolumeRemove => ResourceWords(r, options);
    case NetworkPrune | VolumePrune | BuilderPrune | ContainerPrune => PruneWords(r, options);
    case ImagePull | ImageRemove | ImagePrune => ImageWords(r, options);
    case ContainerStart | ContainerStop | ContainerRestart | ContainerRemove => ContainerWords(r, options);
    case SwarmTokenRotate | SwarmUpdate => SwarmWords(r, options);
    case _ =>
  }

  /** No field becomes an option: in whatever the agent renders, no word is empty and
      every word that begins with a dash is one of the fixed options. */
  lemma NoFieldIsAnOption(r: Request, word: string)
    requires DockerArgs(r).Ok? && word in DockerArgs(r).value.args
    ensures word != "" && (word[0] == '-' ==> word in OPTIONS)
  {
    OptionsAreListed();
    AllWords(r, OPTIONS);
    assert Sound(word, OPTIONS);
  }
}
