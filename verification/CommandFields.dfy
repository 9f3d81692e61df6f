/** What the words of a rendered command say: the command is the operation's, every
    option carries the field it is for, and the document goes to standard input. */
module CommandFields {
  import opened Basics
  import opened Text
  import opened Command

  /** The option is there, and the word after it is this one. */
  predicate Carries(words: seq<string>, option: string, value: string) {
    exists i :: 0 <= i < |words| - 1 && words[i] == option && words[i + 1] == value
  }

  function Last(words: seq<string>): string {
    if words == [] then "" else words[|words| - 1]
  }

  lemma CarriesAt(words: seq<string>, i: nat)
    requires i + 1 < |words|
    ensures Carries(words, words[i], words[i + 1])
  {
  }

  /** Which Docker command an operation is. */
  function CommandOf(operation: Operation): (string, string) {
    match operation
    case NodeAvailability | NodeLabelAdd | NodeLabelRemove => ("node", "update")
    case NodeRemove => ("node", "rm")
    case ServiceRestart | ServiceImage | ServiceLimits => ("service", "update")
    case ServiceRollback => ("service", "rollback")
    case ServiceScale => ("service", "scale")
    case ServiceLogs => ("service", "logs")
    case ServiceRemove => ("service", "rm")
    case StackConfig => ("stack", "config")
    case StackDeploy => ("stack", "deploy")
    case StackRemove => ("stack", "rm")
    case SecretCreate => ("secret", "create")
    case SecretList => ("secret", "ls")
    case SecretRemove => ("secret", "rm")
    case ConfigCreate => ("config", "create")
    case ConfigList => ("config", "ls")
    case ConfigRemove => ("config", "rm")
    case NetworkCreate => ("network", "create")
    case NetworkRemove => ("network", "rm")
    case NetworkPrune => ("network", "prune")
    case VolumeCreate => ("volume", "create")
    case VolumeRemove => ("volume", "rm")
    case VolumePrune => ("volume", "prune")
    case ImagePull => ("image", "pull")
    case ImageRemove => ("image", "rm")
    case ImagePrune => ("image", "prune")
    case ContainerStart => ("container", "start")
    case ContainerStop => ("container", "stop")
    case ContainerRestart => ("container", "restart")
    case ContainerRemove => ("container", "rm")
    case ContainerPrune => ("container", "prune")
    case BuilderPrune => ("builder", "prune")
    case SwarmTokenRotate => ("swarm", "join-token")
    case SwarmUpdate => ("swarm", "update")
    case NodeRole | Unsupported(_) => ("", "")
  }

  predicate Begins(words: seq<string>, command: (string, string)) {
    |words| >= 2 && words[0] == command.0 && words[1] == command.1
  }

  predicate OfObjects(operation: Operation) {
    || operation.NodeAvailability? || operation.NodeLabelAdd? || operation.NodeLabelRemove? || operation.NodeRemove?
    || operation.ServiceRestart? || operation.ServiceImage? || operation.ServiceLimits? || operation.ServiceRollback?
    || operation.ServiceScale? || operation.ServiceLogs? || operation.ServiceRemove?
    || operation.ContainerStart? || operation.ContainerStop? || operation.ContainerRestart?
    || operation.ContainerRemove?
  }

  predicate OfNames(operation: Operation) {
    || operation.StackConfig? || operation.StackDeploy? || operation.StackRemove?
    || operation.SecretCreate? || operation.SecretList? || operation.SecretRemove?
    || operation.ConfigCreate? || operation.ConfigList? || operation.ConfigRemove?
  }

  lemma ObjectsBegin(r: Request)
    requires OfObjects(r.operation)
    ensures Begins(Args(r), CommandOf(r.operation))
  {
  }

  lemma NamesBegin(r: Request)
    requires OfNames(r.operation)
    ensures Begins(Args(r), CommandOf(r.operation))
  {
  }

  lemma ResourcesBegin(r: Request)
    requires !OfObjects(r.operation) && !OfNames(r.operation) && !r.operation.NodeRole? && !r.operation.Unsupported?
    ensures Begins(Args(r), CommandOf(r.operation))
  {
  }

  /** Every rendered request begins with its own command; changing a node's role has
      the role for a command. */
  lemma BeginsWithItsCommand(r: Request)
    requires DockerArgs(r).Ok?
    ensures Begins(DockerArgs(r).value.args, if r.operation == NodeRole then ("node", r.role) else CommandOf(r.operation))
  {
    if OfObjects(r.operation) {
      ObjectsBegin(r);
    } else if OfNames(r.operation) {
      NamesBegin(r);
    } else if !r.operation.NodeRole? {
      ResourcesBegin(r);
    }
  }

  /** The document goes to standard input, and nothing else does. */
  lemma InputIsTheDocument(r: Request)
    requires DockerArgs(r).Ok?
    ensures DockerArgs(r).value.input ==
            if r.operation == StackConfig || r.operation == StackDeploy then r.compose
            else if r.operation == SecretCreate then r.secret
            else if r.operation == ConfigCreate then r.config
            else ""
  {
  }

  lemma NodeOptionsCarry(r: Request)
    requires DockerArgs(r).Ok?
    ensures
      var words := DockerArgs(r).value.args;
      match r.operation
      case NodeAvailability => Carries(words, "--availability", r.availability) && Last(words) == r.serviceId
      case NodeLabelAdd => Carries(words, "--label-add", r.key + ['='] + r.value) && Last(words) == r.serviceId
      case NodeLabelRemove => Carries(words, "--label-rm", r.key) && Last(words) == r.serviceId
      case NodeRole | NodeRemove => Last(words) == r.serviceId
      case _ => true
  {
    if r.operation in [NodeAvailability, NodeLabelAdd, NodeLabelRemove] {
      CarriesAt(Args(r), 2);
    }
  }

  lemma ServiceOptionsCarry(r: Request)
    requires DockerArgs(r).Ok?
    ensures
      var words := DockerArgs(r).value.args;
      match r.operation
      case ServiceImage => Carries(words, "--image", r.image) && Last(words) == r.serviceId
      case ServiceLimits =>
        && Carries(words, "--limit-cpu", r.cpuLimit) && Carries(words, "--limit-memory", r.memoryLimit)
        && Last(words) == r.serviceId
      case ServiceLogs => Carries(words, "--tail", Decimal(r.tail)) && Last(words) == r.serviceId
      case ServiceScale => Last(words) == r.serviceId + ['='] + Decimal(r.replicas)
      case ServiceRestart | ServiceRollback | ServiceRemove => Last(words) == r.serviceId
      case ContainerStart | ContainerStop | ContainerRestart | ContainerRemove => Last(words) == r.serviceId
      case _ => true
  {
    if r.operation == ServiceImage {
      CarriesAt(Args(r), 2);
    } else if r.operation == ServiceLimits {
      CarriesAt(Args(r), 2);
      CarriesAt(Args(r), 4);
    } else if r.operation == ServiceLogs {
      CarriesAt(Args(r), 4);
    }
  }

  lemma NamesAreLast(r: Request)
    requires DockerArgs(r).Ok?
    ensures
      var words := DockerArgs(r).value.args;
      match r.operation
      case StackRemove | SecretRemove | ConfigRemove | NetworkRemove | VolumeRemove => Last(words) == r.name
      case ImagePull | ImageRemove => Last(words) == r.image
      case SwarmTokenRotate => Last(words) == r.role
      case _ => true
  {
  }

  lemma DocumentsAreNamed(r: Request)
    requires DockerArgs(r).Ok? && (r.operation == SecretCreate || r.operation == ConfigCreate)
    ensures Carries(DockerArgs(r).value.args, "create", r.name) && Last(DockerArgs(r).value.args) == "-"
  {
    CarriesAt(Args(r), 1);
  }

  lemma ResourceOptionsCarry(r: Request)
    requires DockerArgs(r).Ok?
    ensures
      var words := DockerArgs(r).value.args;
      match r.operation
      case VolumeCreate => Carries(words, "--driver", "local") && Last(words) == r.name
      case ImagePrune => "--all" in words <==> r.all
      case SwarmUpdate => Carries(words, "--task-history-limit", Decimal(r.limit))
      case _ => true
  {
    if r.operation.VolumeCreate? || r.operation.SwarmUpdate? {
      CarriesAt(Args(r), 2);
    }
  }

  lemma StackSays(flags: seq<string>, name: string, option: string)
    requires name != "" && name[0] != '-' && (option == "--resolve-image=changed" || option == "--with-registry-auth")
    ensures
      var words := ["stack", "deploy", "--detach=false"] + (flags + ["--compose-file", "-", name]);
      && (option in words <==> option in flags) && Carries(words, "--compose-file", "-") && Last(words) == name
  {
    var words := ["stack", "deploy", "--detach=false"] + (flags + ["--compose-file", "-", name]);
    CarriesAt(words, |words| - 3);
  }

  lemma StackOptionsCarry(r: Request)
    requires DockerArgs(r).Ok? && r.operation == StackDeploy
    ensures
      var words := DockerArgs(r).value.args;
      && ("--resolve-image=changed" in words <==> r.resolveImageChanged)
      && ("--with-registry-auth" in words <==> r.withRegistryAuth)
      && Carries(words, "--compose-file", "-") && Last(words) == r.name
  {
    StackSays(DeployFlags(r), r.name, "--resolve-image=changed");
    StackSays(DeployFlags(r), r.name, "--with-registry-auth");
  }

  lemma IngressSays(subnet: string, gateway: string)
    ensures
      var words := ["network", "create", "--driver", "overlay"] +
                   ["--ingress", "--subnet", subnet, "--gateway", gateway, "ingress"];
      && Carries(words, "--driver", "overlay") && Carries(words, "--subnet", subnet)
      && Carries(words, "--gateway", gateway) && Last(words) == "ingress"
  {
    var words := ["network", "create", "--driver", "overlay"] +
    ["--ingress", "--subnet", subnet, "--gateway", gateway, "ingress"];
    CarriesAt(words, 2);
    CarriesAt(words, 5);
    CarriesAt(words, 7);
  }

  lemma IngressOptionsCarry(r: Request)
    requires DockerArgs(r).Ok? && r.operation == NetworkCreate && r.ingress
    ensures
      var words := DockerArgs(r).value.args;
      && Carries(words, "--driver", "overlay") && Carries(words, "--subnet", r.subnet)
      && Carries(words, "--gateway", r.gateway) && Last(words) == "ingress"
  {
    IngressSays(r.subnet, r.gateway);
  }

  lemma NetworkFlagsSay(a: bool, i: bool, e: bool, driver: string, name: string)
    requires name != "" && name[0] != '-' && driver != "" && driver[0] != '-'
    ensures
      var words := ["network", "create", "--driver", driver] + (NetworkFlags(a, i, e) + [name]);
      && ("--attachable" in words <==> a) && ("--internal" in words <==> i) && ("--opt" in words <==> e)
      && (e ==> Carries(words, "--opt", "encrypted=true"))
      && Carries(words, "--driver", driver) && Last(words) == name
  {
    var words := ["network", "create", "--driver", driver] + (NetworkFlags(a, i, e) + [name]);
    CarriesAt(words, 2);
    if e {
      CarriesAt(words, |words| - 3);
    }
  }

  lemma NetworkOptionsCarry(r: Request)
    requires DockerArgs(r).Ok? && r.operation == NetworkCreate && !r.ingress
    ensures
      var words := DockerArgs(r).value.args;
      && ("--attachable" in words <==> r.attachable) && ("--internal" in words <==> r.isolated)
      && ("--opt" in words <==> r.encrypted) && (r.encrypted ==> Carries(words, "--opt", "encrypted=true"))
      && Carries(words, "--driver", r.driver) && Last(words) == r.name
  {
    NetworkFlagsSay(r.attachable, r.isolated, r.encrypted, r.driver, r.name);
  }

  /** Commands that would otherwise ask a question are told to go ahead. */
  lemma QuestionsAreAnswered(r: Request)
    requires DockerArgs(r).Ok?
    requires r.operation in [ServiceRestart, NodeRemove, ContainerRemove, NetworkPrune, VolumePrune, ImagePrune,
                             ContainerPrune, BuilderPrune]
    ensures |DockerArgs(r).value.args| > 2 && DockerArgs(r).value.args[2] == "--force"
  {
  }

  /** Logs come raw and dated, lists as bare names, a token alone, and a deployment
      is waited for. */
  lemma OutputsArePlain(r: Request)
    requires DockerArgs(r).Ok?
    ensures
      var words := DockerArgs(r).value.args;
      match r.operation
      case ServiceLogs => |words| > 3 && words[2..4] == ["--raw", "--timestamps"]
      case SecretList | ConfigList => words[2..] == ["--format", "{{.Name}}"]
      case SwarmTokenRotate => |words| > 3 && words[2..4] == ["--rotate", "--quiet"]
      case StackDeploy => |words| > 2 && words[2] == "--detach=false"
      case _ => true
  {
  }
}
