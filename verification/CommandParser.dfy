/** The controller-side inverse of the rendering: which Docker argv and stdin are
    accepted, and the structured request each becomes. */
module CommandParser {
  import opened Basics
  import opened Text
  import opened Command

  /** The resource dispatcher runs first and may disown an argv. */
  datatype Claim = Disowned | Owned(result: Result<Request>)

  // ----- Resource dispatcher: resources.go:200-324 -----

  function NodeResource(args: seq<string>): Claim
    requires |args| >= 1
  {
    if |args| == 3 && args[1] in ["promote", "demote"] then
      Owned(Ok(Request(NodeRole, role := args[1], serviceId := args[2])))
    else if |args| == 5 && args[1] == "update" && args[2] == "--label-add" then
      var cut := Cut(args[3], '=');
      if !cut.found then Owned(Err("invalid node label operation"))
      else Owned(Ok(Request(NodeLabelAdd, key := cut.before, serviceId := args[4], value := cut.after)))
    else if |args| == 5 && args[1] == "update" && args[2] == "--label-rm" then
      Owned(Ok(Request(NodeLabelRemove, key := args[3], serviceId := args[4])))
    else if |args| == 4 && args[1] == "rm" && args[2] == "--force" then
      Owned(Ok(Request(NodeRemove, serviceId := args[3])))
    else Disowned
  }

  function ServiceResource(args: seq<string>): Claim
    requires |args| >= 1
  {
    if |args| == 5 && args[1] == "update" && args[2] == "--image" then
      Owned(Ok(Request(ServiceImage, image := args[3], serviceId := args[4])))
    else if |args| == 7 && args[1] == "update" && args[2] == "--limit-cpu" && args[4] == "--limit-memory" then
      Owned(Ok(Request(ServiceLimits, cpuLimit := args[3], memoryLimit := args[5], serviceId := args[6])))
    else if |args| == 3 && args[1] == "rm" then
      Owned(Ok(Request(ServiceRemove, serviceId := args[2])))
    else Disowned
  }

  datatype NetworkOption = Ingress | Attachable | Internal | Subnet | Gateway | DriverOption | NoNetworkOption

  function NetworkOptionOf(word: string): NetworkOption {
    if word == "--ingress" then Ingress
    else if word == "--attachable" then Attachable
    else if word == "--internal" then Internal
    else if word == "--subnet" then Subnet
    else if word == "--gateway" then Gateway
    else if word == "--opt" then DriverOption
    else NoNetworkOption
  }

  /** The options between the driver and the name; `rest` ends with the name. */
  function NetworkOptions(rest: seq<string>, r: Request): (result: Result<Request>)
    requires rest != []
    ensures result.Ok? ==> result.value.operation == r.operation && result.value.driver == r.driver
    decreases |rest|
  {
    if |rest| == 1 then Ok(r.(name := rest[0]))
    else
      match NetworkOptionOf(rest[0])
      case Ingress => NetworkOptions(rest[1..], r.(ingress := true))
      case Attachable => NetworkOptions(rest[1..], r.(attachable := true))
      case Internal => NetworkOptions(rest[1..], r.(isolated := true))
      case Subnet =>
        if |rest| <= 2 then Err("network subnet requires a value")
        else NetworkOptions(rest[2..], r.(subnet := rest[1]))
      case Gateway =>
        if |rest| <= 2 then Err("network gateway requires a value")
        else NetworkOptions(rest[2..], r.(gateway := rest[1]))
      case DriverOption =>
        if |rest| <= 2 || rest[1] != "encrypted=true" then Err("unsupported network driver option")
        else NetworkOptions(rest[2..], r.(encrypted := true))
      case NoNetworkOption => Err("unsupported network option")
  }

  function NetworkResource(args: seq<string>): Claim
    requires |args| >= 1
  {
    if |args| >= 5 && args[1] == "create" && args[2] == "--driver" then
      Owned(NetworkOptions(args[4..], Request(NetworkCreate, driver := args[3])))
    else if |args| == 3 && args[1] == "rm" then Owned(Ok(Request(NetworkRemove, name := args[2])))
    else if |args| == 3 && args[1] == "prune" && args[2] == "--force" then Owned(Ok(Request(NetworkPrune)))
    else Disowned
  }

  function VolumeResource(args: seq<string>): Claim
    requires |args| >= 1
  {
    if |args| == 5 && args[1] == "create" && args[2] == "--driver" && args[3] == "local" then
      Owned(Ok(Request(VolumeCreate, name := args[4])))
    else if |args| == 3 && args[1] == "rm" then Owned(Ok(Request(VolumeRemove, name := args[2])))
    else if |args| == 3 && args[1] == "prune" && args[2] == "--force" then Owned(Ok(Request(VolumePrune)))
    else Disowned
  }

  function ImageResource(args: seq<string>): Claim
    requires |args| >= 1
  {
    if |args| == 3 && args[1] == "pull" then Owned(Ok(Request(ImagePull, image := args[2])))
    else if |args| == 3 && args[1] == "rm" then Owned(Ok(Request(ImageRemove, image := args[2])))
    else if |args| >= 3 && args[1] == "prune" && args[2] == "--force" then
      if |args| == 4 && args[3] == "--all" then Owned(Ok(Request(ImagePrune, all := true)))
      else if |args| != 3 then Owned(Err("unsupported image prune option"))
      else Owned(Ok(Request(ImagePrune)))
    else Disowned
  }

  function ContainerResource(args: seq<string>): Claim
    requires |args| >= 1
  {
    if |args| == 3 && args[1] == "start" then Owned(Ok(Request(ContainerStart, serviceId := args[2])))
    else if |args| == 3 && args[1] == "stop" then Owned(Ok(Request(ContainerStop, serviceId := args[2])))
    else if |args| == 3 && args[1] == "restart" then Owned(Ok(Request(ContainerRestart, serviceId := args[2])))
    else if |args| == 4 && args[1] == "rm" && args[2] == "--force" then
      Owned(Ok(Request(ContainerRemove, serviceId := args[3])))
    else if |args| == 3 && args[1] == "prune" && args[2] == "--force" then Owned(Ok(Request(ContainerPrune)))
    else Disowned
  }

  function SwarmResource(args: seq<string>): Claim
    requires |args| >= 1
  {
    if |args| == 5 && args[1] == "join-token" && args[2] == "--rotate" && args[3] == "--quiet" then
      Owned(Ok(Request(SwarmTokenRotate, role := args[4])))
    else if |args| == 4 && args[1] == "update" && args[2] == "--task-history-limit" then
      match ParseUint(args[3])
      case Some(limit) => Owned(Ok(Request(SwarmUpdate, limit := limit)))
      case None => Owned(Err("invalid swarm task history limit"))
    else Disowned
  }

  function ResourceRequest(args: seq<string>, input: string): Claim
    requires |args| >= 1
  {
    if input != "" then Disowned
    else if args[0] == "node" then NodeResource(args)
    else if args[0] == "service" then ServiceResource(args)
    else if args[0] == "network" then NetworkResource(args)
    else if args[0] == "volume" then VolumeResource(args)
    else if args[0] == "config" then
      if |args| == 3 && args[1] == "rm" then Owned(Ok(Request(ConfigRemove, name := args[2]))) else Disowned
    else if args[0] == "image" then ImageResource(args)
    else if args[0] == "container" then ContainerResource(args)
    else if args[0] == "builder" then
      if |args| == 3 && args[1] == "prune" && args[2] == "--force" then Owned(Ok(Request(BuilderPrune))) else Disowned
    else if args[0] == "swarm" then SwarmResource(args)
    else Disowned
  }

  // ----- First vocabulary: command.go:141-265 -----

  function NodeRequest(args: seq<string>, input: string): Result<Request>
    requires |args| >= 1
  {
    if input == "" && |args| == 5 && args[1] == "update" && args[2] == "--availability" then
      Ok(Request(NodeAvailability, availability := args[3], serviceId := args[4]))
    else Err("unsupported agent Docker operation")
  }

  function ServiceRequest(args: seq<string>, input: string): Result<Request>
    requires |args| >= 1
  {
    if input != "" then Err("service operations do not accept input")
    else if |args| == 4 && args[1] == "update" && args[2] == "--force" then
      Ok(Request(ServiceRestart, serviceId := args[3]))
    else if |args| == 3 && args[1] == "rollback" then Ok(Request(ServiceRollback, serviceId := args[2]))
    else if |args| == 3 && args[1] == "scale" then
      var cut := Cut(args[2], '=');
      if !cut.found then Err("invalid service scale operation")
      else
        match ParseUint(cut.after)
        case Some(count) => Ok(Request(ServiceScale, replicas := count, serviceId := cut.before))
        case None => Err("invalid service replica count")
    else if |args| == 7 && args[1] == "logs" && args[2] == "--raw" && args[3] == "--timestamps" && args[4] == "--tail" then
      match ParseUint(args[5])
      case Some(tail) => Ok(Request(ServiceLogs, serviceId := args[6], tail := tail))
      case None => Err("invalid service log tail")
    else Err("unsupported agent service operation")
  }

  datatype StackOption = ResolveImage | RegistryAuth | ComposeFile | NoStackOption

  function StackOptionOf(word: string): StackOption {
    if word == "--resolve-image=changed" then ResolveImage
    else if word == "--with-registry-auth" then RegistryAuth
    else if word == "--compose-file" then ComposeFile
    else NoStackOption
  }

  /** The options of a stack deployment, up to `--compose-file - name`. */
  function StackOptions(rest: seq<string>, r: Request): (result: Result<Request>)
    ensures result.Ok? ==> result.value.operation == r.operation && result.value.compose == r.compose
    decreases |rest|
  {
    if rest == [] then Named(r)
    else
      match StackOptionOf(rest[0])
      case ResolveImage =>
        if r.resolveImageChanged then Err("duplicate stack resolve-image option")
        else StackOptions(rest[1..], r.(resolveImageChanged := true))
      case RegistryAuth =>
        if r.withRegistryAuth then Err("duplicate stack registry-auth option")
        else StackOptions(rest[1..], r.(withRegistryAuth := true))
      case ComposeFile =>
        if |rest| != 3 || rest[1] != "-" then Err("stack deploy requires compose stdin and one stack name")
        else Named(r.(name := rest[2]))
      case NoStackOption => Err("unsupported agent stack option")
  }

  function Named(r: Request): Result<Request> {
    if r.name == "" then Err("stack deploy requires a stack name") else Ok(r)
  }

  function StackRequest(args: seq<string>, input: string): Result<Request>
    requires |args| >= 1
  {
    if |args| == 4 && args[1] == "config" && args[2] == "--compose-file" && args[3] == "-" then
      Ok(Request(StackConfig, compose := input))
    else if |args| == 3 && args[1] == "rm" && input == "" then Ok(Request(StackRemove, name := args[2]))
    else if |args| < 6 || args[1] != "deploy" || args[2] != "--detach=false" then Err("unsupported agent stack operation")
    else StackOptions(args[3..], Request(StackDeploy, compose := input))
  }

  function SecretRequest(args: seq<string>, input: string): Result<Request>
    requires |args| >= 1
  {
    if |args| == 4 && args[1] == "create" && args[3] == "-" then Ok(Request(SecretCreate, name := args[2], secret := input))
    else if |args| == 4 && args[1] == "ls" && args[2] == "--format" && args[3] == "{{.Name}}" && input == "" then
      Ok(Request(SecretList))
    else if |args| == 3 && args[1] == "rm" && input == "" then Ok(Request(SecretRemove, name := args[2]))
    else Err("unsupported agent secret operation")
  }

  function ConfigRequest(args: seq<string>, input: string): Result<Request>
    requires |args| >= 1
  {
    if |args| == 4 && args[1] == "create" && args[3] == "-" then Ok(Request(ConfigCreate, config := input, name := args[2]))
    else if |args| == 4 && args[1] == "ls" && args[2] == "--format" && args[3] == "{{.Name}}" && input == "" then
      Ok(Request(ConfigList))
    else Err("unsupported agent config operation")
  }

  function Parse(program: string, args: seq<string>, input: string): Result<Request> {
    if program != "docker" then Err("agent accepts Docker operations only")
    else if |input| > MAX_COMPOSE_BYTES then Err("compose input exceeds the limit")
    else if |args| == 0 then Err("agent command is required")
    else
      match ResourceRequest(args, input)
      case Owned(result) => result
      case Disowned =>
        if args[0] == "node" then NodeRequest(args, input)
        else if args[0] == "service" then ServiceRequest(args, input)
        else if args[0] == "stack" then StackRequest(args, input)
        else if args[0] == "secret" then SecretRequest(args, input)
        else if args[0] == "config" then ConfigRequest(args, input)
        else Err("unsupported agent Docker operation")
  }

  // ----- The two loops that walk argv -----

  /** The option loop of `resourceRequest`, with its index and its request. */
  method ParseNetworkOptions(args: seq<string>) returns (result: Result<Request>)
    requires |args| >= 5
    ensures result == NetworkOptions(args[4..], Request(NetworkCreate, driver := args[3]))
  {
    var request := Request(NetworkCreate, driver := args[3]);
    ghost var goal := NetworkOptions(args[4..], request);
    var index := 4;
    while index < |args| - 1
      invariant 4 <= index <= |args| - 1
      invariant goal == NetworkOptions(args[index..], request)
    {
      assert args[index..][1..] == args[index + 1..];
      match NetworkOptionOf(args[index]) {
        case Ingress =>
          request := request.(ingress := true);
        case Attachable =>
          request := request.(attachable := true);
        case Internal =>
          request := request.(isolated := true);
        case Subnet =>
          if index + 1 >= |args| - 1 {
            return Err("network subnet requires a value");
          }
          assert args[index..][2..] == args[index + 2..];
          request := request.(subnet := args[index + 1]);
          index := index + 1;
        case Gateway =>
          if index + 1 >= |args| - 1 {
            return Err("network gateway requires a value");
          }
          assert args[index..][2..] == args[index + 2..];
          request := request.(gateway := args[index + 1]);
          index := index + 1;
        case DriverOption =>
          if index + 1 >= |args| - 1 || args[index + 1] != "encrypted=true" {
            return Err("unsupported network driver option");
          }
          assert args[index..][2..] == args[index + 2..];
          request := request.(encrypted := true);
          index := index + 1;
        case NoNetworkOption =>
          return Err("unsupported network option");
      }
      index := index + 1;
    }
    assert args[index..] == [args[|args| - 1]];
    return Ok(request.(name := args[|args| - 1]));
  }

  lemma LastStackOption(args: seq<string>, i: nat, r: Request)
    requires i < |args| && StackOptionOf(args[i]).ComposeFile?
    ensures StackOptions(args[i..], r) ==
            if i + 2 != |args| - 1 || args[i + 1] != "-" then
              Err("stack deploy requires compose stdin and one stack name")
            else Named(r.(name := args[i + 2]))
  {
  }

  lemma NextStackOption(args: seq<string>, i: nat, r: Request)
    requires i < |args|
    ensures StackOptionOf(args[i]).ResolveImage? && !r.resolveImageChanged ==>
              StackOptions(args[i..], r) == StackOptions(args[i + 1..], r.(resolveImageChanged := true))
    ensures StackOptionOf(args[i]).RegistryAuth? && !r.withRegistryAuth ==>
              StackOptions(args[i..], r) == StackOptions(args[i + 1..], r.(withRegistryAuth := true))
  {
    assert args[i..][1..] == args[i + 1..];
  }

  /** The option loop of `stackRequest`. */
  method ParseStackOptions(args: seq<string>, input: string) returns (result: Result<Request>)
    requires |args| >= 6
    ensures result == StackOptions(args[3..], Request(StackDeploy, compose := input))
  {
    var request := Request(StackDeploy, compose := input);
    ghost var goal := StackOptions(args[3..], request);
    var index := 3;
    while index < |args|
      invariant 3 <= index <= |args| && request.name == ""
      invariant goal == StackOptions(args[index..], request)
    {
      NextStackOption(args, index, request);
      match StackOptionOf(args[index]) {
        case ResolveImage =>
          if request.resolveImageChanged {
            return Err("duplicate stack resolve-image option");
          }
          request := request.(resolveImageChanged := true);
        case RegistryAuth =>
          if request.withRegistryAuth {
            return Err("duplicate stack registry-auth option");
          }
          request := request.(withRegistryAuth := true);
        case ComposeFile =>
          LastStackOption(args, index, request);
          if index + 2 != |args| - 1 || args[index + 1] != "-" {
            return Err("stack deploy requires compose stdin and one stack name");
          }
          request := request.(name := args[index + 2]);
          break;
        case NoStackOption =>
          return Err("unsupported agent stack option");
      }
      index := index + 1;
    }
    if request.name == "" {
      return Err("stack deploy requires a stack name");
    }
    return Ok(request);
  }
}
