/** Rendering and parsing are inverse to each other, up to the normal form. */
module CommandRoundTrip {
  import opened Basics
  import opened Text
  import opened Command
  import opened CommandParser

  ghost predicate ReadsBack(r: Request) {
    Parse("docker", Args(r), Input(r)) == Ok(Relevant(r))
  }

  // ----- One family of operations at a time -----

  lemma NodeReadsBack(r: Request)
    requires r.operation in [NodeAvailability, NodeLabelRemove, NodeRemove]
    ensures ReadsBack(r)
  {
  }

  lemma NodeRoleReadsBack(r: Request)
    requires r.operation == NodeRole && r.role in ["promote", "demote"]
    ensures ReadsBack(r)
  {
  }

  lemma NodeLabelAddReadsBack(r: Request)
    requires r.operation == NodeLabelAdd && '=' !in r.key
    ensures ReadsBack(r)
  {
    CutAt(r.key, '=', r.value);
  }

  lemma ServiceRollReadsBack(r: Request)
    requires r.operation in [ServiceRestart, ServiceRollback, ServiceRemove]
    ensures ReadsBack(r)
  {
  }

  lemma ServiceImageReadsBack(r: Request)
    requires r.operation == ServiceImage
    ensures ReadsBack(r)
  {
  }

  lemma ServiceLimitsReadsBack(r: Request)
    requires r.operation == ServiceLimits
    ensures ReadsBack(r)
  {
  }

  lemma ServiceScaleReadsBack(r: Request)
    requires r.operation == ServiceScale && '=' !in r.serviceId && r.replicas <= MAX_UINT64
    ensures ReadsBack(r)
  {
    CutAt(r.serviceId, '=', Decimal(r.replicas));
    DecimalReadsBack(r.replicas);
  }

  lemma ServiceLogsReadsBack(r: Request)
    requires r.operation == ServiceLogs && r.tail <= MAX_UINT64
    ensures ReadsBack(r)
  {
    DecimalReadsBack(r.tail);
  }

  lemma SecretReadsBack(r: Request)
    requires r.operation in [SecretCreate, SecretList, SecretRemove] && |Input(r)| <= MAX_COMPOSE_BYTES
    ensures ReadsBack(r)
  {
  }

  lemma ConfigCreateReadsBack(r: Request)
    requires r.operation == ConfigCreate && |Input(r)| <= MAX_COMPOSE_BYTES
    ensures ReadsBack(r)
  {
  }

  lemma ConfigListReadsBack(r: Request)
    requires r.operation == ConfigList
    ensures ReadsBack(r)
  {
  }

  lemma ConfigRemoveReadsBack(r: Request)
    requires r.operation == ConfigRemove
    ensures ReadsBack(r)
  {
  }

  lemma ImageFetchReadsBack(r: Request)
    requires r.operation in [ImagePull, ImageRemove]
    ensures ReadsBack(r)
  {
  }

  lemma ImagePruneReadsBack(r: Request)
    requires r.operation == ImagePrune
    ensures ReadsBack(r)
  {
  }

  lemma ContainerStateReadsBack(r: Request)
    requires r.operation in [ContainerStart, ContainerStop]
    ensures ReadsBack(r)
  {
  }

  lemma ContainerRestartReadsBack(r: Request)
    requires r.operation == ContainerRestart
    ensures ReadsBack(r)
  {
  }

  lemma ContainerRemoveReadsBack(r: Request)
    requires r.operation == ContainerRemove
    ensures ReadsBack(r)
  {
  }

  lemma ContainerPruneReadsBack(r: Request)
    requires r.operation == ContainerPrune
    ensures ReadsBack(r)
  {
  }

  lemma BuilderPruneReadsBack(r: Request)
    requires r.operation == BuilderPrune
    ensures ReadsBack(r)
  {
  }

  lemma VolumeCreateReadsBack(r: Request)
    requires r.operation == VolumeCreate
    ensures ReadsBack(r)
  {
  }

  lemma VolumeCleanupReadsBack(r: Request)
    requires r.operation in [VolumeRemove, VolumePrune]
    ensures ReadsBack(r)
  {
  }

  lemma NetworkReadsBack(r: Request)
    requires r.operation in [NetworkRemove, NetworkPrune]
    ensures ReadsBack(r)
  {
  }

  lemma SwarmTokenReadsBack(r: Request)
    requires r.operation == SwarmTokenRotate
    ensures ReadsBack(r)
  {
  }

  lemma SwarmUpdateReadsBack(r: Request)
    requires r.operation == SwarmUpdate && r.limit <= MAX_UINT64
    ensures ReadsBack(r)
  {
    DecimalReadsBack(r.limit);
  }

  lemma StackReadsBack(r: Request)
    requires r.operation in [StackConfig, StackRemove] && |Input(r)| <= MAX_COMPOSE_BYTES
    ensures ReadsBack(r)
  {
  }

  // ----- Option lists -----

  lemma ResolveReads(tail: seq<string>, e: Request)
    requires !e.resolveImageChanged
    ensures StackOptions(["--resolve-image=changed"] + tail, e) == StackOptions(tail, e.(resolveImageChanged := true))
  {
    assert (["--resolve-image=changed"] + tail)[1..] == tail;
  }

  lemma AuthReads(tail: seq<string>, e: Request)
    requires !e.withRegistryAuth
    ensures StackOptions(["--with-registry-auth"] + tail, e) == StackOptions(tail, e.(withRegistryAuth := true))
  {
    assert (["--with-registry-auth"] + tail)[1..] == tail;
  }

  lemma AuthOptionReadsBack(auth: bool, name: string, e: Request)
    requires name != "" && !e.withRegistryAuth
    ensures StackOptions((if auth then ["--with-registry-auth"] else []) + ["--compose-file", "-", name], e)
         == Ok(e.(withRegistryAuth := auth, name := name))
  {
    var tail := ["--compose-file", "-", name];
    if auth {
      AuthReads(tail, e);
    } else {
      assert [] + tail == tail;
    }
  }

  lemma DeployOptionsReadBack(r: Request, empty: Request)
    requires r.name != "" && !empty.resolveImageChanged && !empty.withRegistryAuth
    ensures StackOptions(DeployFlags(r) + ["--compose-file", "-", r.name], empty)
         == Ok(empty.(resolveImageChanged := r.resolveImageChanged, withRegistryAuth := r.withRegistryAuth, name := r.name))
  {
    var all := DeployFlags(r) + ["--compose-file", "-", r.name];
    var rest := (if r.withRegistryAuth then ["--with-registry-auth"] else []) + ["--compose-file", "-", r.name];
    if r.resolveImageChanged {
      assert all == ["--resolve-image=changed"] + rest;
      ResolveReads(rest, empty);
      AuthOptionReadsBack(r.withRegistryAuth, r.name, empty.(resolveImageChanged := true));
    } else {
      assert all == rest;
      AuthOptionReadsBack(r.withRegistryAuth, r.name, empty);
    }
  }

  lemma StackDeployReadsBack(r: Request)
    requires r.operation == StackDeploy && r.name != "" && |r.compose| <= MAX_COMPOSE_BYTES && r.compose != ""
    ensures ReadsBack(r)
  {
    var options := DeployFlags(r) + ["--compose-file", "-", r.name];
    assert Args(r)[3..] == options;
    DeployOptionsReadBack(r, Request(StackDeploy, compose := r.compose));
  }

  lemma AttachableReads(tail: seq<string>, r: Request)
    requires tail != []
    ensures NetworkOptions(["--attachable"] + tail, r) == NetworkOptions(tail, r.(attachable := true))
  {
    assert (["--attachable"] + tail)[1..] == tail;
  }

  lemma InternalReads(tail: seq<string>, r: Request)
    requires tail != []
    ensures NetworkOptions(["--internal"] + tail, r) == NetworkOptions(tail, r.(isolated := true))
  {
    assert (["--internal"] + tail)[1..] == tail;
  }

  lemma EncryptedReads(tail: seq<string>, r: Request)
    requires tail != []
    ensures NetworkOptions(["--opt", "encrypted=true"] + tail, r) == NetworkOptions(tail, r.(encrypted := true))
  {
    assert (["--opt", "encrypted=true"] + tail)[2..] == tail;
  }

  lemma FlagsReadBack(a: bool, i: bool, e: bool, name: string, r: Request)
    ensures NetworkOptions(NetworkFlags(a, i, e) + [name], r)
         == Ok(r.(attachable := r.attachable || a, isolated := r.isolated || i, encrypted := r.encrypted || e, name := name))
    decreases a, i, e
  {
    var all := NetworkFlags(a, i, e) + [name];
    if a {
      assert all == ["--attachable"] + (NetworkFlags(false, i, e) + [name]);
      AttachableReads(NetworkFlags(false, i, e) + [name], r);
      FlagsReadBack(false, i, e, name, r.(attachable := true));
    } else if i {
      assert all == ["--internal"] + (NetworkFlags(false, false, e) + [name]);
      InternalReads(NetworkFlags(false, false, e) + [name], r);
      FlagsReadBack(false, false, e, name, r.(isolated := true));
    } else if e {
      assert all == ["--opt", "encrypted=true"] + [name];
      EncryptedReads([name], r);
    } else {
      assert all == [name];
    }
  }

  lemma IngressOptionsReadBack(r: Request, subnet: string, gateway: string, name: string)
    ensures NetworkOptions(["--ingress", "--subnet", subnet, "--gateway", gateway, name], r)
         == Ok(r.(ingress := true, subnet := subnet, gateway := gateway, name := name))
  {
    var all := ["--ingress", "--subnet", subnet, "--gateway", gateway, name];
    var r1 := r.(ingress := true);
    var r2 := r1.(subnet := subnet);
    var r3 := r2.(gateway := gateway);
    assert all[1..] == ["--subnet", subnet, "--gateway", gateway, name];
    assert all[1..][2..] == ["--gateway", gateway, name];
    assert all[1..][2..][2..] == [name];
    assert NetworkOptions(all, r) == NetworkOptions(all[1..], r1);
    assert NetworkOptions(all[1..], r1) == NetworkOptions(all[1..][2..], r2);
    assert NetworkOptions(all[1..][2..], r2) == NetworkOptions([name], r3);
  }

  lemma IngressReadsBack(r: Request)
    requires r.operation == NetworkCreate && r.ingress && r.driver == "overlay" && r.name == "ingress"
    ensures ReadsBack(r)
  {
    IngressOptionsReadBack(Request(NetworkCreate, driver := "overlay"), r.subnet, r.gateway, "ingress");
    assert Args(r)[4..] == ["--ingress", "--subnet", r.subnet, "--gateway", r.gateway, "ingress"];
  }

  lemma OrdinaryNetworkReadsBack(r: Request)
    requires r.operation == NetworkCreate && !r.ingress
    ensures ReadsBack(r)
  {
    FlagsReadBack(r.attachable, r.isolated, r.encrypted, r.name, Request(NetworkCreate, driver := r.driver));
    assert Args(r)[4..] == NetworkFlags(r.attachable, r.isolated, r.encrypted) + [r.name];
  }

  // ----- Every operation -----

  lemma ValidNamesHaveNoEquals(r: Request)
    requires Valid(r)
    ensures r.operation == NodeLabelAdd ==> '=' !in r.key
    ensures r.operation == ServiceScale ==> '=' !in r.serviceId
  {
  }

  lemma ValidInputIsBounded(r: Request)
    requires Valid(r)
    ensures |Input(r)| <= MAX_COMPOSE_BYTES
    ensures r.operation in [StackConfig, StackDeploy, SecretCreate, ConfigCreate] ==> Input(r) != ""
  {
  }

  predicate OfMachinesAndServices(operation: Operation) {
    match operation
    case NodeAvailability | NodeLabelRemove | NodeRemove | NodeRole | NodeLabelAdd => true
    case ServiceRestart | ServiceRollback | ServiceRemove | ServiceImage | ServiceLimits => true
    case ServiceScale | ServiceLogs => true
    case _ => false
  }

  predicate OfStacksAndStores(operation: Operation) {
    match operation
    case SecretCreate | SecretList | SecretRemove | ConfigCreate | ConfigList | ConfigRemove => true
    case StackConfig | StackRemove | StackDeploy => true
    case _ => false
  }

  lemma MachinesAndServicesReadBack(r: Request)
    requires Valid(r) && OfMachinesAndServices(r.operation)
    ensures ReadsBack(r)
  {
    ValidNamesHaveNoEquals(r);
    match r.operation
    case NodeAvailability | NodeLabelRemove | NodeRemove => NodeReadsBack(r);
    case NodeRole => NodeRoleReadsBack(r);
    case NodeLabelAdd => NodeLabelAddReadsBack(r);
    case ServiceRestart | ServiceRollback | ServiceRemove => ServiceRollReadsBack(r);
    case ServiceImage => ServiceImageReadsBack(r);
    case ServiceLimits => ServiceLimitsReadsBack(r);
    case ServiceScale => ServiceScaleReadsBack(r);
    case ServiceLogs => ServiceLogsReadsBack(r);
  }

  lemma StacksAndStoresReadBack(r: Request)
    requires Valid(r) && OfStacksAndStores(r.operation)
    ensures ReadsBack(r)
  {
    ValidInputIsBounded(r);
    match r.operation
    case SecretCreate | SecretList | SecretRemove => SecretReadsBack(r);
    case ConfigCreate => ConfigCreateReadsBack(r);
    case ConfigList => ConfigListReadsBack(r);
    case ConfigRemove => ConfigRemoveReadsBack(r);
    case StackConfig | StackRemove => StackReadsBack(r);
    case StackDeploy => StackDeployReadsBack(r);
  }

  lemma ResourcesReadBack(r: Request)
    requires Valid(r) && !OfMachinesAndServices(r.operation) && !OfStacksAndStores(r.operation)
    ensures ReadsBack(r)
  {
    match r.operation
    case ImagePull | ImageRemove => ImageFetchReadsBack(r);
    case ImagePrune => ImagePruneReadsBack(r);
    case ContainerStart | ContainerStop => ContainerStateReadsBack(r);
    case ContainerRestart => ContainerRestartReadsBack(r);
    case ContainerRemove => ContainerRemoveReadsBack(r);
    case ContainerPrune => ContainerPruneReadsBack(r);
    case BuilderPrune => BuilderPruneReadsBack(r);
    case VolumeCreate => VolumeCreateReadsBack(r);
    case VolumeRemove | VolumePrune => VolumeCleanupReadsBack(r);
    case NetworkRemove | NetworkPrune => NetworkReadsBack(r);
    case NetworkCreate =>
      if r.ingress {
        IngressReadsBack(r);
      } else {
        OrdinaryNetworkReadsBack(r);
      }
    case SwarmTokenRotate => SwarmTokenReadsBack(r);
    case SwarmUpdate => SwarmUpdateReadsBack(r);
  }

  /** Rendering any valid request and parsing the argv and stdin gives that request
      back, with the fields its operation does not use set to zero. */
  lemma RoundTrip(r: Request)
    requires DockerArgs(r).Ok?
    ensures Parse("docker", DockerArgs(r).value.args, DockerArgs(r).value.input) == Ok(Relevant(r))
  {
    assert ReadsBack(r) by {
      if OfMachinesAndServices(r.operation) {
        MachinesAndServicesReadBack(r);
      } else if OfStacksAndStores(r.operation) {
        StacksAndStoresReadBack(r);
      } else {
        ResourcesReadBack(r);
      }
    }
  }
}
