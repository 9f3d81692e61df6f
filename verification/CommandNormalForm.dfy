/** Parse-then-render is a normal form, and exactly which argv it leaves alone. */
module CommandNormalForm {
  import opened Basics
  import opened Text
  import opened Command
  import opened CommandParser
  import opened CommandRoundTrip

  lemma RelevantKeepsOperation(r: Request)
    ensures Relevant(r).operation == r.operation
  {
  }

  lemma RelevantKeepsArgs(r: Request)
    ensures Args(Relevant(r)) == Args(r) && Input(Relevant(r)) == Input(r)
  {
  }

  lemma RelevantKeepsValid(r: Request)
    requires Valid(r)
    ensures Valid(Relevant(r))
  {
  }

  /** Zeroing unused fields does not change what a valid request renders to. */
  lemma RelevantRendersSame(r: Request)
    requires Valid(r)
    ensures DockerArgs(Relevant(r)) == DockerArgs(r)
  {
    RelevantKeepsArgs(r);
    RelevantKeepsValid(r);
  }

  // ----- Standard input is carried unchanged -----

  lemma ResourceTakesNoInput(args: seq<string>, input: string)
    requires |args| >= 1 && ResourceRequest(args, input).Owned? && ResourceRequest(args, input).result.Ok?
    ensures input == "" && Input(ResourceRequest(args, input).result.value) == ""
  {
  }

  lemma StackKeepsInput(args: seq<string>, input: string)
    requires |args| >= 1 && StackRequest(args, input).Ok?
    ensures Input(StackRequest(args, input).value) == input
  {
  }

  lemma ParseKeepsInput(args: seq<string>, input: string)
    requires Parse("docker", args, input).Ok?
    ensures Input(Parse("docker", args, input).value) == input
  {
    if ResourceRequest(args, input).Owned? {
      ResourceTakesNoInput(args, input);
    } else if args[0] == "stack" {
      StackKeepsInput(args, input);
    }
  }

  /** Parsing any accepted argv and rendering the result is a normal form: doing it
      again changes nothing, and standard input passes through untouched. */
  lemma NormalForm(args: seq<string>, input: string)
    requires Parse("docker", args, input).Ok?
    requires DockerArgs(Parse("docker", args, input).value).Ok?
    ensures var once := DockerArgs(Parse("docker", args, input).value).value;
            && once.input == input
            && Parse("docker", once.args, once.input).Ok?
            && DockerArgs(Parse("docker", once.args, once.input).value) == Ok(once)
  {
    var r := Parse("docker", args, input).value;
    ParseKeepsInput(args, input);
    RoundTrip(r);
    RelevantRendersSame(r);
  }

  /** Two valid requests with the same argv and stdin ask for the same thing. */
  lemma RenderingIsInjective(q: Request, r: Request)
    requires DockerArgs(q).Ok? && DockerArgs(q) == DockerArgs(r)
    ensures q.operation == r.operation && Relevant(q) == Relevant(r)
  {
    RoundTrip(q);
    RoundTrip(r);
    RelevantKeepsOperation(q);
    RelevantKeepsOperation(r);
  }

  // ----- Which accepted argv are already normal -----

  /** `--attachable`, `--internal` and `--opt encrypted=true`, in this order, each at
      most once and nothing else, then the name. Options ranked below `rank` are past. */
  predicate OptionsInOrder(rest: seq<string>, rank: nat)
    decreases |rest|
  {
    if |rest| <= 1 then rest != []
    else
      match NetworkOptionOf(rest[0])
      case Attachable => rank <= 0 && OptionsInOrder(rest[1..], 1)
      case Internal => rank <= 1 && OptionsInOrder(rest[1..], 2)
      case DriverOption => rank <= 2 && rest[1] == "encrypted=true" && OptionsInOrder(rest[2..], 3)
      case _ => false
  }

  /** An ordinary network has its options in order and no address; the ingress has
      exactly the six words. */
  predicate CanonicalNetwork(rest: seq<string>) {
    || OptionsInOrder(rest, 0)
    || (|rest| == 6 && rest[0] == "--ingress" && rest[1] == "--subnet" && rest[3] == "--gateway")
  }

  /** Numbers without leading zeros, stack options and network options in the
      order they are printed, no repeated network option, and a subnet and gateway
      exactly when the network is the ingress. */
  predicate Canonical(args: seq<string>) {
    && (|args| == 3 && args[0] == "service" && args[1] == "scale" ==> Plain(Cut(args[2], '=').after))
    && (|args| == 7 && args[0] == "service" && args[1] == "logs" ==> Plain(args[5]))
    && (|args| == 4 && args[0] == "swarm" && args[1] == "update" ==> Plain(args[3]))
    && (|args| >= 5 && args[0] == "stack" && args[1] == "deploy" ==>
          !(args[3] == "--with-registry-auth" && args[4] == "--resolve-image=changed"))
    && (|args| >= 5 && args[0] == "network" && args[1] == "create" ==> CanonicalNetwork(args[4..]))
  }

  lemma PlainIff(s: string)
    requires ParseUint(s).Some?
    ensures Decimal(ParseUint(s).value) == s <==> Plain(s)
  {
    DecimalReadsBack(Value(s));
    if Plain(s) {
      PlainPrintsBack(s);
    }
  }

  ghost predicate Accepts(claim: Claim) {
    claim.Owned? && claim.result.Ok?
  }

  /** Parsing gave `r`; rendering it gives the argv back if and only if that was canonical. */
  ghost predicate NormalIff(args: seq<string>, r: Request) {
    Args(r) == args <==> Canonical(args)
  }

  lemma PlainFamilies(args: seq<string>)
    requires |args| >= 1 && args[0] !in ["service", "swarm", "stack", "network"]
    ensures Canonical(args)
  {
  }

  lemma NodeLabelAddShape(args: seq<string>)
    requires |args| == 5 && args[0] == "node" && args[2] == "--label-add" && Accepts(NodeResource(args))
    ensures NormalIff(args, NodeResource(args).result.value)
  {
    PlainFamilies(args);
    assert args == ["node", "update", "--label-add", args[3], args[4]];
  }

  lemma NodeLabelRemoveShape(args: seq<string>)
    requires |args| == 5 && args[0] == "node" && args[2] == "--label-rm" && Accepts(NodeResource(args))
    ensures NormalIff(args, NodeResource(args).result.value)
  {
    PlainFamilies(args);
    assert args == ["node", "update", "--label-rm", args[3], args[4]];
  }

  lemma NodeShape(args: seq<string>)
    requires |args| >= 1 && args[0] == "node" && Accepts(NodeResource(args))
    ensures NormalIff(args, NodeResource(args).result.value)
  {
    if |args| == 5 && args[2] == "--label-add" {
      NodeLabelAddShape(args);
    } else if |args| == 5 {
      NodeLabelRemoveShape(args);
    } else {
      PlainFamilies(args);
      assert args == if |args| == 3 then ["node", args[1], args[2]] else ["node", "rm", "--force", args[3]];
    }
  }

  lemma NodeAvailabilityShape(args: seq<string>, input: string)
    requires |args| >= 1 && args[0] == "node" && NodeRequest(args, input).Ok?
    ensures NormalIff(args, NodeRequest(args, input).value)
  {
  }

  lemma VolumeShape(args: seq<string>)
    requires |args| >= 1 && args[0] == "volume" && Accepts(VolumeResource(args))
    ensures NormalIff(args, VolumeResource(args).result.value)
  {
  }

  lemma ServiceResourceShape(args: seq<string>)
    requires |args| >= 1 && args[0] == "service" && Accepts(ServiceResource(args))
    ensures NormalIff(args, ServiceResource(args).result.value)
  {
  }

  lemma ServiceShape(args: seq<string>)
    requires |args| >= 1 && args[0] == "service" && ServiceRequest(args, "").Ok?
    ensures NormalIff(args, ServiceRequest(args, "").value)
  {
    if |args| == 3 && args[1] == "scale" {
      ScaleShape(args);
    } else if |args| == 7 {
      PlainIff(args[5]);
      assert args == ["service", "logs", "--raw", "--timestamps", "--tail", args[5], args[6]];
    }
  }

  lemma ScaleShape(args: seq<string>)
    requires |args| == 3 && args[0] == "service" && args[1] == "scale" && ServiceRequest(args, "").Ok?
    ensures NormalIff(args, ServiceRequest(args, "").value)
  {
    var cut := Cut(args[2], '=');
    PlainIff(cut.after);
    var printed := cut.before + ['='] + Decimal(ParseUint(cut.after).value);
    assert printed == args[2] <==> Decimal(ParseUint(cut.after).value) == cut.after by {
      assert printed[|cut.before| + 1..] == Decimal(ParseUint(cut.after).value);
      assert args[2][|cut.before| + 1..] == cut.after;
    }
    assert args == ["service", "scale", args[2]];
  }

  lemma ImageShape(args: seq<string>)
    requires |args| >= 1 && args[0] == "image" && Accepts(ImageResource(args))
    ensures NormalIff(args, ImageResource(args).result.value)
  {
    PlainFamilies(args);
    if |args| == 3 {
      assert args == ["image", args[1], args[2]];
    } else {
      assert args == ["image", "prune", "--force", "--all"];
    }
  }

  lemma ContainerRemoveShape(args: seq<string>)
    requires |args| == 4 && args[0] == "container" && Accepts(ContainerResource(args))
    ensures NormalIff(args, ContainerResource(args).result.value)
  {
    PlainFamilies(args);
    assert args == ["container", "rm", "--force", args[3]];
  }

  lemma ContainerPruneShape(args: seq<string>)
    requires |args| == 3 && args[0] == "container" && args[1] == "prune" && Accepts(ContainerResource(args))
    ensures NormalIff(args, ContainerResource(args).result.value)
  {
    PlainFamilies(args);
    assert args == ["container", "prune", "--force"];
  }

  lemma ContainerVerbShape(args: seq<string>, verb: string, name: string)
    requires args == ["container", verb, name] && verb in ["start", "stop", "restart"]
    ensures Accepts(ContainerResource(args)) && NormalIff(args, ContainerResource(args).result.value)
  {
    PlainFamilies(args);
  }

  lemma ContainerStateShape(args: seq<string>)
    requires |args| == 3 && args[0] == "container" && args[1] in ["start", "stop", "restart"]
    ensures Accepts(ContainerResource(args)) && NormalIff(args, ContainerResource(args).result.value)
  {
    ContainerVerbShape(args, args[1], args[2]);
  }

  lemma ContainerShape(args: seq<string>)
    requires |args| >= 1 && args[0] == "container" && Accepts(ContainerResource(args))
    ensures NormalIff(args, ContainerResource(args).result.value)
  {
    if |args| == 3 && args[1] == "prune" {
      ContainerPruneShape(args);
    } else if |args| == 3 {
      ContainerStateShape(args);
    } else {
      ContainerRemoveShape(args);
    }
  }

  lemma SwarmUpdateShape(args: seq<string>)
    requires |args| == 4 && args[0] == "swarm" && Accepts(SwarmResource(args))
    ensures NormalIff(args, SwarmResource(args).result.value)
  {
    PlainIff(args[3]);
    assert args == ["swarm", "update", "--task-history-limit", args[3]];
  }

  lemma SwarmShape(args: seq<string>)
    requires |args| >= 1 && args[0] == "swarm" && Accepts(SwarmResource(args))
    ensures NormalIff(args, SwarmResource(args).result.value)
  {
    if |args| == 4 {
      SwarmUpdateShape(args);
    } else {
      assert args == ["swarm", "join-token", "--rotate", "--quiet", args[4]];
    }
  }

  lemma SecretShape(args: seq<string>, input: string)
    requires |args| >= 1 && args[0] == "secret" && SecretRequest(args, input).Ok?
    ensures NormalIff(args, SecretRequest(args, input).value)
  {
  }

  lemma ConfigShape(args: seq<string>, input: string)
    requires |args| >= 1 && args[0] == "config" && ConfigRequest(args, input).Ok?
    ensures NormalIff(args, ConfigRequest(args, input).value)
  {
  }

  // ----- Stack deployments -----

  lemma AfterBothFlags(rest: seq<string>, e: Request)
    requires StackOptions(rest, e).Ok? && e.resolveImageChanged && e.withRegistryAuth && e.name == ""
    ensures var r := StackOptions(rest, e).value;
            r.resolveImageChanged && r.withRegistryAuth && rest == ["--compose-file", "-", r.name]
  {
  }

  lemma AfterResolve(rest: seq<string>, e: Request)
    requires StackOptions(rest, e).Ok? && e.resolveImageChanged && !e.withRegistryAuth && e.name == ""
    ensures var r := StackOptions(rest, e).value;
            && r.resolveImageChanged
            && rest == (if r.withRegistryAuth then ["--with-registry-auth"] else []) + ["--compose-file", "-", r.name]
  {
    if rest != [] && rest[0] == "--with-registry-auth" {
      AfterBothFlags(rest[1..], e.(withRegistryAuth := true));
      assert rest == [rest[0]] + rest[1..];
    }
  }

  lemma AfterAuth(rest: seq<string>, e: Request)
    requires StackOptions(rest, e).Ok? && e.withRegistryAuth && !e.resolveImageChanged && e.name == ""
    ensures var r := StackOptions(rest, e).value;
            && r.withRegistryAuth
            && rest == (if r.resolveImageChanged then ["--resolve-image=changed"] else []) + ["--compose-file", "-", r.name]
  {
    if rest != [] && rest[0] == "--resolve-image=changed" {
      AfterBothFlags(rest[1..], e.(resolveImageChanged := true));
      assert rest == [rest[0]] + rest[1..];
    }
  }

  lemma ResolveFirst(rest: seq<string>, empty: Request)
    requires StackOptions(rest, empty).Ok? && rest != [] && rest[0] == "--resolve-image=changed"
    requires !empty.resolveImageChanged && !empty.withRegistryAuth && empty.name == ""
    ensures var r := StackOptions(rest, empty).value; rest == DeployFlags(r) + ["--compose-file", "-", r.name]
  {
    AfterResolve(rest[1..], empty.(resolveImageChanged := true));
    assert rest == [rest[0]] + rest[1..];
  }

  lemma AuthFirst(rest: seq<string>, empty: Request)
    requires StackOptions(rest, empty).Ok? && rest != [] && rest[0] == "--with-registry-auth"
    requires !empty.resolveImageChanged && !empty.withRegistryAuth && empty.name == ""
    ensures var r := StackOptions(rest, empty).value;
            |rest| >= 2 &&
            (rest == DeployFlags(r) + ["--compose-file", "-", r.name] <==> rest[1] != "--resolve-image=changed")
  {
    AfterAuth(rest[1..], empty.(withRegistryAuth := true));
    var r := StackOptions(rest, empty).value;
    assert rest == [rest[0]] + rest[1..];
    if r.resolveImageChanged {
      assert (DeployFlags(r) + ["--compose-file", "-", r.name])[0] == "--resolve-image=changed";
    }
  }

  /** Accepted options are the flags in either order, then the compose file. */
  lemma DeployOptionForms(rest: seq<string>, empty: Request)
    requires StackOptions(rest, empty).Ok?
    requires !empty.resolveImageChanged && !empty.withRegistryAuth && empty.name == ""
    ensures var r := StackOptions(rest, empty).value;
            rest == DeployFlags(r) + ["--compose-file", "-", r.name] <==>
            !(|rest| >= 2 && rest[0] == "--with-registry-auth" && rest[1] == "--resolve-image=changed")
  {
    if rest[0] == "--resolve-image=changed" {
      ResolveFirst(rest, empty);
    } else if rest[0] == "--with-registry-auth" {
      AuthFirst(rest, empty);
    } else {
      var r := StackOptions(rest, empty).value;
      assert rest == ["--compose-file", "-", r.name];
      assert DeployFlags(r) == [];
    }
  }

  lemma StackShape(args: seq<string>, input: string)
    requires |args| >= 1 && args[0] == "stack" && StackRequest(args, input).Ok?
    ensures NormalIff(args, StackRequest(args, input).value)
  {
    if |args| >= 6 && args[1] == "deploy" {
      var rest := args[3..];
      DeployOptionForms(rest, Request(StackDeploy, compose := input));
      assert args == ["stack", "deploy", "--detach=false"] + rest;
      assert rest[0] == args[3] && rest[1] == args[4];
      var r := StackRequest(args, input).value;
      assert Args(r)[3..] == DeployFlags(r) + ["--compose-file", "-", r.name];
    }
  }

  // ----- Network creation -----

  ghost function NetworkTail(r: Request): seq<string> {
    if r.ingress then ["--ingress", "--subnet", r.subnet, "--gateway", r.gateway, "ingress"]
    else NetworkFlags(r.attachable, r.isolated, r.encrypted) + [r.name]
  }

  lemma FlagsAreInOrder(a: bool, i: bool, e: bool, name: string, rank: nat)
    requires (a ==> rank <= 0) && (i ==> rank <= 1) && (e ==> rank <= 2)
    ensures OptionsInOrder(NetworkFlags(a, i, e) + [name], rank)
    decreases a, i, e
  {
    var all := NetworkFlags(a, i, e) + [name];
    if a {
      FlagsAreInOrder(false, i, e, name, 1);
      assert all[1..] == NetworkFlags(false, i, e) + [name];
    } else if i {
      FlagsAreInOrder(false, false, e, name, 2);
      assert all[1..] == NetworkFlags(false, false, e) + [name];
    } else if e {
      FlagsAreInOrder(false, false, false, name, 3);
      assert all[2..] == NetworkFlags(false, false, false) + [name];
    }
  }

  lemma {:induction false} InOrderIsFlags(rest: seq<string>, rank: nat) returns (a: bool, i: bool, e: bool, name: string)
    requires OptionsInOrder(rest, rank)
    ensures rest == NetworkFlags(a, i, e) + [name]
    ensures (a ==> rank <= 0) && (i ==> rank <= 1) && (e ==> rank <= 2)
    decreases |rest|
  {
    if |rest| == 1 {
      a, i, e, name := false, false, false, rest[0];
    } else {
      match NetworkOptionOf(rest[0])
      case Attachable =>
        a, i, e, name := InOrderIsFlags(rest[1..], 1);
        a := true;
        assert rest == ["--attachable"] + rest[1..];
      case Internal =>
        a, i, e, name := InOrderIsFlags(rest[1..], 2);
        i := true;
        assert rest == ["--internal"] + rest[1..];
      case DriverOption =>
        a, i, e, name := InOrderIsFlags(rest[2..], 3);
        e := true;
        assert rest == ["--opt", "encrypted=true"] + rest[2..];
    }
  }

  lemma InOrderReadsBack(rest: seq<string>, empty: Request)
    requires OptionsInOrder(rest, 0)
    requires !empty.attachable && !empty.isolated && !empty.encrypted && !empty.ingress
    ensures NetworkOptions(rest, empty).Ok? && NetworkTail(NetworkOptions(rest, empty).value) == rest
  {
    var a, i, e, name := InOrderIsFlags(rest, 0);
    FlagsReadBack(a, i, e, name, empty);
  }

  lemma TailIsCanonical(r: Request)
    ensures CanonicalNetwork(NetworkTail(r))
  {
    FlagsAreInOrder(r.attachable, r.isolated, r.encrypted, r.name, 0);
  }

  lemma IngressTailReadsBack(rest: seq<string>, empty: Request)
    requires |rest| == 6 && rest == ["--ingress", "--subnet", rest[2], "--gateway", rest[4], "ingress"]
    ensures NetworkOptions(rest, empty).Ok? && NetworkTail(NetworkOptions(rest, empty).value) == rest
  {
    IngressOptionsReadBack(empty, rest[2], rest[4], "ingress");
  }

  lemma IngressName(rest: seq<string>, empty: Request)
    requires |rest| == 6 && rest[0] == "--ingress" && rest[1] == "--subnet" && rest[3] == "--gateway"
    requires NetworkOptions(rest, empty).Ok? && ValidNetwork(NetworkOptions(rest, empty).value)
    ensures rest == ["--ingress", "--subnet", rest[2], "--gateway", rest[4], "ingress"]
  {
    assert rest == ["--ingress", "--subnet", rest[2], "--gateway", rest[4], rest[5]];
    IngressOptionsReadBack(empty, rest[2], rest[4], rest[5]);
  }

  lemma NetworkTailIff(rest: seq<string>, empty: Request)
    requires rest != [] && NetworkOptions(rest, empty).Ok? && ValidNetwork(NetworkOptions(rest, empty).value)
    requires !empty.attachable && !empty.isolated && !empty.encrypted && !empty.ingress
    ensures NetworkTail(NetworkOptions(rest, empty).value) == rest <==> CanonicalNetwork(rest)
  {
    TailIsCanonical(NetworkOptions(rest, empty).value);
    if OptionsInOrder(rest, 0) {
      InOrderReadsBack(rest, empty);
    } else if CanonicalNetwork(rest) {
      IngressName(rest, empty);
      IngressTailReadsBack(rest, empty);
    }
  }

  lemma NetworkCreateShape(args: seq<string>, r: Request)
    requires |args| >= 5 && args[0] == "network" && args[1] == "create" && args[2] == "--driver"
    requires NetworkOptions(args[4..], Request(NetworkCreate, driver := args[3])) == Ok(r) && Valid(r)
    requires r.operation == NetworkCreate && r.driver == args[3]
    ensures NormalIff(args, r)
  {
    NetworkTailIff(args[4..], Request(NetworkCreate, driver := args[3]));
    assert args == ["network", "create", "--driver", args[3]] + args[4..];
    assert Args(r) == ["network", "create", "--driver", r.driver] + NetworkTail(r);
    assert Args(r)[4..] == NetworkTail(r);
  }

  lemma NetworkShape(args: seq<string>)
    requires |args| >= 1 && args[0] == "network" && Accepts(NetworkResource(args))
    requires Valid(NetworkResource(args).result.value)
    ensures NormalIff(args, NetworkResource(args).result.value)
  {
    if |args| >= 5 {
      NetworkCreateShape(args, NetworkResource(args).result.value);
    } else {
      assert args == ["network", args[1], args[2]];
    }
  }

  // ----- The whole vocabulary -----

  lemma ResourceShape(args: seq<string>)
    requires |args| >= 1 && Accepts(ResourceRequest(args, "")) && Valid(ResourceRequest(args, "").result.value)
    ensures NormalIff(args, ResourceRequest(args, "").result.value)
  {
    if args[0] == "node" {
      NodeShape(args);
    } else if args[0] == "service" {
      ServiceResourceShape(args);
    } else if args[0] == "network" {
      NetworkShape(args);
    } else if args[0] == "volume" {
      VolumeShape(args);
    } else if args[0] == "image" {
      ImageShape(args);
    } else if args[0] == "container" {
      ContainerShape(args);
    } else if args[0] == "swarm" {
      SwarmShape(args);
    } else {
      assert args == [args[0], args[1], args[2]];
    }
  }

  /** The vocabulary accepts more than it prints. An accepted argv whose request is
      valid renders back to itself if and only if it is canonical. */
  lemma RendersBackIff(args: seq<string>, input: string)
    requires Parse("docker", args, input).Ok? && Valid(Parse("docker", args, input).value)
    ensures DockerArgs(Parse("docker", args, input).value) == Ok(Invocation(args, input)) <==> Canonical(args)
  {
    var r := Parse("docker", args, input).value;
    ParseKeepsInput(args, input);
    assert NormalIff(args, r) by {
      if ResourceRequest(args, input).Owned? {
        ResourceTakesNoInput(args, input);
        ResourceShape(args);
      } else if args[0] == "node" {
        NodeAvailabilityShape(args, input);
      } else if args[0] == "service" {
        ServiceShape(args);
      } else if args[0] == "stack" {
        StackShape(args, input);
      } else if args[0] == "secret" {
        SecretShape(args, input);
      } else {
        ConfigShape(args, input);
      }
    }
  }

  lemma SubnetOptionIsRead(subnet: string, name: string, r: Request)
    ensures NetworkOptions(["--subnet", subnet, name], r) == Ok(r.(subnet := subnet, name := name))
  {
    assert ["--subnet", subnet, name][2..] == [name];
  }

  lemma SubnetIsRead(args: seq<string>)
    requires args == ["network", "create", "--driver", "bridge", "--subnet", "10.0.0.0/24", "edge"]
    ensures Parse("docker", args, "") == Ok(Request(NetworkCreate, driver := "bridge", subnet := "10.0.0.0/24", name := "edge"))
  {
    assert args[4..] == ["--subnet", "10.0.0.0/24", "edge"];
    SubnetOptionIsRead("10.0.0.0/24", "edge", Request(NetworkCreate, driver := "bridge"));
  }

  lemma SubnetIsNotPrinted(r: Request)
    requires r == Request(NetworkCreate, driver := "bridge", subnet := "10.0.0.0/24", name := "edge")
    ensures DockerArgs(r) == Ok(Invocation(["network", "create", "--driver", "bridge", "edge"], ""))
  {
    assert ResourceName("edge") && Valid(r);
    assert NetworkFlags(false, false, false) + ["edge"] == ["edge"];
    assert Args(r) == ["network", "create", "--driver", "bridge", "edge"];
  }

  /** A subnet without `--ingress` is accepted and silently dropped. */
  lemma DropsSubnet()
    ensures
      var args := ["network", "create", "--driver", "bridge", "--subnet", "10.0.0.0/24", "edge"];
      && Parse("docker", args, "").Ok?
      && DockerArgs(Parse("docker", args, "").value)
         == Ok(Invocation(["network", "create", "--driver", "bridge", "edge"], ""))
  {
    var args := ["network", "create", "--driver", "bridge", "--subnet", "10.0.0.0/24", "edge"];
    SubnetIsRead(args);
    SubnetIsNotPrinted(Parse("docker", args, "").value);
  }

  lemma ZeroZeroSeven()
    ensures ParseUint("007") == Some(7)
  {
    assert "007"[..2] == "00" && "00"[..1] == "0" && "0"[..0] == "";
    assert Value("0") == 0 && Value("00") == 0;
  }

  lemma ScaleIsRead(id: string, number: string, n: nat)
    requires '=' !in id && ParseUint(number) == Some(n)
    ensures Parse("docker", ["service", "scale", id + ['='] + number], "") ==
            Ok(Request(ServiceScale, replicas := n, serviceId := id))
  {
    CutAt(id, '=', number);
  }

  /** Leading zeros are read and not printed. */
  lemma DropsLeadingZeros(id: string)
    requires '=' !in id
    ensures
      var r := Request(ServiceScale, replicas := 7, serviceId := id);
      && Parse("docker", ["service", "scale", id + ['='] + "007"], "") == Ok(r)
      && Args(r) == ["service", "scale", id + ['='] + "7"]
  {
    ZeroZeroSeven();
    ScaleIsRead(id, "007", 7);
    assert Decimal(7) == "7";
  }

  /** Options are read in any order and any number of times. */
  lemma ForgetsOrder(name: string, r: Request)
    ensures NetworkOptions(["--internal", "--attachable", name], r) ==
            NetworkOptions(["--attachable", "--internal", name], r) == Ok(r.(attachable := true, isolated := true, name := name))
    ensures NetworkOptions(["--attachable", "--attachable", name], r) == NetworkOptions(["--attachable", name], r)
  {
    AttachableReads([name], r);
    AttachableReads([name], r.(isolated := true));
    AttachableReads([name], r.(attachable := true));
    InternalReads([name], r.(attachable := true));
    AttachableReads(["--attachable", name], r);
    AttachableReads(["--internal", name], r);
    InternalReads(["--attachable", name], r);
    assert ["--attachable"] + [name] == ["--attachable", name] && ["--internal"] + [name] == ["--internal", name];
    assert ["--attachable"] + ["--attachable", name] == ["--attachable", "--attachable", name];
    assert ["--attachable"] + ["--internal", name] == ["--attachable", "--internal", name];
    assert ["--internal"] + ["--attachable", name] == ["--internal", "--attachable", name];
  }
}
