/** Exactly which requests the agent renders, operation by operation. */
module CommandAcceptance {
  import opened Basics
  import opened Text
  import opened Addressing
  import opened Command
  import opened CommandPatterns

  predicate Rendered(r: Request) {
    DockerArgs(r).Ok?
  }

  /** A node, service or container: its id or name. */
  predicate ObjectName(s: string) {
    NameOf(s, "._:-", 128)
  }

  lemma ObjectsAccepted(r: Request)
    requires
      match r.operation
      case ServiceRestart | ServiceRollback | ServiceRemove | NodeRemove => true
      case ContainerStart | ContainerStop | ContainerRestart | ContainerRemove => true
      case _ => false
    ensures Rendered(r) <==> ObjectName(r.serviceId)
  {
    ReferenceIff(r.serviceId);
  }

  lemma NodesAccepted(r: Request)
    ensures r.operation == NodeAvailability ==>
              (Rendered(r) <==>
               (r.availability == "active" || r.availability == "pause" || r.availability == "drain")
               && ObjectName(r.serviceId))
    ensures r.operation == NodeRole ==>
              (Rendered(r) <==> (r.role == "promote" || r.role == "demote") && ObjectName(r.serviceId))
    ensures r.operation == NodeLabelAdd ==>
              (Rendered(r) <==>
               ObjectName(r.serviceId) && NameOf(r.key, "_./-", 63) && NameOf(r.value, "_.:/@ -", 128))
    ensures r.operation == NodeLabelRemove ==>
              (Rendered(r) <==> ObjectName(r.serviceId) && NameOf(r.key, "_./-", 63))
  {
    ReferenceIff(r.serviceId);
    LabelKeyIff(r.key);
    LabelValueIff(r.value);
  }

  lemma CountsAccepted(r: Request)
    ensures r.operation == ServiceScale ==> (Rendered(r) <==> ObjectName(r.serviceId) && r.replicas <= 1000)
    ensures r.operation == ServiceLogs ==> (Rendered(r) <==> ObjectName(r.serviceId) && 1 <= r.tail <= 1000)
    ensures r.operation == SwarmUpdate ==> (Rendered(r) <==> 1 <= r.limit <= 1000)
    ensures r.operation == SwarmTokenRotate ==> (Rendered(r) <==> r.role == "worker" || r.role == "manager")
  {
    ReferenceIff(r.serviceId);
  }

  ghost predicate AnImage(s: string) {
    exists first, path, tag, digest :: Image(s, first, path, tag, digest)
  }

  /** A number below a hundred, with up to three decimals. */
  ghost predicate Cores(s: string) {
    exists n: nat, f :: CoresOf(s, n, f)
  }

  /** One to 999999 megabytes or gigabytes. */
  ghost predicate Memory(s: string) {
    exists n: nat :: Amount(s, n)
  }

  lemma AnImageIff(s: string)
    ensures ImageRef(s) <==> AnImage(s)
  {
    ImageIff(s);
  }

  lemma ImagesAccepted(r: Request)
    ensures r.operation == ServiceImage ==> (Rendered(r) <==> ObjectName(r.serviceId) && AnImage(r.image))
    ensures r.operation == ImagePull || r.operation == ImageRemove ==> (Rendered(r) <==> AnImage(r.image))
  {
    ReferenceIff(r.serviceId);
    AnImageIff(r.image);
  }

  lemma CoresIff(s: string)
    ensures CpuLimit(s) <==> Cores(s)
  {
    CpuLimitIff(s);
  }

  lemma MemoryIff(s: string)
    ensures MemoryLimit(s) <==> Memory(s)
  {
    MemoryLimitIff(s);
  }

  lemma LimitsAccepted(r: Request)
    requires r.operation == ServiceLimits
    ensures Rendered(r) <==> ObjectName(r.serviceId) && Cores(r.cpuLimit) && Memory(r.memoryLimit)
  {
    ReferenceIff(r.serviceId);
    CoresIff(r.cpuLimit);
    MemoryIff(r.memoryLimit);
  }

  lemma StacksAccepted(r: Request)
    ensures r.operation == StackConfig ==> (Rendered(r) <==> 1 <= |r.compose| <= 1_048_576)
    ensures r.operation == StackDeploy ==>
              (Rendered(r) <==> 1 <= |r.compose| <= 1_048_576 && SmallNameOf(r.name, "_-", 63))
    ensures r.operation == StackRemove ==> (Rendered(r) <==> SmallNameOf(r.name, "_-", 63))
  {
    StackNameIff(r.name);
  }

  lemma NamesAccepted(r: Request)
    requires r.operation in [NetworkRemove, VolumeCreate, VolumeRemove, ConfigRemove]
    ensures Rendered(r) <==> NameOf(r.name, "_.-", 63)
  {
    ResourceNameIff(r.name);
  }

  /** An ordinary network may be encrypted only as an overlay; the ingress is the
      overlay of that name, with no option but a block and a gateway inside it. */
  lemma NetworksAccepted(r: Request)
    requires r.operation == NetworkCreate
    ensures !r.ingress ==>
              (Rendered(r) <==>
               && NameOf(r.name, "_.-", 63) && (r.driver == "overlay" || r.driver == "bridge")
               && (r.encrypted ==> r.driver == "overlay"))
    ensures r.ingress ==>
              (Rendered(r) <==>
               && r.name == "ingress" && r.driver == "overlay" && !r.attachable && !r.isolated && !r.encrypted
               && exists network: Octets, bits: nat, host: Octets :: Routable(r.subnet, r.gateway, network, bits, host))
  {
    ResourceNameIff(r.name);
    ValidIngressIff(r.subnet, r.gateway);
    assert NameOf("ingress", "_.-", 63);
  }

  predicate SecretText(s: string) {
    16 <= |s| <= 512 && forall i :: 0 <= i < |s| ==> Letter(s[i]) || Numeral(s[i]) || s[i] in "+/=_.:@?&-"
  }

  lemma SecretTextIff(s: string)
    ensures SecretValue(s) <==> SecretText(s)
  {
  }

  /** `operator:` and a bcrypt hash of the given variant and cost. */
  predicate Login(s: string, variant: char, cost: nat, hash: string) {
    && variant in "aby" && 4 <= cost <= 31
    && |hash| == 53 && (forall i :: 0 <= i < 53 ==> Letter(hash[i]) || Numeral(hash[i]) || hash[i] in "./")
    && s == "operator:$2" + [variant, '$', '0' + (cost / 10) as char, '0' + (cost % 10) as char, '$'] + hash
  }

  lemma LoginIsAuth(s: string, variant: char, cost: nat, hash: string)
    requires Login(s, variant, cost, hash)
    ensures DashboardAuth(s)
  {
    assert s[..11] == "operator:$2" && s[16..] == hash;
    TwoDigits(s[13], s[14]);
    assert s[13..15] == [s[13], s[14]];
  }

  lemma AuthIsLogin(s: string)
    requires DashboardAuth(s)
    ensures Login(s, s[11], Value(s[13..15]), s[16..])
  {
    TwoDigits(s[13], s[14]);
    assert s[13..15] == [s[13], s[14]];
    assert s == s[..11] + s[11..16] + s[16..];
    assert s[11..16] == [s[11], s[12], s[13], s[14], s[15]];
  }

  lemma LoginIff(s: string)
    ensures DashboardAuth(s) <==> exists variant, cost: nat, hash :: Login(s, variant, cost, hash)
  {
    if DashboardAuth(s) {
      AuthIsLogin(s);
    }
    forall variant, cost: nat, hash | Login(s, variant, cost, hash) ensures DashboardAuth(s) {
      LoginIsAuth(s, variant, cost, hash);
    }
  }

  ghost predicate ALogin(s: string) {
    exists variant, cost: nat, hash :: Login(s, variant, cost, hash)
  }

  /** The dashboard's secret is a login, any other is plain text. */
  ghost predicate SecretFits(name: string, secret: string) {
    if HasPrefix(name, "traefik_dashboard_auth_v") then ALogin(secret) else SecretText(secret)
  }

  lemma SecretFitsIff(name: string, secret: string)
    ensures ValidSecret(name, secret) <==> SecretFits(name, secret)
  {
    SecretTextIff(secret);
    LoginIff(secret);
  }

  lemma SecretsAccepted(r: Request)
    requires r.operation == SecretCreate
    ensures Rendered(r) <==> SecretName(r.name) && SecretFits(r.name, r.secret)
  {
    SecretNameIff(r.name);
    SecretFitsIff(r.name, r.secret);
  }

  /** A DNS provider's secret, of one of the two providers. */
  ghost predicate RemovableName(s: string) {
    || (exists name, n: nat :: SmallNameOf(name, "_", 63) && Spelled(s, "traefik_dns_cloudflare_", name, n))
    || (exists name, n: nat :: SmallNameOf(name, "_", 63) && Spelled(s, "traefik_dns_arvan_", name, n))
  }

  lemma RemovableNameIff(s: string)
    ensures RemovableDnsSecret(s) <==> RemovableName(s)
  {
    VersionedIff(s, "traefik_dns_cloudflare_", 62);
    VersionedIff(s, "traefik_dns_arvan_", 62);
  }

  lemma RemovalsAccepted(r: Request)
    requires r.operation == SecretRemove
    ensures Rendered(r) <==> RemovableName(r.name)
  {
    RemovableNameIff(r.name);
  }

  /** `prefix` and so many hexadecimal digits. */
  predicate Hashed(s: string, prefix: string, count: nat) {
    && HasPrefix(s, prefix) && |s| == |prefix| + count
    && forall i :: |prefix| <= i < |s| ==> Numeral(s[i]) || 'a' <= s[i] <= 'f'
  }

  lemma HashedIff(s: string, prefix: string, count: nat)
    ensures HexTail(s, prefix, count) <==> Hashed(s, prefix, count)
  {
    if Hashed(s, prefix, count) {
      assert forall i :: 0 <= i < count ==> s[|prefix|..][i] == s[|prefix| + i];
    }
    if HexTail(s, prefix, count) {
      assert forall i :: |prefix| <= i < |s| ==> s[i] == s[|prefix|..][i - |prefix|];
    }
  }

  ghost predicate VersionOf(s: string, prefix: string) {
    exists n: nat :: Spelled(s, prefix, "", n)
  }

  lemma VersionOfIff(s: string, prefix: string)
    ensures FixedVersioned(s, prefix) <==> VersionOf(s, prefix)
  {
    FixedVersionedIff(s, prefix);
  }

  ghost predicate ConfigName(s: string) {
    || Hashed(s, "swarmops_traefik_static_v1_", 16)
    || VersionOf(s, "nim_traefik_dynamic")
    || VersionOf(s, "swarmops_prometheus_config")
    || VersionOf(s, "swarmops_prometheus_rules")
    || VersionOf(s, "swarmops_alertmanager_config")
    || VersionOf(s, "swarmops_jaeger_config")
    || VersionOf(s, "swarmops_fluentd_aggregator")
    || VersionOf(s, "swarmops_fluentd_forwarder")
    || Hashed(s, "swarmops_postgres_app_bootstrap_", 12)
    || Hashed(s, "swarmops_mongo_app_bootstrap_", 12)
    || Hashed(s, "swarmops_redis_app_bootstrap_", 12)
  }

  lemma ConfigNameIff(s: string)
    ensures ManagedConfig(s) <==> ConfigName(s)
  {
    HashedIff(s, "swarmops_traefik_static_v1_", 16);
    VersionOfIff(s, "nim_traefik_dynamic");
    VersionOfIff(s, "swarmops_prometheus_config");
    VersionOfIff(s, "swarmops_prometheus_rules");
    VersionOfIff(s, "swarmops_alertmanager_config");
    VersionOfIff(s, "swarmops_jaeger_config");
    VersionOfIff(s, "swarmops_fluentd_aggregator");
    VersionOfIff(s, "swarmops_fluentd_forwarder");
    HashedIff(s, "swarmops_postgres_app_bootstrap_", 12);
    HashedIff(s, "swarmops_mongo_app_bootstrap_", 12);
    HashedIff(s, "swarmops_redis_app_bootstrap_", 12);
  }

  predicate ConfigText(s: string) {
    1 <= |s| <= 65_536 && forall i :: 0 <= i < |s| ==> s[i] != '\0'
  }

  lemma ConfigTextIff(s: string)
    ensures ValidConfig(s) <==> ConfigText(s)
  {
  }

  lemma ConfigsAccepted(r: Request)
    requires r.operation == ConfigCreate
    ensures Rendered(r) <==> ConfigName(r.name) && ConfigText(r.config)
  {
    ConfigNameIff(r.name);
    ConfigTextIff(r.config);
  }

  /** Lists and prunes take no name and are always rendered; what is not in the
      vocabulary never is. */
  lemma OthersAccepted(r: Request)
    ensures r.operation in [SecretList, ConfigList, NetworkPrune, VolumePrune, ImagePrune, ContainerPrune, BuilderPrune]
            ==> Rendered(r)
    ensures r.operation.Unsupported? ==> !Rendered(r)
  {
  }
}
