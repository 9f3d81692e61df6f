/** What normalising a metric query guarantees to the machine that runs it. */
module MetricQueryTheorems {
  import opened Basics
  import opened Text
  import opened MetricStep
  import opened MetricQuery

  lemma NamesAreStable(q: Query)
    ensures Named(Named(q)) == Named(q) && Trimmed(Trimmed(q)) == Trimmed(q)
  {
    TrimTwice(q.scope);
    TrimTwice(q.series);
    TrimTwice(q.application);
    TrimTwice(q.container);
    TrimTwice(q.machine);
  }

  /** Normalising with whatever rule chooses the step. */
  function Prepared(q: Query, now: int, choose: (int, int) -> int): Query {
    var w := Windowed(Named(q), now);
    Trimmed(w.(stepSeconds := choose(w.to - w.from, w.stepSeconds)))
  }

  lemma PreparedIsFixed(q: Query, now: int, later: int, k: int)
    requires now != 0 && AcceptedWindow(Windowed(Named(q), now))
    ensures
      var w := Windowed(Named(q), now);
      var n := Trimmed(w.(stepSeconds := k));
      && Named(n) == n && Windowed(n, later) == n && AcceptedWindow(n) && Trimmed(n) == n
      && n == Trimmed(Named(q)).(from := w.from, stepSeconds := k, to := w.to)
  {
    var w := Windowed(Named(q), now);
    NamesAreStable(q);
    NamesAreStable(w.(stepSeconds := k));
    WindowIsStable(Named(q), now, later);
  }

  lemma PreparedAgain(n: Query, later: int, choose: (int, int) -> int)
    requires Named(n) == n && Windowed(n, later) == n && Trimmed(n) == n
    ensures Prepared(n, later, choose) == n.(stepSeconds := choose(n.to - n.from, n.stepSeconds))
  {
  }

  /** Then normalising again is the identity exactly when choosing the step is. */
  lemma PreparedTwice(q: Query, now: int, later: int, choose: (int, int) -> int)
    requires now != 0 && AcceptedWindow(Windowed(Named(q), now))
    ensures
      var w := Windowed(Named(q), now);
      var k := choose(w.to - w.from, w.stepSeconds);
      Prepared(Prepared(q, now, choose), later, choose) == Prepared(q, now, choose) <==> choose(w.to - w.from, k) == k
  {
    var w := Windowed(Named(q), now);
    var k := choose(w.to - w.from, w.stepSeconds);
    PreparedIsFixed(q, now, later, k);
    PreparedAgain(Trimmed(w.(stepSeconds := k)), later, choose);
  }

  lemma NormalIsPrepared(q: Query, now: int)
    ensures Normal(q, now) == Prepared(q, now, Chosen)
  {
  }

  lemma StaysAdmitted(table: Table, q: Query, now: int, later: int)
    requires Admitted(table, q, now) && now != 0
    ensures Admitted(table, Prepared(q, now, Chosen), later)
  {
    var w := Windowed(Named(q), now);
    PreparedIsFixed(q, now, later, Chosen(w.to - w.from, w.stepSeconds));
    var n := Prepared(q, now, Chosen);
    SelectorsReadThreeFields(n, Trimmed(Named(q)), table[n.scope][n.series].selectors);
  }

  /** Normalising an admitted query again, at any later time, admits it again and
      changes nothing, so the machine's own check runs exactly the query the
      controller admitted: if and only if the step is not one rounded past the limit. */
  lemma NormalIsStableIff(table: Table, q: Query, now: int, later: int)
    requires Admitted(table, q, now) && now != 0
    ensures Admitted(table, Normal(q, now), later)
    ensures
      var w := Windowed(Named(q), now);
      Normal(Normal(q, now), later) == Normal(q, now) <==>
      !RoundsPastLimit(w.to - w.from, Wanted(w.to - w.from, q.stepSeconds))
  {
    var w := Windowed(Named(q), now);
    StaysAdmitted(table, q, now, later);
    NormalIsPrepared(q, now);
    NormalIsPrepared(Prepared(q, now, Chosen), later);
    PreparedTwice(q, now, later, Chosen);
    StepSettlesIff(w.to - w.from, w.stepSeconds);
  }

  /** Without overflow it always is stable. */
  lemma NormalIsStable(table: Table, q: Query, now: int, later: int)
    requires Admitted(table, q, now) && now != 0 && NoOverflow(q.stepSeconds)
    ensures Admitted(table, Normal(q, now), later)
    ensures Normal(Normal(q, now), later) == Normal(q, now)
  {
    var w := Windowed(Named(q), now);
    StaysAdmitted(table, q, now, later);
    NormalIsPrepared(q, now);
    NormalIsPrepared(Prepared(q, now, Chosen), later);
    PreparedTwice(q, now, later, Chosen);
    StepSettles(w.to - w.from, w.stepSeconds);
  }

  lemma WindowIsStable(q: Query, now: int, later: int)
    requires now != 0 && AcceptedWindow(Windowed(q, now))
    ensures Windowed(Windowed(q, now), later) == Windowed(q, now)
  {
  }

  /** An admitted query resolves to at most 1650 evaluations, 5 to 3600 seconds
      apart, or to 1652 if the requested step overflows. */
  lemma NormalIsBounded(table: Table, q: Query, now: int)
    requires Admitted(table, q, now)
    ensures
      var n := Normal(q, now);
      && 0 < n.to - n.from <= MAX_RANGE && 5 <= n.stepSeconds <= 3600
      && Points(n.to - n.from, n.stepSeconds) <= if NoOverflow(q.stepSeconds) then 1650 else 1652
  {
    var w := Windowed(Named(q), now);
    StepIsInRange(w.to - w.from, q.stepSeconds);
    PointsAreBounded(w.to - w.from, q.stepSeconds);
  }

  /** A normalised query always has an expression. */
  lemma NormalHasExpression(table: Table, q: Query, now: int)
    requires WellFormed(table) && Admitted(table, q, now)
    ensures ExpressionOf(table, Normal(q, now)).Ok?
  {
    var n := Normal(q, now);
    SelectorsReadThreeFields(n, Trimmed(Named(q)), table[n.scope][n.series].selectors);
  }

  // ----- An expression says which object it reads -----

  ghost predicate QuoteFree(values: seq<string>) {
    forall i :: 0 <= i < |values| ==> '"' !in values[i]
  }

  lemma {:induction false} WeaveIsInjective(pieces: seq<string>, v: seq<string>, w: seq<string>)
    requires |pieces| == |v| + 1 == |w| + 1 && QuoteFree(v) && QuoteFree(w)
    requires Weave(pieces, v) == Weave(pieces, w)
    ensures v == w
    decreases |v|
  {
    if v != [] {
      var restV, restW := Weave(pieces[1..], v[1..]), Weave(pieces[1..], w[1..]);
      var quote: string := "\"";
      assert (pieces[0] + (quote + v[0] + ['"'] + restV))[|pieces[0]| + 1..] == v[0] + ['"'] + restV;
      assert (pieces[0] + (quote + w[0] + ['"'] + restW))[|pieces[0]| + 1..] == w[0] + ['"'] + restW;
      CutAt(v[0], '"', restV);
      CutAt(w[0], '"', restW);
      WeaveIsInjective(pieces[1..], v[1..], w[1..]);
      assert v == [v[0]] + v[1..] && w == [w[0]] + w[1..];
    }
  }

  lemma FilledIsQuoteFree(q: Query, selectors: seq<string>)
    requires SelectorsHold(q, selectors)
    ensures QuoteFree(Values(q, selectors))
  {
    forall i | 0 <= i < |selectors| ensures '"' !in Values(q, selectors)[i] {
      assert SelectorValue(Select(q, selectors[i]).value);
    }
  }

  /** No selector value can leave its quotes: two accepted queries of one series
      with the same expression read the same objects. */
  lemma ExpressionNamesItsObjects(table: Table, q: Query, r: Query, i: nat)
    requires WellFormed(table) && q.scope == r.scope && q.series == r.series
    requires ExpressionOf(table, q).Ok? && ExpressionOf(table, q) == ExpressionOf(table, r)
    requires i < |table[q.scope][q.series].selectors|
    ensures Select(q, table[q.scope][q.series].selectors[i]) == Select(r, table[q.scope][q.series].selectors[i])
  {
    var d := table[q.scope][q.series];
    FilledIsQuoteFree(q, d.selectors);
    FilledIsQuoteFree(r, d.selectors);
    WeaveIsInjective(d.pieces, Values(q, d.selectors), Values(r, d.selectors));
    var s := d.selectors[i];
    assert Values(q, d.selectors)[i] == Values(r, d.selectors)[i];
    var a, b := Select(q, s).value, Select(r, s).value;
    assert s == "applicationService" ==> a == (a + "@.*")[..|a|] && b == (b + "@.*")[..|b|];
  }

  // ----- The table the product ships -----

  function About(subject: string, unit: string): Definition {
    Definition([subject], unit, [])
  }

  function OfMachine(before: string, after: string, unit: string): Definition {
    Definition([before + "{machine=", "}" + after], unit, ["machine"])
  }

  function OfContainer(before: string, after: string, unit: string): Definition {
    Definition([before + "{machine=", ",container=", "}" + after], unit, ["machine", "container"])
  }

  function OfApplication(before: string, after: string, unit: string): Definition {
    Definition([before + "{service=~", after], unit, ["applicationService"])
  }

  /** The text around the selectors of a series. */
  datatype Template = Template(before: string, after: string, unit: string)

  function Machines(m: map<string, Template>): map<string, Definition> {
    map series | series in m :: OfMachine(m[series].before, m[series].after, m[series].unit)
  }

  function Containers(m: map<string, Template>): map<string, Definition> {
    map series | series in m :: OfContainer(m[series].before, m[series].after, m[series].unit)
  }

  function Applications(m: map<string, Template>): map<string, Definition> {
    map series | series in m :: OfApplication(m[series].before, m[series].after, m[series].unit)
  }

  const MACHINE_SERIES: map<string, Template> := map[
    "cpu" := Template("swarmops_machine_cpu_used_ratio", "", "ratio"),
    "cpu-iowait" := Template("swarmops_machine_cpu_iowait_ratio", "", "ratio"),
    "memory" := Template("swarmops_machine_memory_used_bytes", "", "bytes"),
    "memory-total" := Template("swarmops_machine_memory_total_bytes", "", "bytes"),
    "load" := Template("swarmops_machine_load1", "", "load"),
    "network-rx" := Template("sum(rate(swarmops_machine_network_receive_bytes_total", "[5m]))", "bytes/s"),
    "network-tx" := Template("sum(rate(swarmops_machine_network_transmit_bytes_total", "[5m]))", "bytes/s"),
    "disk-read" := Template("sum(rate(swarmops_machine_disk_read_bytes_total", "[5m]))", "bytes/s"),
    "disk-write" := Template("sum(rate(swarmops_machine_disk_write_bytes_total", "[5m]))", "bytes/s"),
    "containers" := Template("swarmops_machine_containers", "", "count")]

  const MACHINE: map<string, Definition> := Machines(MACHINE_SERIES)

  const CONTAINER_SERIES: map<string, Template> := map[
    "cpu" := Template("swarmops_container_cpu_used_ratio", "", "ratio"),
    "memory" := Template("swarmops_container_memory_used_bytes", "", "bytes"),
    "memory-limit" := Template("swarmops_container_memory_limit_bytes", "", "bytes"),
    "network-rx" := Template("rate(swarmops_container_network_receive_bytes_total", "[5m])", "bytes/s"),
    "network-tx" := Template("rate(swarmops_container_network_transmit_bytes_total", "[5m])", "bytes/s"),
    "block-read" := Template("rate(swarmops_container_block_read_bytes_total", "[5m])", "bytes/s"),
    "block-write" := Template("rate(swarmops_container_block_write_bytes_total", "[5m])", "bytes/s")]

  const CONTAINER: map<string, Definition> := Containers(CONTAINER_SERIES)

  const CLUSTER: map<string, Definition> := map[
    "cpu" := About("avg(swarmops_machine_cpu_used_ratio)", "ratio"),
    "memory" := About("sum(swarmops_machine_memory_used_bytes)", "bytes"),
    "memory-total" := About("sum(swarmops_machine_memory_total_bytes)", "bytes"),
    "network-rx" := About("sum(rate(swarmops_machine_network_receive_bytes_total[5m]))", "bytes/s"),
    "network-tx" := About("sum(rate(swarmops_machine_network_transmit_bytes_total[5m]))", "bytes/s"),
    "machines" := About("sum(swarmops_machine_up)", "count"),
    "containers" := About("sum(swarmops_machine_containers)", "count")]

  const APPLICATION_SERIES: map<string, Template> := map[
    "requests" := Template("sum(rate(traefik_service_requests_total", "}[5m]))", "req/s"),
    "errors" := Template("sum(rate(traefik_service_requests_total", ",code=~\"5..\"}[5m]))", "req/s"),
    "latency-p95" := Template(
      "histogram_quantile(0.95, sum by (le) (rate(traefik_service_request_duration_seconds_bucket", "}[5m])))", "seconds")]

  const APPLICATION: map<string, Definition> := Applications(APPLICATION_SERIES)

  const GATEWAY: map<string, Definition> := map[
    "requests" := About("sum(rate(traefik_entrypoint_requests_total[5m]))", "req/s"),
    "errors" := About("sum(rate(traefik_entrypoint_requests_total{code=~\"5..\"}[5m]))", "req/s"),
    "latency-p95" := About(
      "histogram_quantile(0.95, sum by (le) (rate(traefik_entrypoint_request_duration_seconds_bucket[5m])))", "seconds"),
    "bytes-out" := About("sum(rate(traefik_entrypoint_responses_bytes_total[5m]))", "bytes/s")]

  function Scopes(machine: map<string, Definition>, container: map<string, Definition>, cluster: map<string, Definition>,
                  application: map<string, Definition>, gateway: map<string, Definition>): Table {
    map["machine" := machine, "container" := container, "cluster" := cluster,
        "application" := application, "gateway" := gateway]
  }

  const TABLE: Table := Scopes(MACHINE, CONTAINER, CLUSTER, APPLICATION, GATEWAY)

  /** One placeholder per selector, in every series of a scope. */
  ghost predicate Fits(definitions: map<string, Definition>) {
    forall series :: series in definitions ==>
                       |definitions[series].pieces| == |definitions[series].selectors| + 1
  }

  lemma MachineFits()
    ensures Fits(MACHINE)
  {
  }

  lemma ContainerFits()
    ensures Fits(CONTAINER)
  {
  }

  lemma ClusterFits()
    ensures Fits(CLUSTER)
  {
  }

  lemma TrafficFits()
    ensures Fits(APPLICATION) && Fits(GATEWAY)
  {
  }

  lemma ScopesAreWellFormed(
    machine: map<string, Definition>, container: map<string, Definition>, cluster: map<string, Definition>,
    application: map<string, Definition>, gateway: map<string, Definition>)
    requires Fits(machine) && Fits(container) && Fits(cluster) && Fits(application) && Fits(gateway)
    ensures WellFormed(Scopes(machine, container, cluster, application, gateway))
  {
  }

  lemma TableIsWellFormed()
    ensures WellFormed(TABLE)
  {
    MachineFits();
    ContainerFits();
    ClusterFits();
    TrafficFits();
    ScopesAreWellFormed(MACHINE, CONTAINER, CLUSTER, APPLICATION, GATEWAY);
  }
}
