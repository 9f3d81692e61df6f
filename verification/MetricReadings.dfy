/** The readings there are: which queries of the shipped table are admitted, and
    exactly what each is turned into. */
module MetricReadings {
  import opened Basics
  import opened Text
  import opened MetricStep
  import opened MetricQuery
  import opened MetricQueryTheorems

  // ----- The shape of each scope -----

  /** The fields a scope's readings name, in the order of their placeholders. */
  function SelectorsOf(scope: string): seq<string> {
    if scope == "machine" then ["machine"]
    else if scope == "container" then ["machine", "container"]
    else if scope == "application" then ["applicationService"]
    else []
  }

  ghost predicate MachineTemplate(pieces: seq<string>) {
    exists before: string, after: string :: pieces == [before + "{machine=", "}" + after]
  }

  ghost predicate ContainerTemplate(pieces: seq<string>) {
    exists before: string, after: string :: pieces == [before + "{machine=", ",container=", "}" + after]
  }

  ghost predicate ApplicationTemplate(pieces: seq<string>) {
    exists before: string, after: string :: pieces == [before + "{service=~", after]
  }

  /** Each placeholder stands behind the label of its field. */
  ghost predicate TemplateOf(scope: string, pieces: seq<string>) {
    if scope == "machine" then MachineTemplate(pieces)
    else if scope == "container" then ContainerTemplate(pieces)
    else if scope == "application" then ApplicationTemplate(pieces)
    else |pieces| == 1
  }

  ghost predicate Shaped(scope: string, definitions: map<string, Definition>) {
    forall series :: series in definitions ==>
                       && definitions[series].selectors == SelectorsOf(scope)
                       && TemplateOf(scope, definitions[series].pieces)
  }

  lemma MachinesShape(m: map<string, Template>)
    ensures Shaped("machine", Machines(m))
  {
    forall series | series in m ensures MachineTemplate(Machines(m)[series].pieces) {
    }
  }

  lemma ContainersShape(m: map<string, Template>)
    ensures Shaped("container", Containers(m))
  {
    forall series | series in m ensures ContainerTemplate(Containers(m)[series].pieces) {
    }
  }

  lemma ApplicationsShape(m: map<string, Template>)
    ensures Shaped("application", Applications(m))
  {
    forall series | series in m ensures ApplicationTemplate(Applications(m)[series].pieces) {
    }
  }

  lemma ClusterShape()
    ensures Shaped("cluster", CLUSTER) && Shaped("gateway", GATEWAY)
  {
  }

  lemma TableShape()
    ensures Shaped("machine", MACHINE) && Shaped("container", CONTAINER) && Shaped("application", APPLICATION)
  {
    MachinesShape(MACHINE_SERIES);
    ContainersShape(CONTAINER_SERIES);
    ApplicationsShape(APPLICATION_SERIES);
  }

  lemma MachineNames()
    ensures forall series :: series in MACHINE ==> SeriesName(series)
  {
  }

  lemma ContainerNames()
    ensures forall series :: series in CONTAINER ==> SeriesName(series)
  {
  }

  lemma ClusterNames()
    ensures forall series :: series in CLUSTER ==> SeriesName(series)
  {
  }

  lemma ApplicationNames()
    ensures forall series :: series in APPLICATION ==> SeriesName(series)
  {
  }

  lemma GatewayNames()
    ensures forall series :: series in GATEWAY ==> SeriesName(series)
  {
  }

  lemma ScopeIs(machine: map<string, Definition>, container: map<string, Definition>, cluster: map<string, Definition>,
                application: map<string, Definition>, gateway: map<string, Definition>, scope: string)
    requires scope in Scopes(machine, container, cluster, application, gateway)
    ensures
      Scopes(machine, container, cluster, application, gateway)[scope] ==
      if scope == "machine" then machine
      else if scope == "container" then container
      else if scope == "application" then application
      else if scope == "cluster" then cluster
      else gateway
  {
  }

  lemma SeriesIsNamed(scope: string, series: string)
    requires Known(TABLE, scope, series)
    ensures SeriesName(series)
  {
    MachineNames();
    ContainerNames();
    ClusterNames();
    ApplicationNames();
    GatewayNames();
    ScopeIs(MACHINE, CONTAINER, CLUSTER, APPLICATION, GATEWAY, scope);
  }

  lemma SelectorsAre(scope: string, series: string)
    requires Known(TABLE, scope, series)
    ensures TABLE[scope][series].selectors == SelectorsOf(scope)
    ensures TemplateOf(scope, TABLE[scope][series].pieces)
  {
    TableShape();
    ClusterShape();
    ScopeIs(MACHINE, CONTAINER, CLUSTER, APPLICATION, GATEWAY, scope);
  }

  // ----- Admission -----

  predicate Selector(s: string) {
    NameOf(s, "._-", 128)
  }

  lemma SelectorIff(s: string)
    ensures SelectorValue(s) <==> Selector(s)
  {
  }

  /** The fields a scope reads, trimmed, are names. */
  predicate FieldsFit(scope: string, q: Query) {
    if scope == "machine" then Selector(Trim(q.machine))
    else if scope == "container" then Selector(Trim(q.machine)) && Selector(Trim(q.container))
    else if scope == "application" then Selector(Trim(q.application))
    else true
  }

  predicate Holds(q: Query, name: string) {
    Select(q, name).Some? && SelectorValue(Select(q, name).value)
  }

  lemma OneHolds(q: Query, name: string)
    ensures SelectorsHold(q, [name]) <==> Holds(q, name)
  {
    assert [name][0] == name;
  }

  lemma TwoHold(q: Query, a: string, b: string)
    ensures SelectorsHold(q, [a, b]) <==> Holds(q, a) && Holds(q, b)
  {
    assert [a, b][0] == a && [a, b][1] == b;
  }

  lemma FieldsFitIff(scope: string, q: Query)
    ensures SelectorsHold(Trimmed(q), SelectorsOf(scope)) <==> FieldsFit(scope, q)
  {
    var t := Trimmed(q);
    if scope == "machine" {
      OneHolds(t, "machine");
      SelectorIff(t.machine);
    } else if scope == "container" {
      TwoHold(t, "machine", "container");
      SelectorIff(t.machine);
      SelectorIff(t.container);
    } else if scope == "application" {
      OneHolds(t, "applicationService");
      SelectorIff(t.application);
    }
  }

  /** A window ends now and begins six hours earlier, unless asked otherwise. */
  function EndOf(q: Query, now: int): int {
    if q.to == 0 then now else q.to
  }

  function StartOf(q: Query, now: int): int {
    if q.from == 0 then EndOf(q, now) - 21_600_000_000_000 else q.from
  }

  /** A query is admitted exactly if its series is in the table, its window runs
      forward for at most seven days, and the fields its scope reads are names. */
  lemma AdmittedIff(q: Query, now: int)
    ensures
      var scope, series := Trim(q.scope), Trim(q.series);
      Admitted(TABLE, q, now) <==>
      && Known(TABLE, scope, series)
      && StartOf(q, now) < EndOf(q, now) <= StartOf(q, now) + 604_800_000_000_000
      && FieldsFit(scope, q)
  {
    var scope, series := Trim(q.scope), Trim(q.series);
    if Known(TABLE, scope, series) {
      SeriesIsNamed(scope, series);
      SelectorsAre(scope, series);
      FieldsFitIff(scope, Named(q));
    }
  }

  /** What normalising leaves in every field but the step. */
  lemma NormalFields(q: Query, now: int)
    ensures Normal(q, now).to == EndOf(q, now) && Normal(q, now).from == StartOf(q, now)
    ensures Normal(q, now).scope == Trim(q.scope) && Normal(q, now).series == Trim(q.series)
    ensures Normal(q, now).machine == Trim(q.machine) && Normal(q, now).container == Trim(q.container)
    ensures Normal(q, now).application == Trim(q.application)
  {
  }

  // ----- Expressions -----

  function Quoted(s: string): string {
    "\"" + s + "\""
  }

  lemma WeaveOne(a: string, b: string, v: string)
    ensures Weave([a, b], [v]) == a + Quoted(v) + b
  {
    assert [a, b][1..] == [b] && [v][1..] == [];
    assert Weave([b], []) == b;
    assert a + ("\"" + v + ['"'] + b) == a + Quoted(v) + b;
  }

  lemma WeaveTwo(a: string, b: string, c: string, u: string, v: string)
    ensures Weave([a, b, c], [u, v]) == a + Quoted(u) + b + Quoted(v) + c
  {
    assert [a, b, c][1..] == [b, c] && [u, v][1..] == [v];
    WeaveOne(b, c, v);
    assert a + ("\"" + u + ['"'] + (b + Quoted(v) + c)) == a + Quoted(u) + b + Quoted(v) + c;
  }

  /** The text of a reading, with the quoted fields in their places. */
  ghost function TextOf(scope: string, pieces: seq<string>, q: Query): string
    requires TemplateOf(scope, pieces)
  {
    if scope == "machine" then pieces[0] + Quoted(Trim(q.machine)) + pieces[1]
    else if scope == "container" then
      pieces[0] + Quoted(Trim(q.machine)) + pieces[1] + Quoted(Trim(q.container)) + pieces[2]
    else if scope == "application" then pieces[0] + Quoted(Trim(q.application) + "@.*") + pieces[1]
    else pieces[0]
  }

  lemma ValuesAre(n: Query, scope: string)
    ensures
      Values(n, SelectorsOf(scope)) ==
      if scope == "machine" then [n.machine]
      else if scope == "container" then [n.machine, n.container]
      else if scope == "application" then [n.application + "@.*"]
      else []
  {
  }

  lemma WovenText(scope: string, pieces: seq<string>, n: Query, q: Query)
    requires TemplateOf(scope, pieces)
    requires n.machine == Trim(q.machine) && n.container == Trim(q.container) && n.application == Trim(q.application)
    ensures |pieces| == |SelectorsOf(scope)| + 1
    ensures Weave(pieces, Values(n, SelectorsOf(scope))) == TextOf(scope, pieces, q)
  {
    ValuesAre(n, scope);
    if scope == "machine" {
      WeaveOne(pieces[0], pieces[1], n.machine);
      assert pieces == [pieces[0], pieces[1]];
    } else if scope == "container" {
      WeaveTwo(pieces[0], pieces[1], pieces[2], n.machine, n.container);
      assert pieces == [pieces[0], pieces[1], pieces[2]];
    } else if scope == "application" {
      WeaveOne(pieces[0], pieces[1], n.application + "@.*");
      assert pieces == [pieces[0], pieces[1]];
    }
  }

  /** Every admitted query of the shipped table becomes its template with the quoted
      machine, machine and container, or application behind their labels. */
  lemma ExpressionIs(q: Query, now: int)
    requires Admitted(TABLE, q, now)
    ensures WellFormed(TABLE)
    ensures
      var scope, series := Trim(q.scope), Trim(q.series);
      && Known(TABLE, scope, series) && TemplateOf(scope, TABLE[scope][series].pieces)
      && ExpressionOf(TABLE, Normal(q, now)) == Ok(TextOf(scope, TABLE[scope][series].pieces, q))
  {
    var scope, series := Trim(q.scope), Trim(q.series);
    var n := Normal(q, now);
    NormalFields(q, now);
    TableIsWellFormed();
    NormalHasExpression(TABLE, q, now);
    SelectorsAre(scope, series);
    WovenText(scope, TABLE[scope][series].pieces, n, q);
  }

  /** The fields a scope reads are the same. */
  predicate SameObject(scope: string, q: Query, r: Query) {
    && (scope == "machine" || scope == "container" ==> Trim(q.machine) == Trim(r.machine))
    && (scope == "container" ==> Trim(q.container) == Trim(r.container))
    && (scope == "application" ==> Trim(q.application) == Trim(r.application))
  }

  /** Two admitted queries of one series have the same expression exactly if they
      read the same machine, container or application. */
  lemma SameExpressionIff(q: Query, r: Query, now: int, later: int)
    requires Admitted(TABLE, q, now) && Admitted(TABLE, r, later)
    requires Trim(q.scope) == Trim(r.scope) && Trim(q.series) == Trim(r.series)
    ensures WellFormed(TABLE)
    ensures ExpressionOf(TABLE, Normal(q, now)) == ExpressionOf(TABLE, Normal(r, later)) <==> SameObject(Trim(q.scope), q, r)
  {
    ExpressionIs(q, now);
    ExpressionIs(r, later);
    NormalFields(q, now);
    NormalFields(r, later);
    var scope, series := Trim(q.scope), Trim(q.series);
    if ExpressionOf(TABLE, Normal(q, now)) == ExpressionOf(TABLE, Normal(r, later)) {
      SelectorsAre(scope, series);
      SameFields(scope, Normal(q, now), Normal(r, later), series);
    }
  }

  lemma SameFields(scope: string, n: Query, m: Query, series: string)
    requires WellFormed(TABLE) && n.scope == m.scope == scope && n.series == m.series == series
    requires ExpressionOf(TABLE, n).Ok? && ExpressionOf(TABLE, n) == ExpressionOf(TABLE, m)
    requires Known(TABLE, scope, series) && TABLE[scope][series].selectors == SelectorsOf(scope)
    ensures scope == "machine" || scope == "container" ==> n.machine == m.machine
    ensures scope == "container" ==> n.container == m.container
    ensures scope == "application" ==> n.application == m.application
  {
    if scope == "machine" || scope == "container" || scope == "application" {
      ExpressionNamesItsObjects(TABLE, n, m, 0);
    }
    if scope == "container" {
      ExpressionNamesItsObjects(TABLE, n, m, 1);
    }
  }
}
