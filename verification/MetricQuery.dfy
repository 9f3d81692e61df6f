/** Reading a metric: a query is normalised against a closed table of series and
    then turned into an expression. Times are in nanoseconds, zero is the zero
    time, and the table is a parameter so that every result holds of any table. */
module MetricQuery {
  import opened Basics
  import opened Text
  import opened MetricStep

  const SIX_HOURS: int := 6 * 3600 * SECOND

  /** `pieces` is the query template cut at its placeholders. */
  datatype Definition = Definition(pieces: seq<string>, unit: string, selectors: seq<string>)

  type Table = map<string, map<string, Definition>>

  datatype Query = Query(
    application: string, container: string, from: int, machine: string,
    scope: string, series: string, stepSeconds: int, to: int)

  predicate SeriesName(s: string) {
    Word(s, Lower, c => LowerOrDigit(c) || c == '-', 31)
  }

  predicate SelectorValue(s: string) {
    Word(s, Alphanumeric, c => Alphanumeric(c) || c in "._-", 127)
  }

  function Select(q: Query, name: string): Option<string> {
    if name == "machine" then Some(q.machine)
    else if name == "container" then Some(q.container)
    else if name == "applicationService" || name == "application" then Some(q.application)
    else None
  }

  predicate SelectorsHold(q: Query, selectors: seq<string>) {
    forall i :: 0 <= i < |selectors| ==> Select(q, selectors[i]).Some? && SelectorValue(Select(q, selectors[i]).value)
  }

  lemma SelectorsReadThreeFields(q: Query, r: Query, selectors: seq<string>)
    requires q.machine == r.machine && q.container == r.container && q.application == r.application
    ensures SelectorsHold(q, selectors) == SelectorsHold(r, selectors)
  {
    assert forall name :: Select(q, name) == Select(r, name);
  }

  predicate Known(table: Table, scope: string, series: string) {
    scope in table && series in table[scope]
  }

  // ----- Normalising, as a value -----

  function Named(q: Query): Query {
    q.(scope := Trim(q.scope), series := Trim(q.series))
  }

  function Windowed(q: Query, now: int): Query {
    var to := if q.to == 0 then now else q.to;
    q.(to := to, from := if q.from == 0 then to - SIX_HOURS else q.from)
  }

  predicate AcceptedWindow(q: Query) {
    q.from < q.to && q.to - q.from <= MAX_RANGE
  }

  function Chosen(range: int, stepSeconds: int): int {
    if range > 0 then StepSeconds(range, stepSeconds) else stepSeconds
  }

  function Stepped(q: Query): Query {
    q.(stepSeconds := Chosen(q.to - q.from, q.stepSeconds))
  }

  function Trimmed(q: Query): Query {
    q.(application := Trim(q.application), container := Trim(q.container), machine := Trim(q.machine))
  }

  /** Whether a query is admitted; each condition is one of the refusals. */
  predicate Admitted(table: Table, q: Query, now: int) {
    var named := Named(q);
    && SeriesName(named.series) && Known(table, named.scope, named.series)
    && AcceptedWindow(Windowed(named, now))
    && SelectorsHold(Trimmed(named), table[named.scope][named.series].selectors)
  }

  /** What an admitted query is rewritten to. */
  function Normal(q: Query, now: int): Query {
    Trimmed(Stepped(Windowed(Named(q), now)))
  }

  // ----- Expressions -----

  /** A template has one placeholder per selector. */
  ghost predicate WellFormed(table: Table) {
    forall scope, series :: Known(table, scope, series) ==>
                              |table[scope][series].pieces| == |table[scope][series].selectors| + 1
  }

  function Filled(q: Query, selector: string): string {
    var value := Select(q, selector);
    if value.None? then "" else if selector == "applicationService" then value.value + "@.*" else value.value
  }

  function Values(q: Query, selectors: seq<string>): seq<string> {
    seq(|selectors|, i requires 0 <= i < |selectors| => Filled(q, selectors[i]))
  }

  /** `fmt.Sprintf` with every value quoted; plain characters need no escape. */
  function Weave(pieces: seq<string>, values: seq<string>): string
    requires |pieces| == |values| + 1
    decreases |values|
  {
    if values == [] then pieces[0] else pieces[0] + ("\"" + values[0] + ['"'] + Weave(pieces[1..], values[1..]))
  }

  function ExpressionOf(table: Table, q: Query): Result<string>
    requires WellFormed(table)
  {
    if !Known(table, q.scope, q.series) then Err("unknown metric reading")
    else
      var definition := table[q.scope][q.series];
      if !SelectorsHold(q, definition.selectors) then Err("metric selector was not validated")
      else Ok(Weave(definition.pieces, Values(q, definition.selectors)))
  }

  // ----- Normalising, as the object does it -----

  class MetricQuery {
    var application: string
    var container: string
    var from: int
    var machine: string
    var scope: string
    var series: string
    var stepSeconds: int
    var to: int

    ghost function View(): Query
      reads this
    {
      Query(application, container, from, machine, scope, series, stepSeconds, to)
    }

    /** On refusal the receiver may already be partly rewritten; the callers drop it. */
    method Normalize(table: Table, now: int) returns (ok: bool)
      modifies this
      ensures ok <==> Admitted(table, old(View()), now)
      ensures ok ==> View() == Normal(old(View()), now)
    {
      scope := Trim(scope);
      series := Trim(series);
      if !SeriesName(series) || scope !in table || series !in table[scope] {
        return false;
      }
      ghost var named := View();
      assert named == Named(old(View()));
      var definition := table[scope][series];
      ok := ChooseWindow(now);
      if !ok {
        return;
      }
      SelectorsReadThreeFields(Trimmed(View()), Trimmed(named), definition.selectors);
      ok := FinishNormal(definition.selectors);
    }

    method ChooseWindow(now: int) returns (ok: bool)
      modifies this`from, this`to
      ensures View() == Windowed(old(View()), now) && (ok <==> AcceptedWindow(View()))
    {
      if to == 0 {
        to := now;
      }
      if from == 0 {
        from := to - SIX_HOURS;
      }
      return from < to && to - from <= MAX_RANGE;
    }

    /** The part of normalising after the window has been accepted. */
    method FinishNormal(selectors: seq<string>) returns (ok: bool)
      requires AcceptedWindow(View())
      modifies this
      ensures View() == Trimmed(Stepped(old(View())))
      ensures ok <==> SelectorsHold(Trimmed(old(View())), selectors)
    {
      var range := to - from;
      ghost var q := View();
      ChooseStep(range);
      ghost var stepped := View();
      assert stepped == Stepped(q);
      application, container, machine := Trim(application), Trim(container), Trim(machine);
      SelectorsReadThreeFields(View(), Trimmed(q), selectors);
      ok := CheckSelectors(selectors);
    }

    method ChooseStep(range: int)
      requires range > 0
      modifies this`stepSeconds
      ensures stepSeconds == StepSeconds(range, old(stepSeconds))
    {
      if stepSeconds <= 0 {
        stepSeconds := range / (240 * SECOND);
      }
      var step := Wrap(stepSeconds * SECOND);
      if step < MIN_STEP {
        step := MIN_STEP;
      }
      if step > MAX_STEP {
        step := MAX_STEP;
      }
      if range / step > MAX_POINTS {
        step := range / MAX_POINTS;
      }
      stepSeconds := RoundToSeconds(step);
      if stepSeconds < 1 {
        stepSeconds := 1;
      }
    }

    method CheckSelectors(selectors: seq<string>) returns (ok: bool)
      ensures ok <==> SelectorsHold(View(), selectors)
    {
      var i := 0;
      while i < |selectors|
        invariant 0 <= i <= |selectors|
        invariant SelectorsHold(View(), selectors[..i])
      {
        var value := Choose(selectors[i]);
        if value.None? || !SelectorValue(value.value) {
          return false;
        }
        assert selectors[..i + 1] == selectors[..i] + [selectors[i]];
        i := i + 1;
      }
      assert selectors[..i] == selectors;
      return true;
    }

    method Choose(name: string) returns (value: Option<string>)
      ensures value == Select(View(), name)
    {
      if name == "machine" {
        return Some(machine);
      }
      if name == "container" {
        return Some(container);
      }
      if name == "applicationService" || name == "application" {
        return Some(application);
      }
      return None;
    }

    /** Fills the values in one by one and builds the expression. */
    method Expression(table: Table) returns (result: Result<string>)
      requires WellFormed(table)
      ensures result == ExpressionOf(table, View())
    {
      if scope !in table || series !in table[scope] {
        return Err("unknown metric reading");
      }
      var definition := table[scope][series];
      var values: seq<string> := [];
      var i := 0;
      while i < |definition.selectors|
        invariant 0 <= i <= |definition.selectors| && |values| == i
        invariant forall k :: 0 <= k < i ==>
                                && Select(View(), definition.selectors[k]).Some?
                                && SelectorValue(Select(View(), definition.selectors[k]).value)
                                && values[k] == Filled(View(), definition.selectors[k])
      {
        var selector := definition.selectors[i];
        var value := Choose(selector);
        if value.None? || !SelectorValue(value.value) {
          return Err("metric selector was not validated");
        }
        values := values + [if selector == "applicationService" then value.value + "@.*" else value.value];
        i := i + 1;
      }
      assert values == Values(View(), definition.selectors);
      return Ok(Weave(definition.pieces, values));
    }
  }
}
