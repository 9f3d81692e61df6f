/** Every interleaving of cache calls, fetches, forgets and replies. */
module MetricsCacheRuns {
  import opened MetricsDocument
  import opened MetricsCache
  import opened Sanitize

  /** Where one call of `get`, and the endpoint around it, stands. */
  datatype Phase =
    | Ready(now: int)
    | Waiting(waitsFor: nat)
    | Fetching(channel: nat)
    | Fetched(channel: nat, outcome: Outcome)
    | Closing(channel: nat, reply: Sample)
    | Returned(reply: Sample)
    | Served(reply: Sample, at: int)
    | Refused

  datatype Caller = Caller(id: string, phase: Phase)

  /** A finished fetch: whose, whether it succeeded, the document as it arrived. */
  datatype Record = Record(id: string, ok: bool, raw: Document, at: int)

  /** What sanitising a document at a time gives; sorting settles ties in some way
      of its own. */
  type Sanitizer = (Document, int) -> Document

  /** `fetches` records every finished fetch; `channels` counts the channels made. */
  datatype World = World(
    cache: Cache, clock: int, channels: nat, closed: set<nat>, callers: seq<Caller>, fetches: seq<Record>,
    sanitize: Sanitizer)

  ghost predicate Sanitizes(sanitize: Sanitizer) {
    forall d, now :: Sanitized(d, now, sanitize(d, now))
  }

  /** There is such a thing. */
  ghost function SomeForm(d: Document, now: int): Document {
    SanitizedExists(d, now);
    var e :| Sanitized(d, now, e);
    e
  }

  lemma SanitizersExist()
    ensures Sanitizes((d, now) => SomeForm(d, now))
  {
  }

  datatype Event =
    | Tick(time: int)
    | Call(id: string)
    | Look(i: nat)
    | Wake(i: nat)
    | Abandon(i: nat)
    | FetchReturns(i: nat, ok: bool, raw: Document)
    | Store(i: nat)
    | Close(i: nat)
    | Reply(i: nat)
    | Drop(id: string)

  /** The zero time: far older than any reply may be. */
  const NEVER: int := 0

  ghost predicate Start(w: World) {
    && w.cache == Cache(map[], map[]) && w.clock > MAX_AGE
    && Sanitizes(w.sanitize) && w.channels == 0 && w.closed == {} && w.callers == [] && w.fetches == []
  }

  predicate Enabled(w: World, e: Event) {
    match e
    case Tick(time) => w.clock <= time
    case Call(_) => true
    case Drop(_) => true
    case Look(i) => i < |w.callers| && w.callers[i].phase.Ready?
    case Wake(i) => i < |w.callers| && w.callers[i].phase.Waiting? && w.callers[i].phase.waitsFor in w.closed
    case Abandon(i) => i < |w.callers| && w.callers[i].phase.Waiting?
    case FetchReturns(i, _, _) => i < |w.callers| && w.callers[i].phase.Fetching?
    case Store(i) => i < |w.callers| && w.callers[i].phase.Fetched?
    case Close(i) => i < |w.callers| && w.callers[i].phase.Closing?
    case Reply(i) => i < |w.callers| && w.callers[i].phase.Returned?
  }

  function SetPhase(w: World, i: nat, phase: Phase): World
    requires i < |w.callers|
  {
    w.(callers := w.callers[i := w.callers[i].(phase := phase)])
  }

  function Step(w: World, e: Event): World
    requires Enabled(w, e)
  {
    match e
    case Tick(time) => w.(clock := time)
    case Call(id) => w.(callers := w.callers + [Caller(id, Ready(w.clock))])
    case Drop(id) => w.(cache := Forget(w.cache, id))
    case Look(i) =>
      var id := w.callers[i].id;
      (match LookUp(w.cache, id, w.callers[i].phase.now)
       case Hit(sample) => SetPhase(w, i, Returned(sample))
       case Wait(channel) => SetPhase(w, i, Waiting(channel))
       case Fetch =>
         SetPhase(w, i, Fetching(w.channels)).(cache := Begin(w.cache, id, w.channels), channels := w.channels + 1))
    case Wake(i) => SetPhase(w, i, Ready(w.clock))
    case Abandon(i) => SetPhase(w, i, Returned(Sample(ZERO_DOCUMENT, NEVER, true)))
    case FetchReturns(i, ok, raw) =>
      var document := if ok then w.sanitize(raw, w.clock) else raw;
      SetPhase(w, i, Fetched(w.callers[i].phase.channel, Outcome(ok, document, w.clock)))
      .(fetches := w.fetches + [Record(w.callers[i].id, ok, raw, w.clock)])
    case Store(i) =>
      var id, phase := w.callers[i].id, w.callers[i].phase;
      SetPhase(w, i, Closing(phase.channel, Refreshed(w.cache, id, phase.outcome)))
      .(cache := Finish(w.cache, id, phase.outcome))
    case Close(i) =>
      SetPhase(w, i, Returned(w.callers[i].phase.reply)).(closed := w.closed + {w.callers[i].phase.channel})
    case Reply(i) =>
      var reply := w.callers[i].phase.reply;
      SetPhase(w, i, if Serves(reply, w.clock) then Served(reply, w.clock) else Refused)
  }

  ghost predicate Legal(w: World, es: seq<Event>)
    decreases |es|
  {
    es == [] || (Enabled(w, es[0]) && Legal(Step(w, es[0]), es[1..]))
  }

  ghost function Run(w: World, es: seq<Event>): World
    requires Legal(w, es)
    decreases |es|
  {
    if es == [] then w else Run(Step(w, es[0]), es[1..])
  }

  // ----- Single flight -----

  predicate Running(phase: Phase) {
    phase.Fetching? || phase.Fetched?
  }

  /** Holds a channel it has yet to close. */
  predicate Owning(phase: Phase) {
    Running(phase) || phase.Closing?
  }

  /** At most one running fetch per machine, registered under its channel; open
      channels have one owner each. */
  ghost predicate FlightOk(w: World) {
    && (forall i :: 0 <= i < |w.callers| && Running(w.callers[i].phase) ==>
                      w.callers[i].id in w.cache.inFlight && w.cache.inFlight[w.callers[i].id] == w.callers[i].phase.channel)
    && (forall i :: 0 <= i < |w.callers| && Owning(w.callers[i].phase) ==>
                      w.callers[i].phase.channel < w.channels && w.callers[i].phase.channel !in w.closed)
    && (forall i, j :: 0 <= i < j < |w.callers| && Owning(w.callers[i].phase) && Owning(w.callers[j].phase) ==>
                         w.callers[i].phase.channel != w.callers[j].phase.channel)
  }

  ghost predicate OwnedOrClosed(callers: seq<Caller>, closed: set<nat>, channel: nat) {
    channel in closed || exists i :: 0 <= i < |callers| && Owning(callers[i].phase) && callers[i].phase.channel == channel
  }

  /** Every waiter's channel, and every registered one, is closed or will be. */
  ghost predicate WaitersOk(w: World) {
    && (forall i :: 0 <= i < |w.callers| && w.callers[i].phase.Waiting? ==>
                      OwnedOrClosed(w.callers, w.closed, w.callers[i].phase.waitsFor))
    && (forall id :: id in w.cache.inFlight ==> OwnedOrClosed(w.callers, w.closed, w.cache.inFlight[id]))
    && (forall channel :: channel in w.closed ==> channel < w.channels)
  }

  lemma StartIsOk(w: World)
    requires Start(w)
    ensures FlightOk(w) && WaitersOk(w) && SamplesOk(w)
  {
    SanitizersDate(w.sanitize);
  }

  lemma LookKeepsFlight(w: World, i: nat)
    requires FlightOk(w) && Enabled(w, Look(i))
    requires forall c :: c in w.closed ==> c < w.channels
    ensures FlightOk(Step(w, Look(i)))
  {
    var t := Step(w, Look(i));
    var id := w.callers[i].id;
    if LookUp(w.cache, id, w.callers[i].phase.now) == Fetch {
      forall j | 0 <= j < |w.callers| && Running(w.callers[j].phase) ensures w.callers[j].id != id {
      }
    }
  }

  lemma StoreKeepsFlight(w: World, i: nat)
    requires FlightOk(w) && Enabled(w, Store(i))
    ensures FlightOk(Step(w, Store(i)))
  {
    var t := Step(w, Store(i));
    forall j | 0 <= j < |t.callers| && Running(t.callers[j].phase)
      ensures t.callers[j].id in t.cache.inFlight && t.cache.inFlight[t.callers[j].id] == t.callers[j].phase.channel
    {
      assert j != i && w.callers[j] == t.callers[j];
      assert w.callers[j].id != w.callers[i].id;
    }
  }

  lemma FetchKeepsFlight(w: World, e: Event)
    requires FlightOk(w) && Enabled(w, e) && (e.FetchReturns? || e.Close?)
    ensures FlightOk(Step(w, e))
  {
  }

  lemma ArrivalsKeepFlight(w: World, e: Event)
    requires FlightOk(w) && Enabled(w, e) && (e.Tick? || e.Call? || e.Drop?)
    ensures FlightOk(Step(w, e))
  {
  }

  lemma WaitersKeepFlight(w: World, e: Event)
    requires FlightOk(w) && Enabled(w, e) && (e.Wake? || e.Abandon?)
    ensures FlightOk(Step(w, e))
  {
  }

  lemma RepliesKeepFlight(w: World, i: nat)
    requires FlightOk(w) && Enabled(w, Reply(i))
    ensures FlightOk(Step(w, Reply(i)))
  {
  }

  lemma StepKeepsFlight(w: World, e: Event)
    requires FlightOk(w) && WaitersOk(w) && Enabled(w, e)
    ensures FlightOk(Step(w, e))
  {
    if e.Look? {
      LookKeepsFlight(w, e.i);
    } else if e.Store? {
      StoreKeepsFlight(w, e.i);
    } else if e.FetchReturns? || e.Close? {
      FetchKeepsFlight(w, e);
    } else if e.Tick? || e.Call? || e.Drop? {
      ArrivalsKeepFlight(w, e);
    } else if e.Reply? {
      RepliesKeepFlight(w, e.i);
    } else {
      WaitersKeepFlight(w, e);
    }
  }

  /** Ownership only ends by closing. */
  lemma OwnedStays(w: World, e: Event, channel: nat)
    requires Enabled(w, e) && OwnedOrClosed(w.callers, w.closed, channel)
    ensures OwnedOrClosed(Step(w, e).callers, Step(w, e).closed, channel)
  {
    if channel !in w.closed {
      var i :| 0 <= i < |w.callers| && Owning(w.callers[i].phase) && w.callers[i].phase.channel == channel;
      var t := Step(w, e);
      assert t.callers[i] == w.callers[i] || channel in t.closed
             || (Owning(t.callers[i].phase) && t.callers[i].phase.channel == channel);
    }
  }

  lemma StepKeepsWaiters(w: World, e: Event)
    requires FlightOk(w) && WaitersOk(w) && Enabled(w, e)
    ensures WaitersOk(Step(w, e))
  {
    var t := Step(w, e);
    forall i | 0 <= i < |t.callers| && t.callers[i].phase.Waiting?
      ensures OwnedOrClosed(t.callers, t.closed, t.callers[i].phase.waitsFor)
    {
      assert OwnedOrClosed(w.callers, w.closed, t.callers[i].phase.waitsFor);
      OwnedStays(w, e, t.callers[i].phase.waitsFor);
    }
    forall id | id in t.cache.inFlight ensures OwnedOrClosed(t.callers, t.closed, t.cache.inFlight[id]) {
      if id in w.cache.inFlight && t.cache.inFlight[id] == w.cache.inFlight[id] {
        OwnedStays(w, e, w.cache.inFlight[id]);
      } else {
        assert t.callers[e.i].phase == Fetching(t.cache.inFlight[id]);
      }
    }
  }

  // ----- Real ages -----

  /** The document is what a successful fetch of that machine, done at that time,
      came to when it was sanitised. */
  ghost predicate FromFetch(fetches: seq<Record>, sanitize: Sanitizer, id: string, at: int, document: Document) {
    exists k :: 0 <= k < |fetches| && fetches[k].id == id && fetches[k].ok && fetches[k].at == at
                && document == sanitize(fetches[k].raw, at)
  }

  /** Measurements carry the completion time of the fetch that produced them; a
      sample without a collection time is a failure. */
  ghost predicate Genuine(w: World, id: string, sample: Sample) {
    && sample.fetchedAt <= w.clock
    && (sample.metrics.collectedAt == 0 ==> sample.failed)
    && (sample.metrics.collectedAt != 0 ==>
          FromFetch(w.fetches, w.sanitize, id, sample.fetchedAt, sample.metrics))
  }

  ghost predicate Dated(sanitize: Sanitizer) {
    forall d, now :: now != 0 ==> sanitize(d, now).collectedAt != 0
  }

  lemma SanitizersDate(sanitize: Sanitizer)
    requires Sanitizes(sanitize)
    ensures Dated(sanitize)
  {
    forall d, now | now != 0 ensures sanitize(d, now).collectedAt != 0 {
      HasATime(d, now, sanitize(d, now));
    }
  }

  lemma FromFetchStays(fetches: seq<Record>, longer: seq<Record>, sanitize: Sanitizer, id: string, at: int, d: Document)
    requires FromFetch(fetches, sanitize, id, at, d) && fetches <= longer
    ensures FromFetch(longer, sanitize, id, at, d)
  {
    var k :| 0 <= k < |fetches| && fetches[k].id == id && fetches[k].ok && fetches[k].at == at
             && d == sanitize(fetches[k].raw, at);
    assert longer[k] == fetches[k];
  }

  lemma GenuineStays(w: World, t: World, id: string, sample: Sample)
    requires Genuine(w, id, sample) && w.fetches <= t.fetches && w.clock <= t.clock && t.sanitize == w.sanitize
    ensures Genuine(t, id, sample)
  {
    if sample.metrics.collectedAt != 0 {
      FromFetchStays(w.fetches, t.fetches, w.sanitize, id, sample.fetchedAt, sample.metrics);
    }
  }

  ghost predicate PhaseOk(w: World, id: string, phase: Phase) {
    match phase
    case Ready(now) => now <= w.clock
    case Fetched(_, o) =>
      && NEVER < o.at <= w.clock && (o.ok ==> FromFetch(w.fetches, w.sanitize, id, o.at, o.document))
      && (id in w.cache.samples ==> w.cache.samples[id].fetchedAt <= o.at)
    case Closing(_, reply) => Genuine(w, id, reply)
    case Returned(reply) => Genuine(w, id, reply)
    case Served(reply, at) => Genuine(w, id, reply) && Serves(reply, at) && reply.fetchedAt <= at <= w.clock
    case _ => true
  }

  ghost predicate SamplesOk(w: World) {
    && w.clock > NEVER && Dated(w.sanitize)
    && (forall id :: id in w.cache.samples ==> Genuine(w, id, w.cache.samples[id]))
    && (forall i :: 0 <= i < |w.callers| ==> PhaseOk(w, w.callers[i].id, w.callers[i].phase))
  }

  /** Steps that leave the samples alone. */
  lemma PhaseStays(w: World, t: World, id: string, phase: Phase)
    requires PhaseOk(w, id, phase) && w.fetches <= t.fetches && w.clock <= t.clock && t.sanitize == w.sanitize
    requires id in t.cache.samples ==> id in w.cache.samples && t.cache.samples[id] == w.cache.samples[id]
    ensures PhaseOk(t, id, phase)
  {
    match phase
    case Fetched(_, o) =>
      if o.ok {
        FromFetchStays(w.fetches, t.fetches, w.sanitize, id, o.at, o.document);
      }
    case Closing(_, reply) => GenuineStays(w, t, id, reply);
    case Returned(reply) => GenuineStays(w, t, id, reply);
    case Served(reply, _) => GenuineStays(w, t, id, reply);
    case _ =>
  }

  lemma RefreshedIsGenuine(w: World, id: string, o: Outcome)
    requires Dated(w.sanitize) && PhaseOk(w, id, Fetched(0, o))
    requires id in w.cache.samples ==> Genuine(w, id, w.cache.samples[id])
    ensures Genuine(w, id, Refreshed(w.cache, id, o))
  {
  }

  lemma StoreKeepsSamples(w: World, i: nat)
    requires FlightOk(w) && SamplesOk(w) && Enabled(w, Store(i))
    ensures SamplesOk(Step(w, Store(i)))
  {
    var t := Step(w, Store(i));
    var id := w.callers[i].id;
    assert PhaseOk(w, id, w.callers[i].phase);
    RefreshedIsGenuine(w, id, w.callers[i].phase.outcome);
    forall x | x in t.cache.samples ensures Genuine(t, x, t.cache.samples[x]) {
      GenuineStays(w, t, x, t.cache.samples[x]);
    }
    forall j | 0 <= j < |t.callers| ensures PhaseOk(t, t.callers[j].id, t.callers[j].phase) {
      StorePhase(w, i, j);
    }
  }

  lemma StorePhase(w: World, i: nat, j: nat)
    requires FlightOk(w) && SamplesOk(w) && Enabled(w, Store(i)) && j < |w.callers|
    ensures
      var t := Step(w, Store(i));
      PhaseOk(t, t.callers[j].id, t.callers[j].phase)
  {
    var t := Step(w, Store(i));
    var id := w.callers[i].id;
    assert PhaseOk(w, w.callers[j].id, w.callers[j].phase);
    if j == i {
      RefreshedIsGenuine(w, id, w.callers[i].phase.outcome);
      GenuineStays(w, t, id, t.callers[i].phase.reply);
    } else if w.callers[j].id != id {
      PhaseStays(w, t, w.callers[j].id, w.callers[j].phase);
    } else {
      assert !w.callers[j].phase.Fetched?;
      PhaseStays(w.(cache := t.cache), t, w.callers[j].id, w.callers[j].phase);
    }
  }

  lemma FetchPhase(w: World, i: nat, ok: bool, raw: Document)
    requires SamplesOk(w) && Enabled(w, FetchReturns(i, ok, raw))
    ensures
      var t := Step(w, FetchReturns(i, ok, raw));
      PhaseOk(t, t.callers[i].id, t.callers[i].phase)
  {
    var t := Step(w, FetchReturns(i, ok, raw));
    assert t.fetches[|w.fetches|] == Record(w.callers[i].id, ok, raw, w.clock);
    var id := w.callers[i].id;
    assert id in w.cache.samples ==> Genuine(w, id, w.cache.samples[id]);
  }

  /** The caller that moved, in any step but a fetch's return and a store. */
  lemma MovedPhase(w: World, e: Event, j: nat)
    requires SamplesOk(w) && Enabled(w, e) && !e.Store? && !e.FetchReturns? && j < |Step(w, e).callers|
    requires j < |w.callers| ==> Step(w, e).callers[j] != w.callers[j]
    ensures PhaseOk(Step(w, e), Step(w, e).callers[j].id, Step(w, e).callers[j].phase)
  {
    var t := Step(w, e);
    if j < |w.callers| {
      assert PhaseOk(w, w.callers[j].id, w.callers[j].phase);
      if t.callers[j].phase.Returned? {
        assert t.callers[j].phase.reply.metrics.collectedAt != 0 ==> Genuine(w, w.callers[j].id, t.callers[j].phase.reply);
      }
    }
  }

  lemma StepKeepsSamples(w: World, e: Event)
    requires FlightOk(w) && SamplesOk(w) && Enabled(w, e)
    ensures SamplesOk(Step(w, e))
  {
    if e.Store? {
      StoreKeepsSamples(w, e.i);
    } else {
      var t := Step(w, e);
      forall id | id in t.cache.samples ensures Genuine(t, id, t.cache.samples[id]) {
        GenuineStays(w, t, id, w.cache.samples[id]);
      }
      forall j | 0 <= j < |t.callers| ensures PhaseOk(t, t.callers[j].id, t.callers[j].phase) {
        if j < |w.callers| && t.callers[j] == w.callers[j] {
          PhaseStays(w, t, w.callers[j].id, w.callers[j].phase);
        } else if e.FetchReturns? {
          FetchPhase(w, e.i, e.ok, e.raw);
        } else {
          MovedPhase(w, e, j);
        }
      }
    }
  }

  lemma {:induction false} RunIsOk(w: World, es: seq<Event>)
    requires FlightOk(w) && WaitersOk(w) && SamplesOk(w) && Legal(w, es)
    ensures FlightOk(Run(w, es)) && WaitersOk(Run(w, es)) && SamplesOk(Run(w, es))
    decreases |es|
  {
    if es != [] {
      StepKeepsFlight(w, es[0]);
      StepKeepsWaiters(w, es[0]);
      StepKeepsSamples(w, es[0]);
      RunIsOk(Step(w, es[0]), es[1..]);
    }
  }

  // ----- Theorems -----

  /** In every interleaving at most one fetch per machine is running. */
  lemma SingleFlight(w: World, es: seq<Event>, i: nat, j: nat)
    requires Start(w) && Legal(w, es) && i < j < |Run(w, es).callers|
    requires Running(Run(w, es).callers[i].phase) && Running(Run(w, es).callers[j].phase)
    ensures Run(w, es).callers[i].id != Run(w, es).callers[j].id
  {
    StartIsOk(w);
    RunIsOk(w, es);
  }

  /** A waiter's channel is closed, or owned by exactly one caller that has not
      finished; no channel is ever closed twice. */
  lemma WaiterIsServed(w: World, es: seq<Event>, i: nat)
    requires Start(w) && Legal(w, es) && i < |Run(w, es).callers| && Run(w, es).callers[i].phase.Waiting?
    ensures var t := Run(w, es);
            OwnedOrClosed(t.callers, t.closed, t.callers[i].phase.waitsFor)
    ensures forall e :: Enabled(Run(w, es), e) && e.Close? ==>
                          Run(w, es).callers[e.i].phase.channel !in Run(w, es).closed
  {
    StartIsOk(w);
    RunIsOk(w, es);
  }

  lemma {:induction false} SanitizerIsFixed(w: World, es: seq<Event>)
    requires Legal(w, es)
    ensures Run(w, es).sanitize == w.sanitize
    decreases |es|
  {
    if es != [] {
      SanitizerIsFixed(Step(w, es[0]), es[1..]);
    }
  }

  /** Every successful reply of either endpoint carries what sanitising made of the
      document a successful fetch from that very machine brought, when that fetch
      was done, at most two minutes before the reply. */
  lemma ServedIsGenuine(w: World, es: seq<Event>, i: nat)
    requires Start(w) && Legal(w, es) && i < |Run(w, es).callers| && Run(w, es).callers[i].phase.Served?
    ensures
      var t := Run(w, es);
      var reply, at := t.callers[i].phase.reply, t.callers[i].phase.at;
      && 0 <= at - reply.fetchedAt <= MAX_AGE
      && exists raw :: Record(t.callers[i].id, true, raw, reply.fetchedAt) in t.fetches
                       && Sanitized(raw, reply.fetchedAt, reply.metrics)
  {
    StartIsOk(w);
    RunIsOk(w, es);
    SanitizerIsFixed(w, es);
    var t := Run(w, es);
    var reply := t.callers[i].phase.reply;
    assert PhaseOk(t, t.callers[i].id, t.callers[i].phase);
    var k :| 0 <= k < |t.fetches| && t.fetches[k].id == t.callers[i].id && t.fetches[k].ok
             && t.fetches[k].at == reply.fetchedAt && reply.metrics == t.sanitize(t.fetches[k].raw, reply.fetchedAt);
    assert t.fetches[k] == Record(t.callers[i].id, true, t.fetches[k].raw, reply.fetchedAt);
    assert Sanitized(t.fetches[k].raw, reply.fetchedAt, t.sanitize(t.fetches[k].raw, reply.fetchedAt));
  }

  lemma StepKeepsTimes(w: World, e: Event, id: string)
    requires SamplesOk(w) && Enabled(w, e) && e != Drop(id) && id in w.cache.samples
    ensures id in Step(w, e).cache.samples
    ensures w.cache.samples[id].fetchedAt <= Step(w, e).cache.samples[id].fetchedAt
  {
    if e.Store? {
      assert PhaseOk(w, w.callers[e.i].id, w.callers[e.i].phase);
    }
  }

  /** Between two forgets of a machine, however long, its sample stays and the time
      it was fetched at never goes back. */
  lemma {:induction false} TimesNeverGoBack(w: World, es: seq<Event>, id: string)
    requires FlightOk(w) && WaitersOk(w) && SamplesOk(w) && Legal(w, es)
    requires Drop(id) !in es && id in w.cache.samples
    ensures id in Run(w, es).cache.samples
    ensures w.cache.samples[id].fetchedAt <= Run(w, es).cache.samples[id].fetchedAt
    decreases |es|
  {
    if es != [] {
      StepKeepsFlight(w, es[0]);
      StepKeepsWaiters(w, es[0]);
      StepKeepsSamples(w, es[0]);
      StepKeepsTimes(w, es[0], id);
      TimesNeverGoBack(Step(w, es[0]), es[1..], id);
    }
  }

  /** The same from any moment of any run. */
  lemma FetchTimesNeverGoBack(w: World, before: seq<Event>, es: seq<Event>, id: string)
    requires Start(w) && Legal(w, before) && Legal(Run(w, before), es) && Drop(id) !in es
    requires id in Run(w, before).cache.samples
    ensures id in Run(Run(w, before), es).cache.samples
    ensures Run(w, before).cache.samples[id].fetchedAt <= Run(Run(w, before), es).cache.samples[id].fetchedAt
  {
    StartIsOk(w);
    RunIsOk(w, before);
    TimesNeverGoBack(Run(w, before), es, id);
  }

  // ----- Fresh enough, and no more often than that -----

  /** Ten seconds. */
  const TEN: int := 10_000_000_000

  /** The machine has a sample less than ten seconds old at that time. */
  predicate Young(c: Cache, id: string, now: int) {
    id in c.samples && now - c.samples[id].fetchedAt < TEN
  }

  /** What a look leads to, exactly: the young sample, a fetch of one's own if nobody
      is fetching, or waiting for the one who is. */
  lemma LookIff(w: World, i: nat)
    requires Enabled(w, Look(i))
    ensures
      var id, now := w.callers[i].id, w.callers[i].phase.now;
      var after := Step(w, Look(i)).callers[i].phase;
      && (after.Returned? <==> Young(w.cache, id, now))
      && (after.Returned? ==> after.reply == w.cache.samples[id] && now - after.reply.fetchedAt < TEN)
      && (after.Fetching? <==> !Young(w.cache, id, now) && id !in w.cache.inFlight)
      && (after.Waiting? <==> !Young(w.cache, id, now) && id in w.cache.inFlight)
      && (after.Waiting? ==> after.waitsFor == w.cache.inFlight[id])
  {
  }

  /** What an endpoint answers, exactly: it refuses a failure that never was measured,
      and anything fetched more than two minutes ago. */
  lemma ReplyIff(w: World, i: nat)
    requires Enabled(w, Reply(i))
    ensures
      var reply := w.callers[i].phase.reply;
      Step(w, Reply(i)).callers[i].phase ==
      if (reply.failed && reply.metrics.collectedAt == 0) || w.clock - reply.fetchedAt > 120_000_000_000 then Refused
      else Served(reply, w.clock)
  {
  }

  /** The success of caller j at that time is about to be stored, or has been and
      nothing older has replaced it. */
  ghost predicate Counted(w: World, j: nat, id: string, at: int) {
    || (j < |w.callers| && w.callers[j].id == id && w.callers[j].phase.Fetched?
        && w.callers[j].phase.outcome.ok && w.callers[j].phase.outcome.at == at)
    || (id in w.cache.samples && at <= w.cache.samples[id].fetchedAt)
  }

  lemma FetchedMovesByStoring(w: World, e: Event, j: nat)
    requires Enabled(w, e) && j < |w.callers| && w.callers[j].phase.Fetched? && e != Store(j)
    ensures j < |Step(w, e).callers| && Step(w, e).callers[j] == w.callers[j]
  {
  }

  lemma StepKeepsCounted(w: World, e: Event, j: nat, id: string, at: int)
    requires SamplesOk(w) && Enabled(w, e) && e != Drop(id) && Counted(w, j, id, at)
    ensures Counted(Step(w, e), j, id, at)
  {
    if id in w.cache.samples && at <= w.cache.samples[id].fetchedAt {
      StepKeepsTimes(w, e, id);
    } else if e != Store(j) {
      FetchedMovesByStoring(w, e, j);
    }
  }

  lemma {:induction false} RunKeepsCounted(w: World, es: seq<Event>, j: nat, id: string, at: int)
    requires FlightOk(w) && WaitersOk(w) && SamplesOk(w) && Legal(w, es)
    requires Drop(id) !in es && Counted(w, j, id, at)
    ensures Counted(Run(w, es), j, id, at)
    decreases |es|
  {
    if es != [] {
      StepKeepsFlight(w, es[0]);
      StepKeepsWaiters(w, es[0]);
      StepKeepsSamples(w, es[0]);
      StepKeepsCounted(w, es[0], j, id, at);
      RunKeepsCounted(Step(w, es[0]), es[1..], j, id, at);
    }
  }

  lemma StartIsLate(w: World, i: nat, j: nat, at: int)
    requires FlightOk(w) && SamplesOk(w) && Enabled(w, Look(i)) && Counted(w, j, w.callers[i].id, at)
    requires Step(w, Look(i)).callers[i].phase.Fetching?
    ensures w.clock >= at + TEN
  {
    LookIff(w, i);
    assert PhaseOk(w, w.callers[i].id, w.callers[i].phase);
  }

  /** In every interleaving, a fetch that starts after one of the same machine was
      done with success starts at least ten seconds later, unless the machine was
      forgotten in between. */
  lemma FetchesAreApart(w: World, before: seq<Event>, j: nat, raw: Document, es: seq<Event>, i: nat)
    requires Start(w) && Legal(w, before) && Enabled(Run(w, before), FetchReturns(j, true, raw))
    requires
      var done := Step(Run(w, before), FetchReturns(j, true, raw));
      && Legal(done, es) && Enabled(Run(done, es), Look(i)) && i < |Run(done, es).callers|
      && Run(done, es).callers[i].id == done.callers[j].id && Drop(done.callers[j].id) !in es
      && Step(Run(done, es), Look(i)).callers[i].phase.Fetching?
    ensures
      var done := Step(Run(w, before), FetchReturns(j, true, raw));
      Run(done, es).clock >= done.clock + TEN
  {
    StartIsOk(w);
    RunIsOk(w, before);
    var u := Run(w, before);
    var e := FetchReturns(j, true, raw);
    StepKeepsFlight(u, e);
    StepKeepsWaiters(u, e);
    StepKeepsSamples(u, e);
    var done := Step(u, e);
    RunKeepsCounted(done, es, j, done.callers[j].id, done.clock);
    RunIsOk(done, es);
    StartIsLate(Run(done, es), i, j, done.clock);
  }

  // ----- A forgotten machine is measured anew -----

  predicate Stores(w: World, e: Event, id: string) {
    e.Store? && e.i < |w.callers| && w.callers[e.i].id == id
  }

  ghost predicate NeverStored(w: World, es: seq<Event>, id: string)
    requires Legal(w, es)
    decreases |es|
  {
    es == [] || (!Stores(w, es[0], id) && NeverStored(Step(w, es[0]), es[1..], id))
  }

  lemma {:induction false} StaysUnknown(w: World, es: seq<Event>, id: string)
    requires Legal(w, es) && NeverStored(w, es, id) && id !in w.cache.samples
    ensures id !in Run(w, es).cache.samples
    decreases |es|
  {
    if es != [] {
      StaysUnknown(Step(w, es[0]), es[1..], id);
    }
  }

  /** Until a fetch of its own is stored, nobody is given a sample of a forgotten machine. */
  lemma ForgottenIsMeasuredAnew(w: World, es: seq<Event>, id: string, i: nat)
    requires Legal(Step(w, Drop(id)), es) && NeverStored(Step(w, Drop(id)), es, id)
    requires
      var t := Run(Step(w, Drop(id)), es);
      Enabled(t, Look(i)) && t.callers[i].id == id
    ensures
      var after := Step(Run(Step(w, Drop(id)), es), Look(i)).callers[i].phase;
      after.Fetching? || after.Waiting?
  {
    StaysUnknown(Step(w, Drop(id)), es, id);
    LookIff(Run(Step(w, Drop(id)), es), i);
  }
}
