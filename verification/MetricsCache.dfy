/** The single-flight cache of machine metrics: the sections of `get` that run
    under the lock, as values and as the object Core runs. Times are in
    nanoseconds, and the zero time is 0. */
module MetricsCache {
  import opened MetricsDocument

  const FRESH: int := 10_000_000_000
  const MAX_AGE: int := 120_000_000_000

  datatype Sample = Sample(metrics: Document, fetchedAt: int, failed: bool)

  datatype Cache = Cache(samples: map<string, Sample>, inFlight: map<string, nat>)

  datatype Found = Hit(sample: Sample) | Wait(channel: nat) | Fetch

  /** What a fetch gave and when it was done; a success is already sanitised. */
  datatype Outcome = Outcome(ok: bool, document: Document, at: int)

  /** Lines 75-92: a young sample, a running fetch to wait for, or a fetch to start. */
  function LookUp(c: Cache, id: string, now: int): Found {
    if id in c.samples && now - c.samples[id].fetchedAt < FRESH then Hit(c.samples[id])
    else if id in c.inFlight then Wait(c.inFlight[id])
    else Fetch
  }

  function Begin(c: Cache, id: string, channel: nat): Cache {
    c.(inFlight := c.inFlight[id := channel])
  }

  /** Lines 99-112: the sample a finished fetch leaves behind. */
  function Refreshed(c: Cache, id: string, o: Outcome): Sample {
    if o.ok then Sample(o.document, o.at, false)
    else if id in c.samples && !c.samples[id].failed then c.samples[id].(failed := true)
    else Sample(ZERO_DOCUMENT, o.at, true)
  }

  function Finish(c: Cache, id: string, o: Outcome): Cache {
    Cache(c.samples[id := Refreshed(c, id, o)], c.inFlight - {id})
  }

  function Forget(c: Cache, id: string): Cache {
    c.(samples := c.samples - {id})
  }

  /** The decision both endpoints make: refuse a failure without a collection time,
      refuse what is too old. */
  predicate Serves(sample: Sample, now: int) {
    !(sample.failed && sample.metrics.collectedAt == 0) && now - sample.fetchedAt <= MAX_AGE
  }

  class MachineMetricsCache {
    var samples: map<string, Sample>
    var inFlight: map<string, nat>

    ghost function View(): Cache
      reads this
    {
      Cache(samples, inFlight)
    }

    constructor ()
      ensures View() == Cache(map[], map[])
    {
      samples, inFlight := map[], map[];
    }

    /** First section; `channel` is a new channel, used only when a fetch starts. */
    method Look(id: string, now: int, channel: nat) returns (found: Found)
      modifies this
      ensures found == LookUp(old(View()), id, now)
      ensures found.Hit? <==> id in old(samples) && now - old(samples)[id].fetchedAt < 10_000_000_000
      ensures found.Hit? ==> found.sample == old(samples)[id]
      ensures found == Fetch <==> !found.Hit? && id !in old(inFlight)
      ensures View() == if found == Fetch then Begin(old(View()), id, channel) else old(View())
    {
      if id in samples && now - samples[id].fetchedAt < FRESH {
        return Hit(samples[id]);
      }
      if id in inFlight {
        return Wait(inFlight[id]);
      }
      inFlight := inFlight[id := channel];
      return Fetch;
    }

    /** Second section, after the fetch returned. */
    method Store(id: string, o: Outcome) returns (sample: Sample)
      modifies this
      ensures View() == Finish(old(View()), id, o) && sample == samples[id]
    {
      if !o.ok {
        if id in samples && !samples[id].failed {
          var previous := samples[id];
          samples := samples[id := Sample(previous.metrics, previous.fetchedAt, true)];
        } else {
          samples := samples[id := Sample(ZERO_DOCUMENT, o.at, true)];
        }
      } else {
        samples := samples[id := Sample(o.document, o.at, false)];
      }
      sample := samples[id];
      inFlight := inFlight - {id};
    }

    method Drop(id: string)
      modifies this
      ensures View() == Forget(old(View()), id)
    {
      samples := samples - {id};
    }
  }

  // ----- How long a good sample survives -----

  /** The sample after the given sequence of failed refreshes. */
  function AfterFailures(c: Cache, id: string, times: seq<int>): Cache
    decreases |times|
  {
    if times == [] then c else AfterFailures(Finish(c, id, Outcome(false, ZERO_DOCUMENT, times[0])), id, times[1..])
  }

  lemma {:induction false} FailedStaysEmpty(c: Cache, id: string, times: seq<int>)
    requires id in c.samples && c.samples[id].failed && times != []
    ensures id in AfterFailures(c, id, times).samples
    ensures AfterFailures(c, id, times).samples[id] == Sample(ZERO_DOCUMENT, times[|times| - 1], true)
    decreases |times|
  {
    var d := Finish(c, id, Outcome(false, ZERO_DOCUMENT, times[0]));
    if |times| > 1 {
      FailedStaysEmpty(d, id, times[1..]);
    } else {
      assert times[1..] == [];
    }
  }

  /** A failed refresh keeps the last good measurements once. They are still there
      after `k` consecutive failures if and only if `k` is at most one. */
  lemma GoodSampleSurvivesIff(c: Cache, id: string, times: seq<int>)
    requires id in c.samples && !c.samples[id].failed && c.samples[id].metrics != ZERO_DOCUMENT
    ensures id in AfterFailures(c, id, times).samples
    ensures AfterFailures(c, id, times).samples[id].metrics == c.samples[id].metrics <==> |times| <= 1
  {
    if |times| >= 1 {
      var d := Finish(c, id, Outcome(false, ZERO_DOCUMENT, times[0]));
      if |times| == 1 {
        assert times[1..] == [];
        assert AfterFailures(d, id, []) == d;
      } else {
        FailedStaysEmpty(d, id, times[1..]);
      }
    }
  }

  /** A good sample, two failures, and nothing left of it. */
  lemma SecondFailureDropsSample(d: Document)
    requires d != ZERO_DOCUMENT
    ensures
      var c := Cache(map["m" := Sample(d, 1, false)], map[]);
      && AfterFailures(c, "m", [2]).samples == map["m" := Sample(d, 1, true)]
      && AfterFailures(c, "m", [2, 3]).samples == map["m" := Sample(ZERO_DOCUMENT, 3, true)]
  {
    var c := Cache(map["m" := Sample(d, 1, false)], map[]);
    var once := Finish(c, "m", Outcome(false, ZERO_DOCUMENT, 2));
    var twice := Finish(once, "m", Outcome(false, ZERO_DOCUMENT, 3));
    assert [2][1..] == [] && [2, 3][1..] == [3] && [3][1..] == [];
    assert AfterFailures(c, "m", [2]) == AfterFailures(once, "m", []) == once;
    assert AfterFailures(c, "m", [2, 3]) == AfterFailures(once, "m", [3]) == AfterFailures(twice, "m", []) == twice;
  }
}
