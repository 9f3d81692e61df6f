/** Measuring a machine's containers with a pool of workers, as a state machine
    over every schedule of the dispatcher, the workers and the deadline. */
module WorkerPool {
  import opened Basics
  import opened Text
  import opened MetricsDocument
  import opened Sanitize

  const WORKERS: nat := 8

  datatype Listed = Listed(id: string, name: string)

  /** The zero value a slot holds until a worker fills it. */
  const UNMEASURED: Container :=
    Container("", "", "", "", "", "", "", "", Finite(0.0), Finite(0.0), 0, 0, [])

  datatype Job = Job(worker: nat, index: nat)

  /** What the schedule acts on: how far the dispatcher got, what each worker has
      in hand, the slots, whether the deadline passed, and every job handed over
      so far. */
  datatype Pool = Pool(next: nat, hands: seq<Option<nat>>, out: seq<Container>, cancelled: bool, log: seq<Job>)

  datatype Event = Send(worker: nat) | Skip | Finish(worker: nat) | Cancel

  function Capped(listing: seq<Listed>): seq<Listed> {
    First(listing, MAX_CONTAINERS)
  }

  function Min(a: nat, b: nat): nat {
    if a < b then a else b
  }

  function Idle(n: nat): seq<Option<nat>> {
    seq(n, _ => None)
  }

  function Start(n: nat): Pool {
    Pool(0, Idle(Min(WORKERS, n)), seq(n, _ => UNMEASURED), false, [])
  }

  predicate Enabled(p: Pool, e: Event) {
    match e
    case Send(w) => p.next < |p.out| && w < |p.hands| && p.hands[w].None?
    case Skip => p.next < |p.out| && p.cancelled
    case Finish(w) => w < |p.hands| && p.hands[w].Some? && p.hands[w].value < |p.out|
    case Cancel => !p.cancelled
  }

  function Step(p: Pool, e: Event, measure: nat -> Container): Pool
    requires Enabled(p, e)
  {
    match e
    case Send(w) => p.(next := p.next + 1, hands := p.hands[w := Some(p.next)], log := p.log + [Job(w, p.next)])
    case Skip => p.(next := p.next + 1)
    case Finish(w) =>
      var i := p.hands[w].value;
      p.(hands := p.hands[w := None], out := p.out[i := measure(i)])
    case Cancel => p.(cancelled := true)
  }

  predicate Legal(p: Pool, events: seq<Event>, measure: nat -> Container)
    decreases |events|
  {
    events == [] || (Enabled(p, events[0]) && Legal(Step(p, events[0], measure), events[1..], measure))
  }

  function Run(p: Pool, events: seq<Event>, measure: nat -> Container): Pool
    requires Legal(p, events, measure)
    decreases |events|
  {
    if events == [] then p else Run(Step(p, events[0], measure), events[1..], measure)
  }

  /** The dispatcher is through the listing and every worker came home. */
  predicate Finished(p: Pool) {
    p.next == |p.out| && forall w | 0 <= w < |p.hands| :: p.hands[w].None?
  }

  // ----- The invariant -----

  predicate Increasing(log: seq<Job>, bound: nat) {
    && (forall k | 0 <= k < |log| :: log[k].index < bound)
    && (forall k, l | 0 <= k < l < |log| :: log[k].index < log[l].index)
  }

  predicate Sent(log: seq<Job>, i: nat) {
    exists k | 0 <= k < |log| :: log[k].index == i
  }

  predicate InHand(hands: seq<Option<nat>>, i: nat) {
    exists w | 0 <= w < |hands| :: hands[w] == Some(i)
  }

  predicate HandsOk(hands: seq<Option<nat>>, log: seq<Job>) {
    && (forall w | 0 <= w < |hands| && hands[w].Some? :: Job(w, hands[w].value) in log)
    && (forall k | 0 <= k < |log| :: log[k].worker < |hands|)
  }

  predicate OutOk(p: Pool, measure: nat -> Container) {
    forall i: nat | i < |p.out| ::
      p.out[i] == if Sent(p.log, i) && !InHand(p.hands, i) then measure(i) else UNMEASURED
  }

  predicate Ok(p: Pool, measure: nat -> Container) {
    && p.next <= |p.out| && Increasing(p.log, p.next)
    && HandsOk(p.hands, p.log)
    && OutOk(p, measure)
    && (!p.cancelled ==> forall i: nat | i < p.next :: Sent(p.log, i))
  }

  /** A job in the log is held by no worker but its own. */
  lemma OneHolder(p: Pool, measure: nat -> Container, v: nat, w: nat)
    requires Ok(p, measure) && v < |p.hands| && w < |p.hands|
    requires p.hands[v].Some? && p.hands[v] == p.hands[w]
    ensures v == w
  {
    var i := p.hands[v].value;
    var k :| 0 <= k < |p.log| && p.log[k] == Job(v, i);
    var l :| 0 <= l < |p.log| && p.log[l] == Job(w, i);
  }

  lemma StartIsOk(n: nat, measure: nat -> Container)
    ensures Ok(Start(n), measure)
  {
  }

  lemma SendKeepsOk(p: Pool, w: nat, measure: nat -> Container)
    requires Ok(p, measure) && Enabled(p, Send(w))
    ensures Ok(Step(p, Send(w), measure), measure)
  {
    var q := Step(p, Send(w), measure);
    assert q.log[|p.log|] == Job(w, p.next);
    forall i: nat | i < |p.out| && i != p.next
      ensures Sent(q.log, i) == Sent(p.log, i) && InHand(q.hands, i) == InHand(p.hands, i)
    {
      if Sent(p.log, i) {
        var k :| 0 <= k < |p.log| && p.log[k].index == i;
        assert q.log[k].index == i;
      }
      if InHand(p.hands, i) {
        var v :| 0 <= v < |p.hands| && p.hands[v] == Some(i);
        assert q.hands[v] == Some(i);
      }
    }
    assert !Sent(p.log, p.next);
    assert q.hands[w] == Some(p.next);
  }

  lemma FinishKeepsOk(p: Pool, w: nat, measure: nat -> Container)
    requires Ok(p, measure) && Enabled(p, Finish(w))
    ensures Ok(Step(p, Finish(w), measure), measure)
  {
    var q := Step(p, Finish(w), measure);
    var j := p.hands[w].value;
    forall v | 0 <= v < |p.hands| && p.hands[v] == Some(j) ensures v == w {
      OneHolder(p, measure, v, w);
    }
    assert !InHand(q.hands, j);
    assert Sent(p.log, j) by {
      var k :| 0 <= k < |p.log| && p.log[k] == Job(w, j);
    }
    forall i: nat | i < |p.out| && i != j ensures InHand(q.hands, i) == InHand(p.hands, i) {
      if InHand(p.hands, i) {
        var v :| 0 <= v < |p.hands| && p.hands[v] == Some(i);
        assert q.hands[v] == Some(i);
      }
    }
  }

  lemma StepKeepsOk(p: Pool, e: Event, measure: nat -> Container)
    requires Ok(p, measure) && Enabled(p, e)
    ensures Ok(Step(p, e, measure), measure)
  {
    match e
    case Send(w) => SendKeepsOk(p, w, measure);
    case Finish(w) => FinishKeepsOk(p, w, measure);
    case Skip =>
    case Cancel =>
  }

  lemma {:induction false} RunKeepsOk(p: Pool, events: seq<Event>, measure: nat -> Container)
    requires Ok(p, measure) && Legal(p, events, measure)
    ensures Ok(Run(p, events, measure), measure)
    ensures |Run(p, events, measure).out| == |p.out|
    ensures !p.cancelled && Cancel !in events ==> !Run(p, events, measure).cancelled
    decreases |events|
  {
    if events != [] {
      StepKeepsOk(p, events[0], measure);
      RunKeepsOk(Step(p, events[0], measure), events[1..], measure);
    }
  }

  // ----- What a finished pool holds -----

  function Named(c: Container): Option<Container> {
    if c.id != "" then Some(c) else None
  }

  function Readings(log: seq<Job>, measure: nat -> Container): seq<Container> {
    seq(|log|, k requires 0 <= k < |log| => measure(log[k].index))
  }

  /** Squeezes the empty slots out of the slice, over itself. */
  method Compact(a: array<Container>) returns (m: nat)
    modifies a
    ensures m <= a.Length && a[..m] == Kept(old(a[..]), Named)
  {
    m := 0;
    ghost var s := a[..];
    for i := 0 to a.Length
      invariant m <= i
      invariant a[..m] == Kept(s[..i], Named)
      invariant a[i..] == s[i..]
    {
      assert s[..i + 1][..i] == s[..i];
      assert a[i..][0] == s[i..][0];
      var item := a[i];
      if item.id != "" {
        a[m] := item;
        m := m + 1;
      }
      assert a[i + 1..] == s[i + 1..];
    }
    assert s[..a.Length] == s;
  }

  lemma LastSent(log: seq<Job>, n: nat)
    requires Increasing(log, n + 1) && Sent(log, n)
    ensures log != [] && log[|log| - 1].index == n && Increasing(log[..|log| - 1], n)
    ensures forall i: nat | i < n :: Sent(log[..|log| - 1], i) == Sent(log, i)
  {
    var k :| 0 <= k < |log| && log[k].index == n;
    var shorter := log[..|log| - 1];
    forall i: nat | i < n ensures Sent(shorter, i) == Sent(log, i) {
      if Sent(log, i) {
        var k :| 0 <= k < |log| && log[k].index == i;
        assert shorter[k].index == i;
      }
    }
  }

  lemma KeptMore(s: seq<Container>)
    requires s != []
    ensures
      var last := s[|s| - 1];
      Kept(s, Named) == Kept(s[..|s| - 1], Named) + if last.id != "" then [last] else []
  {
  }

  lemma ReadingsMore(log: seq<Job>, measure: nat -> Container)
    requires log != []
    ensures
      var last := measure(log[|log| - 1].index);
      Kept(Readings(log, measure), Named) ==
      Kept(Readings(log[..|log| - 1], measure), Named) + if last.id != "" then [last] else []
  {
    KeptMore(Readings(log, measure));
    assert Readings(log, measure)[..|log| - 1] == Readings(log[..|log| - 1], measure);
  }

  predicate Slots(out: seq<Container>, log: seq<Job>, measure: nat -> Container) {
    forall i: nat | i < |out| :: out[i] == if Sent(log, i) then measure(i) else UNMEASURED
  }

  /** Dropping the slots nobody filled leaves the readings of the log, in order. */
  lemma {:induction false} SlotsAreTheLog(out: seq<Container>, log: seq<Job>, measure: nat -> Container)
    requires Increasing(log, |out|) && Slots(out, log, measure)
    ensures Kept(out, Named) == Kept(Readings(log, measure), Named)
    decreases |out|
  {
    if out != [] {
      var n := |out| - 1;
      KeptMore(out);
      if Sent(log, n) {
        LastSent(log, n);
        ReadingsMore(log, measure);
        SlotsAreTheLog(out[..n], log[..|log| - 1], measure);
      } else {
        NotSent(log, n);
        SlotsAreTheLog(out[..n], log, measure);
      }
    } else {
      assert Readings(log, measure) == out;
    }
  }

  lemma NotSent(log: seq<Job>, n: nat)
    requires Increasing(log, n + 1) && !Sent(log, n)
    ensures Increasing(log, n)
  {
  }

  /** The jobs whose reading carries an id. */
  function Chosen(log: seq<Job>, measure: nat -> Container): seq<Job> {
    if log == [] then []
    else
      var last := log[|log| - 1];
      Chosen(log[..|log| - 1], measure) + if measure(last.index).id != "" then [last] else []
  }

  lemma {:induction false} ChosenAreKept(log: seq<Job>, measure: nat -> Container, n: nat)
    requires Increasing(log, n)
    ensures Kept(Readings(log, measure), Named) == Readings(Chosen(log, measure), measure)
    ensures Increasing(Chosen(log, measure), n)
    decreases |log|
  {
    if log != [] {
      var shorter, last := log[..|log| - 1], log[|log| - 1];
      ChosenAreKept(shorter, measure, last.index);
      ReadingsMore(log, measure);
      assert Readings(Chosen(log, measure), measure) ==
             Readings(Chosen(shorter, measure), measure) + if measure(last.index).id != "" then [measure(last.index)] else [];
    }
  }

  lemma {:induction false} ChosenAreNamed(log: seq<Job>, measure: nat -> Container, j: Job)
    ensures j in Chosen(log, measure) <==> j in log && measure(j.index).id != ""
    decreases |log|
  {
    if log != [] {
      ChosenAreNamed(log[..|log| - 1], measure, j);
      assert log == log[..|log| - 1] + [log[|log| - 1]];
    }
  }

  lemma SlotsWhenFinished(n: nat, events: seq<Event>, measure: nat -> Container)
    requires Legal(Start(n), events, measure) && Finished(Run(Start(n), events, measure))
    ensures
      var p := Run(Start(n), events, measure);
      Increasing(p.log, n) && Kept(p.out, Named) == Kept(Readings(p.log, measure), Named)
  {
    StartIsOk(n, measure);
    RunKeepsOk(Start(n), events, measure);
    var p := Run(Start(n), events, measure);
    SlotsAreTheLog(p.out, p.log, measure);
  }

  /** For every schedule over a listing: no index is handed to a worker twice, and
      what comes back is the readings of a subsequence of the capped listing, in
      listing order: exactly the containers that were handed over and have an id. */
  lemma ResultIsASubsequence(listing: seq<Listed>, events: seq<Event>, measure: nat -> Container)
    requires Legal(Start(|Capped(listing)|), events, measure)
    requires Finished(Run(Start(|Capped(listing)|), events, measure))
    requires forall i: nat | i < |Capped(listing)| :: measure(i).id == listing[i].id
    ensures
      var p := Run(Start(|Capped(listing)|), events, measure);
      var chosen := Chosen(p.log, measure);
      && Increasing(p.log, |Capped(listing)|) && Increasing(chosen, |Capped(listing)|)
      && Kept(p.out, Named) == Readings(chosen, measure)
      && (forall j | j in p.log :: j in chosen <==> listing[j.index].id != "")
      && (forall j | j in chosen :: j in p.log)
  {
    var n := |Capped(listing)|;
    SlotsWhenFinished(n, events, measure);
    var p := Run(Start(n), events, measure);
    ChosenAreKept(p.log, measure, n);
    forall j: Job ensures j in Chosen(p.log, measure) <==> j in p.log && measure(j.index).id != "" {
      ChosenAreNamed(p.log, measure, j);
    }
    forall j | j in p.log ensures measure(j.index).id == listing[j.index].id {
      var k :| 0 <= k < |p.log| && p.log[k] == j;
    }
  }

  lemma {:induction false} FullLog(log: seq<Job>, n: nat)
    requires Increasing(log, n) && forall i: nat | i < n :: Sent(log, i)
    ensures |log| == n && forall k | 0 <= k < n :: log[k].index == k
    decreases n
  {
    if n > 0 {
      assert Sent(log, n - 1);
      LastSent(log, n - 1);
      var shorter := log[..|log| - 1];
      forall i: nat | i < n - 1 ensures Sent(shorter, i) {
        assert Sent(log, i);
      }
      FullLog(shorter, n - 1);
    } else {
      assert |log| > 0 ==> log[0].index < n;
    }
  }

  /** With no deadline passed, the pool does what a plain loop over the listing
      would: measure each, drop those without an id. */
  lemma UncancelledIsSequential(n: nat, events: seq<Event>, measure: nat -> Container)
    requires Legal(Start(n), events, measure) && Finished(Run(Start(n), events, measure))
    requires Cancel !in events
    ensures Kept(Run(Start(n), events, measure).out, Named) == Kept(seq(n, i requires 0 <= i < n => measure(i)), Named)
  {
    SlotsWhenFinished(n, events, measure);
    StartIsOk(n, measure);
    RunKeepsOk(Start(n), events, measure);
    var p := Run(Start(n), events, measure);
    FullLog(p.log, n);
    assert Readings(p.log, measure) == seq(n, i requires 0 <= i < n => measure(i));
  }

  // ----- Every schedule comes to an end, and only when the work is done -----

  function Busy(hands: seq<Option<nat>>): nat {
    if hands == [] then 0 else (if hands[0].Some? then 1 else 0) + Busy(hands[1..])
  }

  function Left(p: Pool): int {
    2 * (|p.out| - p.next) + Busy(p.hands) + if p.cancelled then 0 else 1
  }

  lemma {:induction false} BusyUpdate(hands: seq<Option<nat>>, w: nat, h: Option<nat>)
    requires w < |hands|
    ensures Busy(hands[w := h]) == Busy(hands) - (if hands[w].Some? then 1 else 0) + (if h.Some? then 1 else 0)
    decreases |hands|
  {
    if w == 0 {
      assert hands[w := h][1..] == hands[1..];
    } else {
      BusyUpdate(hands[1..], w - 1, h);
      assert hands[w := h][1..] == hands[1..][w - 1 := h];
    }
  }

  lemma StepsRunDown(p: Pool, e: Event, measure: nat -> Container)
    requires Enabled(p, e)
    ensures Left(Step(p, e, measure)) == Left(p) - if e.Skip? then 2 else 1
  {
    match e
    case Send(w) => BusyUpdate(p.hands, w, Some(p.next));
    case Finish(w) => BusyUpdate(p.hands, w, None);
    case Skip =>
    case Cancel =>
  }

  lemma {:induction false} RunIsShort(p: Pool, events: seq<Event>, measure: nat -> Container)
    requires Legal(p, events, measure) && p.next <= |p.out|
    ensures |events| <= Left(p)
    decreases |events|
  {
    if events != [] {
      StepsRunDown(p, events[0], measure);
      RunIsShort(Step(p, events[0], measure), events[1..], measure);
    }
  }

  /** The pool never stalls: short of finished, someone can move without the
      deadline's help. No schedule is longer than two steps per container and
      one for the deadline. */
  lemma NeverStalls(n: nat, events: seq<Event>, measure: nat -> Container)
    requires Legal(Start(n), events, measure)
    ensures |events| <= 2 * n + 1
    ensures
      var p := Run(Start(n), events, measure);
      Finished(p) || exists w: nat :: Enabled(p, Send(w)) || Enabled(p, Finish(w))
  {
    IdleAtStart(Min(WORKERS, n));
    RunIsShort(Start(n), events, measure);
    StartIsOk(n, measure);
    RunKeepsOk(Start(n), events, measure);
    SameHands(Start(n), events, measure);
    var p := Run(Start(n), events, measure);
    if !Finished(p) {
      if w: nat :| w < |p.hands| && p.hands[w].Some? {
        assert Job(w, p.hands[w].value) in p.log;
        assert Enabled(p, Finish(w));
      } else {
        assert Enabled(p, Send(0));
      }
    }
  }

  lemma {:induction false} IdleAtStart(n: nat)
    ensures Busy(Idle(n)) == 0
  {
    if n > 0 {
      IdleAtStart(n - 1);
      assert Idle(n)[1..] == Idle(n - 1);
    }
  }

  lemma {:induction false} SameHands(p: Pool, events: seq<Event>, measure: nat -> Container)
    requires Legal(p, events, measure)
    ensures |Run(p, events, measure).hands| == |p.hands|
    decreases |events|
  {
    if events != [] {
      SameHands(Step(p, events[0], measure), events[1..], measure);
    }
  }
}
