/** What every run of the delivery protocol guarantees, and what it does not. */
module RendezvousTheorems {
  import opened Basics
  import opened BrokerState
  import opened BrokerSafety
  import opened Rendezvous
  import opened RendezvousSafety

  // ----- Hand-outs and executions -----

  /** No id three times; a second time only as a redelivery; the others in
      sequence order. */
  ghost predicate TwiceInOrder(core: AgentState, log: seq<HandOut>) {
    && (forall i, j, k :: 0 <= i < j < k < |log| ==> !(log[i].id == log[j].id && log[j].id == log[k].id))
    && (forall i, j :: 0 <= i < j < |log| && log[i].id == log[j].id ==> !log[i].again && log[j].again)
    && (forall i, j :: 0 <= i < j < |log| && !log[i].again && !log[j].again ==>
                         Sequence(core, log[i].id) < Sequence(core, log[j].id))
  }

  lemma LogIsTwiceInOrder(core: AgentState, log: seq<HandOut>)
    requires LogOk(core, log)
    ensures TwiceInOrder(core, log)
  {
    forall i, j, k | 0 <= i < j < k < |log| ensures !(log[i].id == log[j].id && log[j].id == log[k].id) {
      assert log[i].id == log[j].id ==> log[j].again;
      assert log[j].id == log[k].id ==> !log[j].again;
    }
  }

  /** Whatever is lost, each request is handed out at most twice: once from the
      queue, in sequence order, and once more as a redelivery. */
  lemma HandedAtMostTwice(s: System, es: seq<Event>)
    requires Start(s) && Legal(s, es)
    ensures TwiceInOrder(Run(s, es).core, Run(s, es).handed)
  {
    StartIsInv(s);
    RunKeepsInv(s, es);
    LogIsTwiceInOrder(Run(s, es).core, Run(s, es).handed);
  }

  lemma ExecutionsAreHandOuts(s: System, i: nat, j: nat)
    requires Inv(s) && i < j < |s.ran|
    ensures exists a, b :: 0 <= a < |s.handed| && 0 <= b < |s.handed| && a != b
                           && s.handed[a].id == s.ran[i].id && s.handed[a].poll == s.ran[i].poll
                           && s.handed[b].id == s.ran[j].id && s.handed[b].poll == s.ran[j].poll
  {
    assert WasHanded(s.handed, s.ran[i].poll, s.ran[i].id) && WasHanded(s.handed, s.ran[j].poll, s.ran[j].id);
  }

  /** The machine executes a request at most twice, whichever agent it runs. */
  lemma RanAtMostTwice(s: System, es: seq<Event>, i: nat, j: nat, k: nat)
    requires Start(s) && Legal(s, es) && i < j < k < |Run(s, es).ran|
    ensures var ran := Run(s, es).ran; !(ran[i].id == ran[j].id && ran[j].id == ran[k].id)
  {
    StartIsInv(s);
    RunKeepsInv(s, es);
    var t := Run(s, es);
    ExecutionsAreHandOuts(t, i, j);
    ExecutionsAreHandOuts(t, j, k);
    var a :| 0 <= a < |t.handed| && t.handed[a].poll == t.ran[i].poll && t.handed[a].id == t.ran[i].id;
    var b :| 0 <= b < |t.handed| && t.handed[b].poll == t.ran[j].poll && t.handed[b].id == t.ran[j].id;
    var c :| 0 <= c < |t.handed| && t.handed[c].poll == t.ran[k].poll && t.handed[c].id == t.ran[k].id;
    assert a != b && b != c && a != c;
  }

  /** An agent that moves its cursor before it polls again executes nothing twice. */
  lemma SaveFirstRunsOnce(s: System, es: seq<Event>)
    requires Start(s) && Legal(s, es) && s.client.saveFirst
    ensures var ran := Run(s, es).ran; forall i, j :: 0 <= i < j < |ran| ==> ran[i].id != ran[j].id
  {
    StartIsInv(s);
    RunKeepsInv(s, es);
    AgentKindIsFixed(s, es);
  }

  lemma {:induction false} AgentKindIsFixed(s: System, es: seq<Event>)
    requires Legal(s, es)
    ensures Run(s, es).client.saveFirst == s.client.saveFirst
    decreases |es|
  {
    if es != [] {
      AgentKindIsFixed(Step(s, es[0]), es[1..]);
    }
  }

  // ----- When a request is executed again -----

  ghost predicate Ran(s: System, id: Id) {
    exists k :: 0 <= k < |s.ran| && s.ran[k].id == id
  }

  /** Core still waits for the answer, the lease has not run out, the one redelivery
      is unspent, the agent's cursor is below, and neither side has moved to a newer
      authority. */
  ghost predicate Replayable(s: System, id: Id) {
    && id in s.core.items && id in s.core.waiting && !s.core.items[id].redelivered
    && s.now <= s.core.items[id].request.expiresAt && s.client.cursor < s.core.items[id].request.sequence
    && s.epoch == s.client.epoch == s.core.items[id].request.authorityEpoch
  }

  ghost predicate RunsAgain(s: System, es: seq<Event>, id: Id) {
    Legal(s, es) && exists k :: |s.ran| <= k < |Run(s, es).ran| && Run(s, es).ran[k].id == id
  }

  /** Nothing the agent may still receive leads to another execution of `id`. */
  ghost predicate Spent(s: System, id: Id) {
    && id in s.core.items && s.core.items[id].delivered
    && (var request := s.core.items[id].request;
        && 1 <= request.authorityEpoch <= s.client.epoch
        && (Unreachable(s, id) || request.authorityEpoch < s.epoch)
        && (s.client.phase.Polling? && s.client.phase.poll < |s.polls| ==>
              match s.polls[s.client.phase.poll].phase
              case Arrived => true
              case Ready => Unreachable(s, id)
              case Blocked(_) => Unreachable(s, id)
              case Replied(reply) =>
                reply.Work? && reply.request.id == id ==>
                  request.authorityEpoch < s.client.epoch || request.sequence <= s.client.cursor
              case Closed => true))
  }

  ghost predicate Unreachable(s: System, id: Id)
    requires id in s.core.items
  {
    || id !in s.core.waiting || s.core.items[id].redelivered || s.now > s.core.items[id].request.expiresAt
    || s.core.items[id].request.sequence <= s.client.cursor
    || s.core.items[id].request.authorityEpoch < s.client.epoch
  }

  lemma SpentIfNotReplayable(s: System, id: Id)
    requires Inv(s) && s.client.phase == Idle && Ran(s, id) && !Replayable(s, id)
    ensures Spent(s, id)
  {
    var k :| 0 <= k < |s.ran| && s.ran[k].id == id;
    assert WasHanded(s.handed, s.ran[k].poll, id);
  }

  /** Core never takes a request back and never lowers its flags; a new request
      is numbered above the counter. */
  ghost predicate Advances(c: AgentState, d: AgentState) {
    && Grows(c, d) && c.next <= d.next
    && (forall id :: id in c.items && id in d.waiting ==> id in c.waiting)
    && (forall id :: id in d.items && id !in c.items ==> Sequence(d, id) > c.next)
  }

  lemma PassAdvances(c: AgentState, cursor: nat, clock: Clock)
    requires Wf(c)
    ensures Advances(c, AfterPass(c, cursor, clock))
  {
    PassMarksOnlyTheHanded(c, cursor, clock);
  }

  lemma CoreAdvances(s: System, e: Event)
    requires Enabled(s, e) && (e.Enqueue? || e.Cancel? || e.Upload?)
    ensures Advances(s.core, Step(s, e).core)
  {
  }

  /** Whatever happens on the wire or at the agent leaves Core's queue alone. */
  lemma QuietKeepsCore(s: System, e: Event)
    requires Enabled(s, e) && !e.Pass? && !e.Enqueue? && !e.Cancel? && !e.Upload?
    ensures Step(s, e).core == s.core
  {
  }

  lemma TimeAndEpochGrow(s: System, e: Event)
    requires Enabled(s, e)
    ensures s.epoch <= Step(s, e).epoch && s.now <= Step(s, e).now
  {
  }

  lemma StandingIsAdvance(c: AgentState)
    ensures Advances(c, c)
  {
  }

  lemma PassCore(s: System, p: nat, clock: Clock, until: int)
    requires Enabled(s, Pass(p, clock, until))
    ensures Step(s, Pass(p, clock, until)).core == AfterPass(s.core, s.polls[p].cursor, clock)
  {
  }

  lemma StepAdvances(s: System, e: Event)
    requires Wf(s.core) && Enabled(s, e)
    ensures Advances(s.core, Step(s, e).core)
  {
    if e.Pass? {
      PassAdvances(s.core, s.polls[e.poll].cursor, e.clock);
      PassCore(s, e.poll, e.clock, e.until);
    } else if e.Enqueue? || e.Cancel? || e.Upload? {
      CoreAdvances(s, e);
    } else {
      QuietKeepsCore(s, e);
      StandingIsAdvance(s.core);
    }
  }

  lemma PassStaysSpent(s: System, p: nat, clock: Clock, until: int, id: Id)
    requires Wf(s.core) && ClientOk(s.core, s.polls, s.client) && Spent(s, id) && Enabled(s, Pass(p, clock, until))
    ensures Spent(Step(s, Pass(p, clock, until)), id)
  {
    var cursor := s.polls[p].cursor;
    PassMarksOnlyTheHanded(s.core, cursor, clock);
    if Handed(Absorb(s.core, cursor), cursor, clock).Some? {
      SecondHandOutIsUnacknowledged(s.core, cursor, clock);
    }
  }

  lemma ReceiveStaysSpent(s: System, now: int, response: Response, id: Id)
    requires PollsOk(s.core, s.polls, s.handed) && Spent(s, id) && Enabled(s, Receive(now, response))
    ensures var t := Step(s, Receive(now, response));
            Spent(t, id) && (t.ran == s.ran || exists p, x :: x != id && t.ran == s.ran + [Execution(p, x)])
  {
    var p := s.client.phase.poll;
    var reply := s.polls[p].phase.reply;
    if reply.Work? {
      assert HandedWork(s.core, s.handed, p, reply.request);
    }
  }

  lemma CoreStaysSpent(s: System, t: System, id: Id)
    requires Spent(s, id) && Advances(s.core, t.core) && s.epoch <= t.epoch && s.now <= t.now
    requires t.polls == s.polls && t.client == s.client
    ensures Spent(t, id)
  {
  }

  /** Admitting, waking and giving up: an agent whose epoch is behind is never admitted. */
  lemma PhaseStaysSpent(s: System, e: Event, id: Id)
    requires ClientOk(s.core, s.polls, s.client) && Spent(s, id) && Enabled(s, e)
    requires e.Admit? || e.Wake? || e.GiveUp?
    ensures Spent(Step(s, e), id)
  {
  }

  lemma ClientStaysSpent(s: System, e: Event, id: Id)
    requires ClientOk(s.core, s.polls, s.client) && Spent(s, id) && Enabled(s, e)
    requires e.StartPoll? || e.LosePoll? || e.Acknowledge? || e.LoseAcknowledgement?
    ensures Spent(Step(s, e), id)
  {
  }

  /** Only a reply makes the machine run something. */
  lemma OthersRunNothing(s: System, e: Event)
    requires Enabled(s, e) && !e.Receive?
    ensures Step(s, e).ran == s.ran
  {
  }

  lemma CoreEventsKeepAgent(s: System, e: Event)
    requires Enabled(s, e) && (e.Enqueue? || e.Cancel? || e.Upload? || e.RaiseEpoch? || e.Tick?)
    ensures Step(s, e).polls == s.polls && Step(s, e).client == s.client
  {
  }

  lemma OthersStaySpent(s: System, e: Event, id: Id)
    requires Inv(s) && Spent(s, id) && Enabled(s, e) && !e.Receive?
    ensures Spent(Step(s, e), id)
  {
    if e.Pass? {
      PassStaysSpent(s, e.poll, e.clock, e.until, id);
    } else if e.Admit? || e.Wake? || e.GiveUp? {
      PhaseStaysSpent(s, e, id);
    } else if e.StartPoll? || e.LosePoll? || e.Acknowledge? || e.LoseAcknowledgement? {
      ClientStaysSpent(s, e, id);
    } else {
      StepAdvances(s, e);
      TimeAndEpochGrow(s, e);
      CoreEventsKeepAgent(s, e);
      CoreStaysSpent(s, Step(s, e), id);
    }
  }

  lemma StepStaysSpent(s: System, e: Event, id: Id)
    requires Inv(s) && Spent(s, id) && Enabled(s, e)
    ensures Spent(Step(s, e), id)
    ensures Step(s, e).ran == s.ran || exists p, x :: x != id && Step(s, e).ran == s.ran + [Execution(p, x)]
  {
    if e.Receive? {
      ReceiveStaysSpent(s, e.now, e.response, id);
    } else {
      OthersRunNothing(s, e);
      OthersStaySpent(s, e, id);
    }
  }

  lemma {:induction false} SpentNeverRunsAgain(s: System, es: seq<Event>, id: Id)
    requires Inv(s) && Spent(s, id) && Legal(s, es)
    ensures forall k :: |s.ran| <= k < |Run(s, es).ran| ==> Run(s, es).ran[k].id != id
    ensures s.ran <= Run(s, es).ran
    decreases |es|
  {
    if es != [] {
      StepKeepsInv(s, es[0]);
      StepStaysSpent(s, es[0], id);
      SpentNeverRunsAgain(Step(s, es[0]), es[1..], id);
    }
  }

  ghost function At(time: int): Clock {
    (x: Id) => time
  }

  lemma RedeliveryPicks(core: AgentState, cursor: nat, id: Id, now: int)
    requires Unacknowledged(core, cursor, id) && core.waiting == {id} && now <= core.items[id].request.expiresAt
    ensures Handed(Absorb(core, cursor), cursor, At(now)) == Some(id)
  {
    assert LostInTime(Absorb(core, cursor), cursor, At(now)) == {id};
  }

  /** Every other caller gives up. */
  lemma {:induction false} CancelOthers(s: System, id: Id) returns (es: seq<Event>)
    requires id in s.core.waiting
    ensures Legal(s, es)
    ensures
      var t := Run(s, es);
      && t.core.waiting == {id} && t.core.items == s.core.items
      && t == s.(core := t.core)
    decreases |s.core.waiting|
  {
    if x :| x in s.core.waiting && x != id {
      var t := Step(s, Cancel(x));
      assert t.core.waiting < s.core.waiting;
      SmallerSet(t.core.waiting, s.core.waiting);
      var rest := CancelOthers(t, id);
      Prepend(s, Cancel(x), rest);
      es := [Cancel(x)] + rest;
    } else {
      es := [];
    }
  }

  lemma SmallerSet(a: set<Id>, b: set<Id>)
    requires a < b
    ensures |a| < |b|
  {
    assert b == a + (b - a) && b - a != {};
  }

  lemma Prepend(s: System, e: Event, es: seq<Event>)
    requires Enabled(s, e) && Legal(Step(s, e), es)
    ensures Legal(s, [e] + es) && Run(s, [e] + es) == Run(Step(s, e), es)
  {
    assert ([e] + es)[1..] == es;
  }

  /** An idle agent has polled and `id` was handed to it. */
  ghost function AfterDelivery(s: System, id: Id): System
    requires id in s.core.items
  {
    s.(core := AfterPass(s.core, s.client.cursor, At(s.now)),
    polls := s.polls + [Poll(s.client.cursor, s.client.epoch, Replied(Work(s.core.items[id].request)))],
    client := s.client.(phase := Polling(|s.polls|)),
    handed := s.handed + [HandOut(|s.polls|, id, s.core.items[id].delivered)])
  }

  lemma Deliver(s: System, id: Id) returns (es: seq<Event>)
    requires s.client.phase == Idle && id in s.core.items && 1 <= s.epoch == s.client.epoch
    requires Handed(Absorb(s.core, s.client.cursor), s.client.cursor, At(s.now)) == Some(id)
    ensures Legal(s, es) && Run(s, es) == AfterDelivery(s, id)
  {
    var p := |s.polls|;
    var pass := Pass(p, At(s.now), s.now);
    var s1 := Step(s, StartPoll);
    var s2 := Step(s1, Admit(p));
    assert s2.polls == s.polls + [Poll(s.client.cursor, s.client.epoch, Ready)];
    var s3 := Step(s2, pass);
    assert s3.polls == AfterDelivery(s, id).polls;
    Prepend(s2, pass, []);
    Prepend(s1, Admit(p), [pass] + []);
    Prepend(s, StartPoll, [Admit(p)] + ([pass] + []));
    es := [StartPoll] + ([Admit(p)] + ([pass] + []));
  }

  /** One cycle of an idle agent up to its response: poll, hand-out, execution. */
  lemma Cycle(s: System, id: Id) returns (es: seq<Event>)
    requires s.client.phase == Idle && id in s.core.items
    requires Handed(Absorb(s.core, s.client.cursor), s.client.cursor, At(s.now)) == Some(id)
    requires s.client.cursor < s.core.items[id].request.sequence && s.core.items[id].request.id == id
    requires 1 <= s.epoch == s.client.epoch == s.core.items[id].request.authorityEpoch
    ensures Legal(s, es)
    ensures var t := Run(s, es);
            && t.core == AfterPass(s.core, s.client.cursor, At(s.now)) && t.epoch == s.epoch && t.now == s.now
            && |t.polls| == |s.polls| + 1
            && t.ran == s.ran + [Execution(|s.polls|, id)]
            && t.client.phase == Answering(|s.polls|, s.core.items[id].request)
            && t.client.epoch == s.client.epoch && (!s.client.saveFirst ==> t.client.cursor == s.client.cursor)
  {
    var request := s.core.items[id].request;
    var delivery := Deliver(s, id);
    var last := Receive(request.expiresAt, Response(id, request.sequence, 200, map[], ""));
    Prepend(AfterDelivery(s, id), last, []);
    Append(s, delivery, [last] + []);
    es := delivery + ([last] + []);
  }

  /** Once every other caller has given up, the next cycle repeats the request. */
  lemma CycleRunsAgain(s: System, id: Id) returns (es: seq<Event>)
    requires s.client.phase == Idle && Replayable(s, id) && 1 <= s.epoch
    requires s.core.items[id].delivered && s.core.items[id].request.id == id
    ensures Legal(s, es) && Run(s, es).ran == s.ran + [Execution(|s.polls|, id)]
  {
    var cancels := CancelOthers(s, id);
    var t := Run(s, cancels);
    RedeliveryPicks(t.core, t.client.cursor, id, t.now);
    var cycle := Cycle(t, id);
    Append(s, cancels, cycle);
    es := cancels + cycle;
  }

  lemma ReplayableRunsAgain(s: System, id: Id)
    requires Inv(s) && s.client.phase == Idle && Ran(s, id) && Replayable(s, id)
    ensures exists es :: RunsAgain(s, es, id)
  {
    var k :| 0 <= k < |s.ran| && s.ran[k].id == id;
    assert WasHanded(s.handed, s.ran[k].poll, id);
    var es := CycleRunsAgain(s, id);
    assert Run(s, es).ran[|s.ran|].id == id;
    assert RunsAgain(s, es, id);
  }

  /** The exact condition. Between two cycles of the agent, a request it has
      already executed can be executed again if and only if Core still waits for
      its answer within the lease, has not redelivered it, and it is above the
      agent's cursor under an unchanged authority. */
  lemma RunsAgainIff(s: System, id: Id)
    requires Inv(s) && s.client.phase == Idle && Ran(s, id)
    ensures (exists es :: RunsAgain(s, es, id)) <==> Replayable(s, id)
  {
    if Replayable(s, id) {
      ReplayableRunsAgain(s, id);
    } else {
      SpentIfNotReplayable(s, id);
      forall es | Legal(s, es) ensures !RunsAgain(s, es, id) {
        SpentNeverRunsAgain(s, es, id);
      }
    }
  }

  // ----- The shipped client does execute a request twice -----

  lemma {:induction false} Append(s: System, es: seq<Event>, fs: seq<Event>)
    requires Legal(s, es) && Legal(Run(s, es), fs)
    ensures Legal(s, es + fs) && Run(s, es + fs) == Run(Run(s, es), fs)
    decreases |es|
  {
    if es == [] {
      assert es + fs == fs;
    } else {
      Append(Step(s, es[0]), es[1..], fs);
      assert (es + fs)[1..] == es[1..] + fs;
    }
  }

  /** A state in which `id` alone is queued and nothing else has happened. */
  ghost predicate FreshlyQueued(s: System, id: Id) {
    && Wf(s.core) && s.core.pending == [id] && s.core.waiting == {id} && s.core.items.Keys == {id}
    && s.client.phase == Idle && !s.client.saveFirst
    && s.client.cursor < s.core.items[id].request.sequence && s.now <= s.core.items[id].request.expiresAt
    && 1 <= s.epoch == s.client.epoch == s.core.items[id].request.authorityEpoch
    && !s.core.items[id].delivered && !s.core.items[id].redelivered && s.core.items[id].request.id == id
  }

  lemma QueuePicks(core: AgentState, cursor: nat, id: Id, now: int)
    requires Wf(core) && core.pending == [id] && core.waiting == {id} && core.items.Keys == {id}
    requires now <= core.items[id].request.expiresAt
    ensures Handed(Absorb(core, cursor), cursor, At(now)) == Some(id)
    ensures id in AfterPass(core, cursor, At(now)).waiting
  {
    var t := Absorb(core, cursor);
    var clock := At(now);
    assert !core.items[core.pending[0]].delivered;
    assert Lost(t, cursor) == {} && LostInTime(t, cursor, clock) == {};
    var u := Expire(t, {});
    assert !Late(t, clock, id) && !Late(u, clock, id);
    assert LatePrefix(u, clock, [id]) == 0 && LatePrefix(t, clock, [id]) == 0;
    assert Elements([id][..0]) == {};
  }

  /** Delivery, execution, and a response that never reaches Core. */
  lemma CycleLosesResponse(s: System, id: Id) returns (es: seq<Event>)
    requires FreshlyQueued(s, id)
    ensures Legal(s, es)
    ensures var t := Run(s, es);
            && t.client.phase == Idle && Replayable(t, id) && t.epoch == s.epoch
            && t.core.items[id].delivered && t.core.items[id].request.id == id
            && t.ran == s.ran + [Execution(|s.polls|, id)] && |t.polls| == |s.polls| + 1
  {
    QueuePicks(s.core, s.client.cursor, id, s.now);
    PassMarksOnlyTheHanded(s.core, s.client.cursor, At(s.now));
    var fs := Cycle(s, id);
    var t := Run(s, fs);
    AgentKindIsFixed(s, fs);
    Prepend(t, LoseAcknowledgement, []);
    Append(s, fs, [LoseAcknowledgement] + []);
    es := fs + ([LoseAcknowledgement] + []);
  }

  /** The concrete run: one request, its response lost once, two executions. */
  lemma LostResponseRunsTwice(id: Id, call: Call) returns (s: System, es: seq<Event>)
    ensures Start(s) && !s.client.saveFirst && Legal(s, es)
    ensures Run(s, es).ran == [Execution(0, id), Execution(1, id)]
  {
    s := System(EmptyAgent(), 1, 0, [], Client(false, 0, 1, Idle), map[], {}, [], []);
    var queue := Enqueue(id, 0, 35, call);
    var t := Step(s, queue);
    EnqueueKeepsWf(s.core, id, 1, 0, 35, call);
    Prepend(s, queue, []);
    var first := CycleLosesResponse(t, id);
    var u := Run(t, first);
    var second := CycleRunsAgain(u, id);
    Append(t, first, second);
    Prepend(s, queue, first + second);
    es := [queue] + (first + second);
  }

  // ----- Wake-ups, outcomes, numbering -----

  /** In every reachable state, a poll asleep on the open wake channel has nothing
      to serve at any time: no lost wake-up. */
  lemma NoLostWakeUp(s: System, es: seq<Event>, p: nat, clock: Clock, id: Id)
    requires Start(s) && Legal(s, es) && p < |Run(s, es).polls|
    requires Run(s, es).polls[p].phase == Blocked(Run(s, es).core.wake)
    ensures !Eligible(Run(s, es).core, Run(s, es).polls[p].cursor, clock, id)
  {
    StartIsInv(s);
    RunKeepsInv(s, es);
    var t := Run(s, es);
    assert SleepsSoundly(t.core, t.polls[p]);
    assert id !in Lost(t.core, t.polls[p].cursor);
  }

  /** In every reachable state each request is in exactly one stage and has been
      sent at most one outcome, so the one-slot channel never blocks a sender. */
  lemma OneStageOneOutcome(s: System, es: seq<Event>, id: Id)
    requires Start(s) && Legal(s, es) && id in Run(s, es).core.items
    ensures |Run(s, es).core.items[id].outcomes| <= 1
    ensures exists stage :: InStage(Run(s, es).core, id, stage)
    ensures forall a, b :: InStage(Run(s, es).core, id, a) && InStage(Run(s, es).core, id, b) ==> a == b
  {
    StartIsInv(s);
    RunKeepsInv(s, es);
    ExactlyOneStage(Run(s, es).core, id);
  }

  lemma AdvancesIsTransitive(c: AgentState, d: AgentState, e: AgentState)
    requires Advances(c, d) && Advances(d, e)
    ensures Advances(c, e)
  {
    forall id | id in d.items ensures Sequence(e, id) == Sequence(d, id) {
    }
  }

  lemma {:induction false} RunAdvances(s: System, es: seq<Event>)
    requires Inv(s) && Legal(s, es)
    ensures Advances(s.core, Run(s, es).core)
    decreases |es|
  {
    if es != [] {
      StepKeepsInv(s, es[0]);
      StepAdvances(s, es[0]);
      RunAdvances(Step(s, es[0]), es[1..]);
      AdvancesIsTransitive(s.core, Step(s, es[0]).core, Run(s, es).core);
    }
  }
}
