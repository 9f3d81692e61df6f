/** Safety of the delivery protocol over every run. */
module RendezvousSafety {
  import opened Basics
  import opened BrokerState
  import opened BrokerSafety
  import opened Rendezvous

  // ----- The invariant, in parts -----

  ghost predicate CoreOk(s: System) {
    && Wf(s.core) && Settled(s.core) && 1 <= s.epoch
    && forall id :: id in s.core.items ==> 1 <= s.core.items[id].request.authorityEpoch <= s.epoch
  }

  /** A request is handed out at most twice, the second time as a redelivery, and
      first hand-outs follow sequence order. */
  ghost predicate LogOk(core: AgentState, handed: seq<HandOut>) {
    && (forall i :: 0 <= i < |handed| ==>
                      && handed[i].id in core.items && core.items[handed[i].id].delivered
                      && (handed[i].again ==> core.items[handed[i].id].redelivered))
    && (forall i, j :: 0 <= i < j < |handed| && handed[i].id == handed[j].id ==> !handed[i].again && handed[j].again)
    && (forall i, j :: 0 <= i < j < |handed| && !handed[i].again && !handed[j].again ==>
                         Sequence(core, handed[i].id) < Sequence(core, handed[j].id))
  }

  ghost predicate WasHanded(handed: seq<HandOut>, poll: nat, id: Id) {
    exists i :: 0 <= i < |handed| && handed[i].poll == poll && handed[i].id == id
  }

  /** A hand-out answers exactly one poll. */
  ghost predicate PollsOk(core: AgentState, polls: seq<Poll>, handed: seq<HandOut>) {
    && (forall i :: 0 <= i < |handed| ==>
                      && handed[i].poll < |polls|
                      && (polls[handed[i].poll].phase.Closed? || polls[handed[i].poll].phase.Replied?))
    && (forall i, j :: 0 <= i < j < |handed| ==> handed[i].poll != handed[j].poll)
    && (forall p :: 0 <= p < |polls| && polls[p].phase.Replied? && polls[p].phase.reply.Work? ==>
                      HandedWork(core, handed, p, polls[p].phase.reply.request))
  }

  ghost predicate HandedWork(core: AgentState, handed: seq<HandOut>, p: nat, request: Request) {
    && request.id in core.items && core.items[request.id].request == request
    && core.items[request.id].delivered
    && WasHanded(handed, p, request.id)
  }

  /** The machine runs only what was handed to it, once per hand-out. */
  ghost predicate RanOk(core: AgentState, polls: seq<Poll>, handed: seq<HandOut>, client: Client, ran: seq<Execution>) {
    && (forall i :: 0 <= i < |ran| ==>
                      && ran[i].poll < |polls| && polls[ran[i].poll].phase.Closed?
                      && WasHanded(handed, ran[i].poll, ran[i].id)
                      && ran[i].id in core.items
                      && core.items[ran[i].id].request.authorityEpoch <= client.epoch
                      && (client.saveFirst ==> Sequence(core, ran[i].id) <= client.cursor))
    && (forall i, j :: 0 <= i < j < |ran| ==> ran[i].poll != ran[j].poll)
    && (client.saveFirst ==> forall i, j :: 0 <= i < j < |ran| ==> ran[i].id != ran[j].id)
  }

  /** The agent answers only requests it was handed. */
  ghost predicate PostsOk(core: AgentState, posted: map<nat, Response>) {
    forall p :: p in posted ==>
                  posted[p].requestId in core.items && core.items[posted[p].requestId].delivered
  }

  /** No lost wake-up: a poll that sleeps on the current wake channel left an
      empty queue and nothing to redeliver, and that has not changed since. */
  ghost predicate WakeOk(core: AgentState, polls: seq<Poll>) {
    forall p :: 0 <= p < |polls| && polls[p].phase.Blocked? ==> SleepsSoundly(core, polls[p])
  }

  ghost predicate SleepsSoundly(core: AgentState, poll: Poll)
    requires poll.phase.Blocked?
  {
    && poll.phase.wake <= core.wake
    && (poll.phase.wake == core.wake ==> core.pending == [] && Lost(core, poll.cursor) == {})
  }

  ghost predicate ClientOk(core: AgentState, polls: seq<Poll>, client: Client) {
    match client.phase
    case Idle => true
    case Polling(p) =>
      && p < |polls| && !polls[p].phase.Closed?
      && polls[p].cursor == client.cursor && polls[p].epoch == client.epoch
    case Answering(p, request) =>
      && request.id in core.items && core.items[request.id].request == request
      && client.cursor <= request.sequence
      && (client.saveFirst ==> request.sequence == client.cursor)
  }

  ghost predicate Inv(s: System) {
    && CoreOk(s) && TrafficOk(s) && WakeOk(s.core, s.polls)
  }

  /** The parts of the invariant that look at Core only through its requests. */
  ghost predicate TrafficOk(s: System) {
    && LogOk(s.core, s.handed)
    && PollsOk(s.core, s.polls, s.handed)
    && RanOk(s.core, s.polls, s.handed, s.client, s.ran)
    && PostsOk(s.core, s.posted)
    && ClientOk(s.core, s.polls, s.client)
  }

  // ----- Core-only steps -----

  /** Requests stay, unchanged, and their flags only go up. */
  ghost predicate Grows(c: AgentState, d: AgentState) {
    && c.items.Keys <= d.items.Keys
    && forall id :: id in c.items ==>
                      && d.items[id].request == c.items[id].request
                      && (c.items[id].delivered ==> d.items[id].delivered)
                      && (c.items[id].redelivered ==> d.items[id].redelivered)
  }

  lemma GrowsKeepsLog(c: AgentState, d: AgentState, handed: seq<HandOut>)
    requires Grows(c, d) && LogOk(c, handed)
    ensures LogOk(d, handed)
  {
    assert forall id :: id in c.items ==> Sequence(d, id) == Sequence(c, id);
  }

  lemma GrowsKeepsPolls(c: AgentState, d: AgentState, polls: seq<Poll>, handed: seq<HandOut>)
    requires Grows(c, d) && PollsOk(c, polls, handed)
    ensures PollsOk(d, polls, handed)
  {
    forall p | 0 <= p < |polls| && polls[p].phase.Replied? && polls[p].phase.reply.Work?
      ensures HandedWork(d, handed, p, polls[p].phase.reply.request)
    {
      assert HandedWork(c, handed, p, polls[p].phase.reply.request);
    }
  }

  lemma GrowsKeepsRan(c: AgentState, s: System)
    requires Grows(c, s.core) && RanOk(c, s.polls, s.handed, s.client, s.ran)
    ensures RanOk(s.core, s.polls, s.handed, s.client, s.ran)
  {
    assert forall id :: id in c.items ==> Sequence(s.core, id) == Sequence(c, id);
  }

  lemma GrowsKeepsTraffic(s: System, d: AgentState)
    requires Grows(s.core, d) && TrafficOk(s)
    ensures TrafficOk(s.(core := d))
  {
    GrowsKeepsLog(s.core, d, s.handed);
    GrowsKeepsPolls(s.core, d, s.polls, s.handed);
    GrowsKeepsRan(s.core, s.(core := d));
  }

  ghost predicate MarksNothing(c: AgentState, d: AgentState) {
    && d.items.Keys == c.items.Keys
    && forall id :: id in c.items ==>
                      && d.items[id].request == c.items[id].request
                      && d.items[id].delivered == c.items[id].delivered
                      && d.items[id].redelivered == c.items[id].redelivered
  }

  /** Sleepers stay sound when the channel is replaced, or when neither the queue
      nor the set of lost requests grows. */
  lemma SleepersStaySound(c: AgentState, d: AgentState, polls: seq<Poll>)
    requires WakeOk(c, polls)
    requires c.wake < d.wake ||
             (c.wake == d.wake && (c.pending == [] ==> d.pending == []) && d.waiting <= c.waiting && MarksNothing(c, d))
    ensures WakeOk(d, polls)
  {
    forall p | 0 <= p < |polls| && polls[p].phase.Blocked? ensures SleepsSoundly(d, polls[p]) {
      assert SleepsSoundly(c, polls[p]);
      if c.wake == d.wake && polls[p].phase.wake == d.wake {
        assert Lost(d, polls[p].cursor) <= Lost(c, polls[p].cursor);
      }
    }
  }

  lemma EnqueueStep(s: System, id: Id, now: int, expires: int, call: Call)
    requires Inv(s) && id !in s.core.items && s.core.next < MAX_UINT64
    ensures Inv(s.(core := AfterEnqueue(s.core, id, s.epoch, now, expires, call)))
  {
    var d := AfterEnqueue(s.core, id, s.epoch, now, expires, call);
    EnqueueKeepsWf(s.core, id, s.epoch, now, expires, call);
    EnqueueKeepsSettled(s.core, id, s.epoch, now, expires, call);
    GrowsKeepsTraffic(s, d);
    SleepersStaySound(s.core, d, s.polls);
  }

  lemma CancelStep(s: System, id: Id)
    requires Inv(s)
    ensures Inv(s.(core := AfterRemove(s.core, id)))
  {
    var d := AfterRemove(s.core, id);
    RemoveKeepsWf(s.core, id);
    RemoveKeepsSettled(s.core, id);
    GrowsKeepsTraffic(s, d);
    SleepersStaySound(s.core, d, s.polls);
  }

  lemma UploadStep(s: System, p: nat)
    requires Inv(s) && p in s.posted
    ensures Inv(s.(core := AfterRespond(s.core, s.posted[p])))
  {
    var d := AfterRespond(s.core, s.posted[p]);
    RespondKeepsWf(s.core, s.posted[p]);
    RespondKeepsSettledIff(s.core, s.posted[p]);
    assert MarksNothing(s.core, d);
    GrowsKeepsTraffic(s, d);
    SleepersStaySound(s.core, d, s.polls);
  }

  // ----- Poll phases that carry no work -----

  ghost predicate Open(phase: PollPhase) {
    phase.Arrived? || phase.Ready? || phase.Blocked?
  }

  /** Replacing polls that carry no work keeps the traffic in order. */
  lemma PollsKeepTraffic(s: System, polls: seq<Poll>)
    requires TrafficOk(s) && |s.polls| <= |polls|
    requires forall q :: 0 <= q < |s.polls| && s.polls[q] != polls[q] ==> Open(s.polls[q].phase)
    requires forall q :: 0 <= q < |polls| && polls[q].phase.Replied? && polls[q].phase.reply.Work? ==>
                           q < |s.polls| && polls[q] == s.polls[q]
    ensures PollsOk(s.core, polls, s.handed) && RanOk(s.core, polls, s.handed, s.client, s.ran)
  {
    forall q | 0 <= q < |polls| && polls[q].phase.Replied? && polls[q].phase.reply.Work?
      ensures HandedWork(s.core, s.handed, q, polls[q].phase.reply.request)
    {
      assert HandedWork(s.core, s.handed, q, s.polls[q].phase.reply.request);
    }
  }

  lemma PhaseStep(s: System, p: nat, phase: PollPhase)
    requires Inv(s) && p < |s.polls| && Open(s.polls[p].phase)
    requires phase == Ready || (phase.Replied? && !phase.reply.Work?)
    ensures Inv(SetPhase(s, p, phase))
  {
    PollsKeepTraffic(s, SetPhase(s, p, phase).polls);
  }

  lemma StartPollStep(s: System)
    requires Inv(s) && s.client.phase == Idle
    ensures Inv(Step(s, StartPoll))
  {
    PollsKeepTraffic(s, Step(s, StartPoll).polls);
  }

  // ----- A pass -----

  lemma HandOutKeepsLog(c: AgentState, d: AgentState, handed: seq<HandOut>, p: nat, id: Id)
    requires LogOk(c, handed) && MarksOnly(c, d, Some(id))
    requires c.items[id].delivered ==> !c.items[id].redelivered
    requires !c.items[id].delivered ==>
               forall x :: x in c.items && c.items[x].delivered ==> Sequence(c, x) < Sequence(c, id)
    ensures LogOk(d, handed + [HandOut(p, id, c.items[id].delivered)])
  {
    forall x ensures Sequence(d, x) == Sequence(c, x) {
    }
    var longer := handed + [HandOut(p, id, c.items[id].delivered)];
    forall i | 0 <= i < |longer| ensures i < |handed| ==> longer[i] == handed[i] {
    }
  }

  lemma WasHandedKept(handed: seq<HandOut>, h: HandOut, p: nat, id: Id)
    ensures WasHanded(handed, p, id) ==> WasHanded(handed + [h], p, id)
    ensures WasHanded(handed + [h], h.poll, h.id)
  {
    var longer := handed + [h];
    assert longer[|handed|] == h;
    if WasHanded(handed, p, id) {
      var i :| 0 <= i < |handed| && handed[i].poll == p && handed[i].id == id;
      assert longer[i] == handed[i];
    }
  }

  lemma HandOutKeepsPolls(s: System, d: AgentState, p: nat, id: Id)
    requires PollsOk(s.core, s.polls, s.handed) && MarksOnly(s.core, d, Some(id))
    requires p < |s.polls| && s.polls[p].phase == Ready && s.core.items[id].request.id == id
    ensures var t := HandOutTo(s, d, p, id); PollsOk(d, t.polls, t.handed)
  {
    var t := HandOutTo(s, d, p, id);
    var h := HandOut(p, id, s.core.items[id].delivered);
    forall i | 0 <= i < |s.handed| ensures t.handed[i] == s.handed[i] && s.handed[i].poll != p {
    }
    assert t.handed[|s.handed|] == h;
    forall q | 0 <= q < |t.polls| && t.polls[q].phase.Replied? && t.polls[q].phase.reply.Work?
      ensures HandedWork(d, t.handed, q, t.polls[q].phase.reply.request)
    {
      WasHandedKept(s.handed, h, q, t.polls[q].phase.reply.request.id);
      assert q != p ==> HandedWork(s.core, s.handed, q, s.polls[q].phase.reply.request);
    }
  }

  lemma HandOutKeepsRan(s: System, d: AgentState, p: nat, id: Id)
    requires RanOk(s.core, s.polls, s.handed, s.client, s.ran) && MarksOnly(s.core, d, Some(id))
    requires p < |s.polls| && s.polls[p].phase == Ready
    ensures var t := HandOutTo(s, d, p, id); RanOk(d, t.polls, t.handed, s.client, s.ran)
  {
    var t := HandOutTo(s, d, p, id);
    forall x ensures Sequence(d, x) == Sequence(s.core, x) {
    }
    forall i | 0 <= i < |t.ran| ensures WasHanded(t.handed, t.ran[i].poll, t.ran[i].id) {
      WasHandedKept(s.handed, HandOut(p, id, s.core.items[id].delivered), s.ran[i].poll, s.ran[i].id);
    }
  }

  ghost function HandOutTo(s: System, d: AgentState, p: nat, id: Id): System
    requires id in s.core.items && p < |s.polls|
  {
    SetPhase(s.(core := d), p, Replied(Work(s.core.items[id].request)))
    .(handed := s.handed + [HandOut(p, id, s.core.items[id].delivered)])
  }

  /** Other sleepers stay sound: with an empty queue a hand-out is a redelivery,
      which only shrinks the set of lost requests. */
  lemma PassKeepsSleepers(s: System, d: AgentState, handed: Option<Id>, p: nat, phase: PollPhase)
    requires WakeOk(s.core, s.polls) && MarksOnly(s.core, d, handed) && p < |s.polls|
    requires s.core.pending == [] ==> d.pending == [] && (handed.Some? ==> s.core.items[handed.value].delivered)
    requires phase.Blocked? ==> phase.wake == d.wake && d.pending == [] && Lost(d, s.polls[p].cursor) == {}
    ensures WakeOk(d, SetPhase(s, p, phase).polls)
  {
    var polls := SetPhase(s, p, phase).polls;
    forall q | 0 <= q < |polls| && polls[q].phase.Blocked? ensures SleepsSoundly(d, polls[q]) {
      if q != p {
        assert SleepsSoundly(s.core, s.polls[q]);
        if s.polls[q].phase.wake == d.wake {
          assert Lost(d, s.polls[q].cursor) <= Lost(s.core, s.polls[q].cursor);
        }
      }
    }
  }

  lemma QueueEmptiesOnce(s: AgentState, cursor: nat, clock: Clock)
    requires Wf(s) && s.pending == []
    ensures AfterPass(s, cursor, clock).pending == []
    ensures var handed := Handed(Absorb(s, cursor), cursor, clock);
            handed.Some? ==> handed.value in s.items && s.items[handed.value].delivered
  {
    var t := Absorb(s, cursor);
    if LostInTime(t, cursor, clock) != {} {
      assert Oldest(t, LostInTime(t, cursor, clock)) in LostInTime(t, cursor, clock);
    }
  }

  /** All that a pass that hands out `id` means for the rest of the system. */
  lemma HandOutFacts(s: AgentState, cursor: nat, clock: Clock, id: Id)
    requires Wf(s) && Handed(Absorb(s, cursor), cursor, clock) == Some(id)
    ensures MarksOnly(s, AfterPass(s, cursor, clock), Some(id))
    ensures s.items[id].request.id == id
    ensures s.items[id].delivered ==> !s.items[id].redelivered
    ensures !s.items[id].delivered ==>
              forall x :: x in s.items && s.items[x].delivered ==> Sequence(s, x) < Sequence(s, id)
    ensures s.pending == [] ==> AfterPass(s, cursor, clock).pending == [] && s.items[id].delivered
  {
    PassMarksOnlyTheHanded(s, cursor, clock);
    SecondHandOutIsUnacknowledged(s, cursor, clock);
    if s.pending == [] {
      QueueEmptiesOnce(s, cursor, clock);
    }
    var t := Absorb(s, cursor);
    AbsorbKeepsWf(s, cursor);
    forall x | x in s.items && s.items[x].delivered && !s.items[id].delivered ensures Sequence(s, x) < Sequence(s, id) {
      FirstHandOutIsNewest(t, cursor, clock, x);
      assert Sequence(t, x) == Sequence(s, x) && Sequence(t, id) == Sequence(s, id);
    }
  }

  lemma PassKeepsCore(s: System, cursor: nat, clock: Clock)
    requires CoreOk(s)
    ensures CoreOk(s.(core := AfterPass(s.core, cursor, clock)))
    ensures MarksOnly(s.core, AfterPass(s.core, cursor, clock), Handed(Absorb(s.core, cursor), cursor, clock))
  {
    PassKeepsWf(s.core, cursor, clock);
    PassKeepsSettled(s.core, cursor, clock);
    PassMarksOnlyTheHanded(s.core, cursor, clock);
  }

  lemma HandOutKeepsTraffic(s: System, d: AgentState, p: nat, id: Id)
    requires TrafficOk(s) && MarksOnly(s.core, d, Some(id))
    requires p < |s.polls| && s.polls[p].phase == Ready && s.core.items[id].request.id == id
    requires s.core.items[id].delivered ==> !s.core.items[id].redelivered
    requires !s.core.items[id].delivered ==>
               forall x :: x in s.core.items && s.core.items[x].delivered ==> Sequence(s.core, x) < Sequence(s.core, id)
    ensures TrafficOk(HandOutTo(s, d, p, id))
  {
    HandOutKeepsLog(s.core, d, s.handed, p, id);
    HandOutKeepsPolls(s, d, p, id);
    HandOutKeepsRan(s, d, p, id);
  }

  lemma PassHandsOut(s: System, p: nat, clock: Clock, id: Id)
    requires Inv(s) && p < |s.polls| && s.polls[p].phase == Ready
    requires Handed(Absorb(s.core, s.polls[p].cursor), s.polls[p].cursor, clock) == Some(id)
    ensures Inv(PassPoll(s, p, clock))
  {
    var cursor := s.polls[p].cursor;
    var d := AfterPass(s.core, cursor, clock);
    PassKeepsCore(s, cursor, clock);
    HandOutFacts(s.core, cursor, clock, id);
    HandOutKeepsTraffic(s, d, p, id);
    PassKeepsSleepers(s, d, Some(id), p, Replied(Work(s.core.items[id].request)));
    assert PassPoll(s, p, clock) == HandOutTo(s, d, p, id);
  }

  lemma PassBlocks(s: System, p: nat, clock: Clock)
    requires Inv(s) && p < |s.polls| && s.polls[p].phase == Ready
    requires Handed(Absorb(s.core, s.polls[p].cursor), s.polls[p].cursor, clock) == None
    ensures Inv(PassPoll(s, p, clock))
  {
    var cursor := s.polls[p].cursor;
    var d := AfterPass(s.core, cursor, clock);
    PassKeepsCore(s, cursor, clock);
    EmptyPassDrains(s.core, cursor, clock);
    GrowsKeepsTraffic(s, d);
    var t := s.(core := d);
    PollsKeepTraffic(t, SetPhase(t, p, Blocked(d.wake)).polls);
    PassKeepsSleepers(s, d, None, p, Blocked(d.wake));
  }

  // ----- The agent takes a reply -----

  lemma CloseKeepsTraffic(s: System, p: nat)
    requires TrafficOk(s) && p < |s.polls|
    ensures var polls := SetPhase(s, p, Closed).polls;
            PollsOk(s.core, polls, s.handed) && RanOk(s.core, polls, s.handed, s.client, s.ran)
  {
    var polls := SetPhase(s, p, Closed).polls;
    forall q | 0 <= q < |polls| && polls[q].phase.Replied? && polls[q].phase.reply.Work?
      ensures HandedWork(s.core, s.handed, q, polls[q].phase.reply.request)
    {
      assert HandedWork(s.core, s.handed, q, s.polls[q].phase.reply.request);
    }
  }

  /** A reply that brings no new work closes the poll; the epoch may have moved up. */
  lemma CloseStep(s: System, p: nat, epoch: nat)
    requires Inv(s) && p < |s.polls| && s.client.epoch <= epoch
    ensures Inv(SetClient(SetPhase(s, p, Closed), s.client.cursor, epoch, Idle))
  {
    CloseKeepsTraffic(s, p);
  }

  lemma ExecutionKeepsRan(s: System, p: nat, request: Request, client: Client)
    requires RanOk(s.core, s.polls, s.handed, s.client, s.ran) && HandedWork(s.core, s.handed, p, request)
    requires p < |s.polls| && s.polls[p].phase.Replied? && s.client.cursor < request.sequence
    requires client.saveFirst == s.client.saveFirst
    requires client.cursor == if s.client.saveFirst then request.sequence else s.client.cursor
    requires s.client.epoch <= client.epoch && request.authorityEpoch <= client.epoch
    ensures RanOk(s.core, SetPhase(s, p, Closed).polls, s.handed, client, s.ran + [Execution(p, request.id)])
    ensures RanOk(s.core, SetPhase(s, p, Closed).polls, s.handed, client, s.ran)
  {
    var longer := s.ran + [Execution(p, request.id)];
    forall i | 0 <= i < |s.ran| ensures longer[i] == s.ran[i] && s.ran[i].poll != p {
    }
    assert Sequence(s.core, request.id) == request.sequence;
  }

  lemma WorkStep(s: System, p: nat, request: Request, now: int, response: Response)
    requires Inv(s) && p < |s.polls| && s.polls[p].phase == Replied(Work(request))
    requires request.authorityEpoch >= s.client.epoch && request.sequence > s.client.cursor
    requires response.requestId == request.id
    ensures Inv(Digest(s, p, Work(request), now, response))
  {
    assert HandedWork(s.core, s.handed, p, s.polls[p].phase.reply.request);
    ExecutionKeepsRan(s, p, request, Digest(s, p, Work(request), now, response).client);
    CloseKeepsTraffic(s, p);
  }

  lemma ReceiveStep(s: System, now: int, response: Response)
    requires Inv(s) && Enabled(s, Receive(now, response))
    ensures Inv(Step(s, Receive(now, response)))
  {
    var p := s.client.phase.poll;
    var reply := s.polls[p].phase.reply;
    if reply.Work? && reply.request.authorityEpoch >= s.client.epoch && reply.request.sequence > s.client.cursor {
      WorkStep(s, p, reply.request, now, response);
    } else {
      CloseStep(s, p, Step(s, Receive(now, response)).client.epoch);
    }
  }

  /** The agent goes idle; its cursor only goes up. */
  lemma IdleStep(s: System, cursor: nat)
    requires Inv(s) && s.client.cursor <= cursor
    ensures Inv(SetClient(s, cursor, s.client.epoch, Idle))
  {
    assert TrafficOk(SetClient(s, cursor, s.client.epoch, Idle));
  }

  lemma TimeKeepsInv(s: System, to: int)
    ensures Inv(s.(now := to)) <==> Inv(s)
  {
  }

  // ----- Every step, every run -----

  lemma StepKeepsInv(s: System, e: Event)
    requires Inv(s) && Enabled(s, e)
    ensures Inv(Step(s, e))
  {
    match e
    case Enqueue(id, now, expires, call) => EnqueueStep(s, id, now, expires, call);
    case Cancel(id) => CancelStep(s, id);
    case RaiseEpoch(target) =>
      assert CoreOk(Step(s, e)) && TrafficOk(Step(s, e));
    case StartPoll => StartPollStep(s);
    case Admit(p) => PhaseStep(s, p, AdmitPoll(s, s.polls[p]));
    case Tick(to) => TimeKeepsInv(s, to);
    case Pass(p, clock, until) =>
      TimeKeepsInv(PassPoll(s, p, clock), until);
      var handed := Handed(Absorb(s.core, s.polls[p].cursor), s.polls[p].cursor, clock);
      if handed.Some? {
        PassHandsOut(s, p, clock, handed.value);
      } else {
        PassBlocks(s, p, clock);
      }
    case Wake(p) => PhaseStep(s, p, Ready);
    case GiveUp(p) => PhaseStep(s, p, Replied(NoContent(s.epoch)));
    case Receive(now, response) => ReceiveStep(s, now, response);
    case LosePoll => IdleStep(s, s.client.cursor);
    case Upload(p) => UploadStep(s, p);
    case Acknowledge => IdleStep(s, s.client.phase.request.sequence);
    case LoseAcknowledgement => IdleStep(s, s.client.cursor);
  }

  lemma {:induction false} RunKeepsInv(s: System, es: seq<Event>)
    requires Inv(s) && Legal(s, es)
    ensures Inv(Run(s, es))
    decreases |es|
  {
    if es != [] {
      StepKeepsInv(s, es[0]);
      RunKeepsInv(Step(s, es[0]), es[1..]);
    }
  }

  lemma StartIsInv(s: System)
    requires Start(s)
    ensures Inv(s)
  {
  }
}
