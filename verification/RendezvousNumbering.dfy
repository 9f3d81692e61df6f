/** Sequence numbers against the agent's durable cursor: which work the agent
    takes for a replay, and when Core numbers work that low. */
module RendezvousNumbering {
  import opened Basics
  import opened BrokerState
  import opened BrokerSafety
  import opened Rendezvous
  import opened RendezvousSafety
  import opened RendezvousTheorems

  // ----- What the agent takes for a replay -----

  ghost predicate Delivered(core: AgentState, sequence: nat) {
    exists id :: id in core.items && core.items[id].delivered && core.items[id].request.sequence == sequence
  }

  /** The agent's cursor is where it started, or the number of work it was handed. */
  ghost predicate CursorOk(core: AgentState, client: Client, first: nat) {
    && first <= client.cursor && (client.cursor == first || Delivered(core, client.cursor))
    && (client.phase.Answering? ==> Delivered(core, client.phase.request.sequence))
  }

  /** Work waiting for the agent lies above its cursor, or lay below the first one. */
  ghost predicate ReplyOk(polls: seq<Poll>, client: Client, first: nat) {
    client.phase.Polling? && client.phase.poll < |polls| ==>
      match polls[client.phase.poll].phase
      case Replied(Work(request)) => request.sequence > client.cursor || request.sequence <= first
      case _ => true
  }

  ghost predicate LowOk(s: System, first: nat) {
    CursorOk(s.core, s.client, first) && ReplyOk(s.polls, s.client, first)
  }

  lemma GrowsKeepsCursor(c: AgentState, d: AgentState, client: Client, first: nat)
    requires Grows(c, d) && CursorOk(c, client, first)
    ensures CursorOk(d, client, first)
  {
    forall sequence: nat | Delivered(c, sequence) ensures Delivered(d, sequence) {
      var id :| id in c.items && c.items[id].delivered && c.items[id].request.sequence == sequence;
      assert id in d.items;
    }
  }

  lemma CoreKeepsLow(s: System, e: Event, first: nat)
    requires Inv(s) && LowOk(s, first) && Enabled(s, e)
    requires e.Enqueue? || e.Cancel? || e.Upload? || e.RaiseEpoch? || e.Tick?
    ensures LowOk(Step(s, e), first)
  {
    StepAdvances(s, e);
    CoreEventsKeepAgent(s, e);
    GrowsKeepsCursor(s.core, Step(s, e).core, s.client, first);
  }

  lemma PhaseKeepsLow(s: System, e: Event, first: nat)
    requires LowOk(s, first) && Enabled(s, e) && (e.Admit? || e.Wake? || e.GiveUp?)
    ensures LowOk(Step(s, e), first)
  {
  }

  lemma ClientKeepsLow(s: System, e: Event, first: nat)
    requires ClientOk(s.core, s.polls, s.client) && LowOk(s, first) && Enabled(s, e)
    requires e.StartPoll? || e.LosePoll? || e.Acknowledge? || e.LoseAcknowledgement?
    ensures LowOk(Step(s, e), first)
  {
  }

  lemma ReceiveKeepsLow(s: System, now: int, response: Response, first: nat)
    requires PollsOk(s.core, s.polls, s.handed) && LowOk(s, first) && Enabled(s, Receive(now, response))
    ensures LowOk(Step(s, Receive(now, response)), first)
  {
    var p := s.client.phase.poll;
    var reply := s.polls[p].phase.reply;
    if reply.Work? {
      assert HandedWork(s.core, s.handed, p, reply.request);
      assert Delivered(s.core, reply.request.sequence);
    }
  }

  /** A redelivery lies above the polled cursor; a first hand-out lies above all
      that was handed out, so above a cursor that has moved. */
  lemma HandedIsAbove(s: System, clock: Clock, id: Id, first: nat)
    requires Wf(s.core) && CursorOk(s.core, s.client, first)
    requires Handed(Absorb(s.core, s.client.cursor), s.client.cursor, clock) == Some(id)
    ensures id in s.core.items
    ensures s.core.items[id].request.sequence > s.client.cursor || s.core.items[id].request.sequence <= first
  {
    var cursor := s.client.cursor;
    HandOutFacts(s.core, cursor, clock, id);
    SecondHandOutIsUnacknowledged(s.core, cursor, clock);
    if !s.core.items[id].delivered && cursor != first {
      var x :| x in s.core.items && s.core.items[x].delivered && s.core.items[x].request.sequence == cursor;
      assert Sequence(s.core, x) < Sequence(s.core, id);
    }
  }

  lemma PassAnswers(s: System, p: nat, clock: Clock, until: int)
    requires Enabled(s, Pass(p, clock, until))
    ensures
      var t := Step(s, Pass(p, clock, until));
      var handed := Handed(Absorb(s.core, s.polls[p].cursor), s.polls[p].cursor, clock);
      && t.client == s.client && |t.polls| == |s.polls|
      && (forall q :: 0 <= q < |t.polls| && q != p ==> t.polls[q] == s.polls[q])
      && (t.polls[p].phase.Replied? ==>
            && handed.Some? && handed.value in s.core.items
            && t.polls[p].phase == Replied(Work(s.core.items[handed.value].request)))
  {
  }

  lemma PassKeepsLow(s: System, p: nat, clock: Clock, until: int, first: nat)
    requires Inv(s) && LowOk(s, first) && Enabled(s, Pass(p, clock, until))
    ensures LowOk(Step(s, Pass(p, clock, until)), first)
  {
    StepAdvances(s, Pass(p, clock, until));
    PassAnswers(s, p, clock, until);
    var t := Step(s, Pass(p, clock, until));
    GrowsKeepsCursor(s.core, t.core, s.client, first);
    var handed := Handed(Absorb(s.core, s.polls[p].cursor), s.polls[p].cursor, clock);
    if s.client.phase == Polling(p) && handed.Some? {
      HandedIsAbove(s, clock, handed.value, first);
    }
  }

  lemma StepKeepsLow(s: System, e: Event, first: nat)
    requires Inv(s) && LowOk(s, first) && Enabled(s, e)
    ensures LowOk(Step(s, e), first)
  {
    if e.Pass? {
      PassKeepsLow(s, e.poll, e.clock, e.until, first);
    } else if e.Receive? {
      ReceiveKeepsLow(s, e.now, e.response, first);
    } else if e.Admit? || e.Wake? || e.GiveUp? {
      PhaseKeepsLow(s, e, first);
    } else if e.StartPoll? || e.LosePoll? || e.Acknowledge? || e.LoseAcknowledgement? {
      ClientKeepsLow(s, e, first);
    } else {
      CoreKeepsLow(s, e, first);
    }
  }

  lemma {:induction false} RunKeepsLow(s: System, es: seq<Event>, first: nat)
    requires Inv(s) && LowOk(s, first) && Legal(s, es)
    ensures LowOk(Run(s, es), first)
    decreases |es|
  {
    if es != [] {
      StepKeepsInv(s, es[0]);
      StepKeepsLow(s, es[0], first);
      RunKeepsLow(Step(s, es[0]), es[1..], first);
    }
  }

  /** The exact condition. Over every run, the agent takes the work in a reply for
      a replay if and only if that work is numbered at or below the cursor the
      agent held when Core started. */
  lemma TakenForReplayIff(s: System, es: seq<Event>, request: Request)
    requires Start(s) && Legal(s, es)
    requires Run(s, es).client.phase.Polling? && Run(s, es).client.phase.poll < |Run(s, es).polls|
    requires Run(s, es).polls[Run(s, es).client.phase.poll].phase == Replied(Work(request))
    ensures request.sequence <= Run(s, es).client.cursor <==> request.sequence <= s.client.cursor
  {
    StartIsInv(s);
    RunKeepsLow(s, es, s.client.cursor);
  }

  // ----- When Core numbers work that low -----

  function Enqueues(es: seq<Event>): nat {
    if es == [] then 0 else (if es[0].Enqueue? then 1 else 0) + Enqueues(es[1..])
  }

  ghost predicate Passes(es: seq<Event>) {
    exists k :: 0 <= k < |es| && es[k].Pass?
  }

  /** Nobody polls from below. */
  ghost predicate CursorsAbove(s: System, first: nat) {
    first <= s.client.cursor && forall p :: 0 <= p < |s.polls| ==> first <= s.polls[p].cursor
  }

  lemma PassKeepsCursors(s: System, p: nat, clock: Clock, until: int)
    requires Enabled(s, Pass(p, clock, until))
    ensures
      var polls := Step(s, Pass(p, clock, until)).polls;
      |polls| == |s.polls| && forall q :: 0 <= q < |polls| ==> polls[q].cursor == s.polls[q].cursor
  {
  }

  lemma PollsKeepCursors(s: System, e: Event)
    requires Enabled(s, e) && !e.Pass?
    ensures |s.polls| <= |Step(s, e).polls| <= |s.polls| + 1
    ensures forall p :: 0 <= p < |s.polls| ==> Step(s, e).polls[p].cursor == s.polls[p].cursor
    ensures |s.polls| < |Step(s, e).polls| ==> Step(s, e).polls[|s.polls|].cursor == s.client.cursor
  {
  }

  lemma StepKeepsCursorsAbove(s: System, e: Event, first: nat)
    requires ClientOk(s.core, s.polls, s.client) && CursorsAbove(s, first) && Enabled(s, e)
    ensures CursorsAbove(Step(s, e), first)
  {
    CursorGrows(s, e);
    if e.Pass? {
      PassKeepsCursors(s, e.poll, e.clock, e.until);
    } else {
      PollsKeepCursors(s, e);
    }
  }

  lemma StepCounts(s: System, e: Event)
    requires Enabled(s, e) && !e.Pass?
    ensures Step(s, e).core.next == s.core.next + if e.Enqueue? then 1 else 0
  {
  }

  lemma PassesRest(es: seq<Event>)
    requires es != []
    ensures Passes(es) <==> es[0].Pass? || Passes(es[1..])
  {
    var rest := es[1..];
    assert forall k :: 0 <= k < |rest| ==> rest[k] == es[k + 1];
    if Passes(es) && !es[0].Pass? {
      var k :| 0 <= k < |es| && es[k].Pass?;
      assert rest[k - 1].Pass?;
    }
  }

  lemma PassLiftsCounter(s: System, e: Event, rest: seq<Event>, first: nat)
    requires Inv(s) && CursorsAbove(s, first) && Enabled(s, e) && e.Pass? && Legal(Step(s, e), rest)
    ensures Run(Step(s, e), rest).core.next >= first
  {
    StepKeepsInv(s, e);
    PassCore(s, e.poll, e.clock, e.until);
    PassMarksOnlyTheHanded(s.core, s.polls[e.poll].cursor, e.clock);
    RunAdvances(Step(s, e), rest);
  }

  /** Until the first pass Core only counts; a pass lifts the counter to the cursor. */
  lemma {:induction false} CounterAfter(s: System, es: seq<Event>, first: nat)
    requires Inv(s) && CursorsAbove(s, first) && Legal(s, es)
    ensures if Passes(es) then Run(s, es).core.next >= first
            else Run(s, es).core.next == s.core.next + Enqueues(es)
    decreases |es|
  {
    if es != [] {
      PassesRest(es);
      if es[0].Pass? {
        PassLiftsCounter(s, es[0], es[1..], first);
      } else {
        StepKeepsInv(s, es[0]);
        StepKeepsCursorsAbove(s, es[0], first);
        StepCounts(s, es[0]);
        CounterAfter(Step(s, es[0]), es[1..], first);
      }
    }
  }

  /** Work is numbered at or below the agent's first cursor if and only if it was
      queued before any poll was served, with fewer requests before it than the
      cursor says. */
  lemma NumberedLowIff(s: System, es: seq<Event>, id: Id, now: int, expires: int, call: Call)
    requires Start(s) && Legal(s, es) && Enabled(Run(s, es), Enqueue(id, now, expires, call))
    ensures
      var t := Step(Run(s, es), Enqueue(id, now, expires, call));
      Sequence(t.core, id) <= s.client.cursor <==> !Passes(es) && Enqueues(es) < s.client.cursor
  {
    StartIsInv(s);
    CounterAfter(s, es, s.client.cursor);
  }

  // ----- A restarted Core does it -----

  /** Delivered work the agent takes for a replay is thrown away unexecuted. */
  lemma Rebuff(s: System, id: Id) returns (es: seq<Event>)
    requires s.client.phase == Idle && id in s.core.items && s.core.items[id].request.id == id
    requires 1 <= s.epoch == s.client.epoch == s.core.items[id].request.authorityEpoch
    requires Handed(Absorb(s.core, s.client.cursor), s.client.cursor, At(s.now)) == Some(id)
    requires s.core.items[id].request.sequence <= s.client.cursor
    ensures Legal(s, es)
    ensures
      var t := Run(s, es);
      && t.core == AfterPass(s.core, s.client.cursor, At(s.now)) && t.client == s.client && t.ran == s.ran
      && t.handed == s.handed + [HandOut(|s.polls|, id, s.core.items[id].delivered)]
  {
    var request := s.core.items[id].request;
    var delivery := Deliver(s, id);
    var last := Receive(request.expiresAt, Response(id, request.sequence, 200, map[], ""));
    Prepend(AfterDelivery(s, id), last, []);
    Append(s, delivery, [last] + []);
    es := delivery + ([last] + []);
  }

  lemma FirstRequestIsHanded(core: AgentState, id: Id, call: Call)
    requires core == AfterEnqueue(EmptyAgent(), id, 1, 0, 35, call)
    ensures Wf(core) && core.items.Keys == {id} && core.items[id].request == Request(id, 1, 1, 0, 35, call)
    ensures !core.items[id].delivered
    ensures Handed(Absorb(core, 1), 1, At(0)) == Some(id) && id in AfterPass(core, 1, At(0)).waiting
  {
    EnqueueKeepsWf(EmptyAgent(), id, 1, 0, 35, call);
    assert core.pending == [id] && core.waiting == {id};
    QueuePicks(core, 1, id, 0);
  }

  /** The run: Core restarts, a request is queued before the agent, whose cursor is
      one, polls again. It gets number one, reaches the agent and is thrown away;
      its caller still waits. */
  lemma RestartLosesWork(id: Id, call: Call) returns (s: System, es: seq<Event>)
    ensures Start(s) && s.client.cursor == 1 && Legal(s, es) && es != [] && es[0] == Enqueue(id, 0, 35, call)
    ensures
      var t := Run(s, es);
      && id in t.core.waiting && Sequence(t.core, id) <= s.client.cursor
      && t.handed == [HandOut(0, id, false)] && t.client.phase == Idle && t.ran == []
  {
    s := System(EmptyAgent(), 1, 0, [], Client(false, 1, 1, Idle), map[], {}, [], []);
    var queue := Enqueue(id, 0, 35, call);
    var t := Step(s, queue);
    FirstRequestIsHanded(t.core, id, call);
    var rest := Rebuff(t, id);
    PassMarksOnlyTheHanded(t.core, 1, At(0));
    Prepend(s, queue, rest);
    es := [queue] + rest;
  }

  // ----- What becomes of low and of later work -----

  lemma CursorGrows(s: System, e: Event)
    requires Enabled(s, e) && ClientOk(s.core, s.polls, s.client)
    ensures Step(s, e).client.cursor >= s.client.cursor
  {
    if e.Acknowledge? {
      AcknowledgeRaisesCursor(s);
    } else if e.Receive? {
      ReceiveKeepsCursor(s, e.now, e.response);
    } else {
      QuietKeepsCursor(s, e);
    }
  }

  lemma ReceiveKeepsCursor(s: System, now: int, response: Response)
    requires Enabled(s, Receive(now, response))
    ensures Step(s, Receive(now, response)).client.cursor >= s.client.cursor
  {
  }

  /** Work queued after a poll was served is numbered above that poll's cursor,
      however long the run goes on. */
  lemma LaterWorkIsAboveCursor(s: System, p: nat, clock: Clock, until: int, es: seq<Event>, id: Id)
    requires Inv(s) && Enabled(s, Pass(p, clock, until)) && Legal(Step(s, Pass(p, clock, until)), es)
    requires id !in s.core.items && id in Run(Step(s, Pass(p, clock, until)), es).core.items
    ensures Sequence(Run(Step(s, Pass(p, clock, until)), es).core, id) > s.polls[p].cursor
  {
    var t := Step(s, Pass(p, clock, until));
    StepKeepsInv(s, Pass(p, clock, until));
    PassMarksOnlyTheHanded(s.core, s.polls[p].cursor, clock);
    RunAdvances(t, es);
    assert t.core.next >= s.polls[p].cursor;
  }

  lemma QuietKeepsCursor(s: System, e: Event)
    requires Enabled(s, e) && !e.Receive? && !e.Acknowledge?
    ensures Step(s, e).ran == s.ran && Step(s, e).client.cursor == s.client.cursor
  {
  }

  lemma AcknowledgeRaisesCursor(s: System)
    requires Enabled(s, Acknowledge) && ClientOk(s.core, s.polls, s.client)
    ensures Step(s, Acknowledge).ran == s.ran && Step(s, Acknowledge).client.cursor >= s.client.cursor
  {
  }

  lemma ReceiveSkipsBelow(s: System, now: int, response: Response, id: Id)
    requires Enabled(s, Receive(now, response)) && PollsOk(s.core, s.polls, s.handed)
    requires id in s.core.items && Sequence(s.core, id) <= s.client.cursor
    ensures
      var t := Step(s, Receive(now, response));
      && t.client.cursor >= s.client.cursor
      && (t.ran == s.ran || exists p, x :: x != id && t.ran == s.ran + [Execution(p, x)])
  {
    var p := s.client.phase.poll;
    var reply := s.polls[p].phase.reply;
    if reply.Work? {
      assert HandedWork(s.core, s.handed, p, reply.request);
    }
  }

  lemma StepSkipsBelow(s: System, e: Event, id: Id)
    requires Inv(s) && Enabled(s, e) && id in s.core.items && Sequence(s.core, id) <= s.client.cursor
    ensures
      var t := Step(s, e);
      && id in t.core.items && Sequence(t.core, id) <= t.client.cursor
      && (t.ran == s.ran || exists p, x :: x != id && t.ran == s.ran + [Execution(p, x)])
  {
    StepAdvances(s, e);
    if e.Receive? {
      ReceiveSkipsBelow(s, e.now, e.response, id);
    } else if e.Acknowledge? {
      AcknowledgeRaisesCursor(s);
    } else {
      QuietKeepsCursor(s, e);
    }
  }

  /** Work queued before the first poll after a Core restart can lie at or below
      the agent's durable cursor. It is then never executed, in any run. */
  lemma {:induction false} BelowCursorNeverRuns(s: System, es: seq<Event>, id: Id)
    requires Inv(s) && Legal(s, es) && id in s.core.items && Sequence(s.core, id) <= s.client.cursor
    ensures s.ran <= Run(s, es).ran
    ensures forall k :: |s.ran| <= k < |Run(s, es).ran| ==> Run(s, es).ran[k].id != id
    decreases |es|
  {
    if es != [] {
      StepKeepsInv(s, es[0]);
      StepSkipsBelow(s, es[0], id);
      BelowCursorNeverRuns(Step(s, es[0]), es[1..], id);
    }
  }
}
