/** What reaches the caller: which outcome a request gets, from whom and why, and
    that a request which has one, or whose caller left, is over. */
module RendezvousOutcomes {
  import opened Basics
  import opened BrokerState
  import opened BrokerSafety
  import opened Rendezvous
  import opened RendezvousSafety
  import opened RendezvousTheorems

  // ----- What a pass does to outcomes -----

  /** A request is left alone, or was waiting, read as past its lease, and failed. */
  ghost predicate LeftOrFailed(c: AgentState, d: AgentState, clock: Clock, id: Id)
    requires id in c.items
  {
    && id in d.items && d.items[id].request == c.items[id].request
    && if d.items[id].outcomes == c.items[id].outcomes then id in d.waiting <==> id in c.waiting
       else
         && d.items[id].outcomes == c.items[id].outcomes + [DeadlineExceeded]
         && id in c.waiting && id !in d.waiting && clock(id) > c.items[id].request.expiresAt
  }

  lemma ExpireLeavesOrFails(c: AgentState, ids: set<Id>, clock: Clock, id: Id)
    requires id in c.items && ids <= c.waiting && forall x :: x in ids ==> Late(c, clock, x)
    ensures LeftOrFailed(c, Expire(c, ids), clock, id)
  {
  }

  lemma RedeliverLeavesOrFails(c: AgentState, cursor: nat, clock: Clock, id: Id)
    requires id in c.items && LostInTime(c, cursor, clock) != {}
    ensures LeftOrFailed(c, Redeliver(c, cursor, clock), clock, id)
  {
    var oldest := Oldest(c, LostInTime(c, cursor, clock));
    var late := set x | x in Lost(c, cursor) && Late(c, clock, x) && Sequence(c, x) < Sequence(c, oldest);
    ExpireLeavesOrFails(c, late, clock, id);
  }

  lemma DequeueLeavesOrFails(c: AgentState, clock: Clock, id: Id)
    requires id in c.items && forall i :: 0 <= i < |c.pending| ==> c.pending[i] in c.waiting
    ensures LeftOrFailed(c, Dequeue(c, clock), clock, id)
  {
    var n := LatePrefix(c, clock, c.pending);
    ExpireLeavesOrFails(c, Elements(c.pending[..n]), clock, id);
  }

  /** A request the first half of a pass failed is not in the queue. */
  lemma LeftOrFailedTwice(c: AgentState, d: AgentState, e: AgentState, clock: Clock, id: Id)
    requires id in c.items && LeftOrFailed(c, d, clock, id) && LeftOrFailed(d, e, clock, id)
    ensures LeftOrFailed(c, e, clock, id)
  {
  }

  lemma PassLeavesOrFails(c: AgentState, cursor: nat, clock: Clock, id: Id)
    requires Wf(c) && Settled(c) && id in c.items
    ensures LeftOrFailed(c, AfterPass(c, cursor, clock), clock, id)
  {
    var t := Absorb(c, cursor);
    if LostInTime(t, cursor, clock) != {} {
      RedeliverLeavesOrFails(t, cursor, clock, id);
    } else {
      var lost := Lost(t, cursor);
      forall x | x in lost ensures Late(t, clock, x) {
        assert x !in LostInTime(t, cursor, clock);
      }
      ExpireLeavesOrFails(t, lost, clock, id);
      var u := Expire(t, lost);
      DequeueLeavesOrFails(u, clock, id);
      LeftOrFailedTwice(t, u, Dequeue(u, clock), clock, id);
    }
  }

  // ----- The invariant -----

  ghost predicate PostsClosed(polls: seq<Poll>, posted: map<nat, Response>) {
    forall p :: p in posted ==> p < |polls| && polls[p].phase.Closed?
  }

  /** An accepted upload is the request's one outcome. */
  ghost predicate AcceptedOk(core: AgentState, posted: map<nat, Response>, accepted: set<nat>) {
    forall p :: p in accepted ==>
                  && p in posted && posted[p].requestId in core.items && posted[p].requestId !in core.waiting
                  && core.items[posted[p].requestId].outcomes == [Answer(posted[p])]
  }

  ghost predicate Uploaded(posted: map<nat, Response>, accepted: set<nat>, a: Response) {
    exists p :: p in accepted && p in posted && posted[p] == a
  }

  /** Every answer a caller was sent is an accepted upload for that request. */
  ghost predicate AnswersOk(core: AgentState, posted: map<nat, Response>, accepted: set<nat>) {
    forall id, a :: id in core.items && Answer(a) in core.items[id].outcomes ==>
                      a.requestId == id && Uploaded(posted, accepted, a)
  }

  /** A deadline error is sent only once Core's clock has passed the lease. */
  ghost predicate DeadlinesOk(core: AgentState, now: int) {
    forall id :: id in core.items && DeadlineExceeded in core.items[id].outcomes ==>
                   now > core.items[id].request.expiresAt
  }

  ghost predicate OutcomesOk(s: System) {
    && PostsClosed(s.polls, s.posted) && AcceptedOk(s.core, s.posted, s.accepted)
    && AnswersOk(s.core, s.posted, s.accepted) && DeadlinesOk(s.core, s.now)
  }

  /** Requests are only added, fresh ones without outcome, and none waits again. */
  ghost predicate SameOutcomes(c: AgentState, d: AgentState) {
    && c.items.Keys <= d.items.Keys
    && (forall id :: id in c.items ==>
                       && d.items[id].outcomes == c.items[id].outcomes && d.items[id].request == c.items[id].request
                       && (id in d.waiting ==> id in c.waiting))
    && (forall id :: id in d.items && id !in c.items ==> d.items[id].outcomes == [])
  }

  lemma SameOutcomesKeep(s: System, d: AgentState)
    requires OutcomesOk(s) && SameOutcomes(s.core, d)
    ensures OutcomesOk(s.(core := d))
  {
  }

  lemma QueueingKeepsOutcomes(s: System, e: Event)
    requires OutcomesOk(s) && Enabled(s, e) && (e.Enqueue? || e.Cancel?)
    ensures OutcomesOk(Step(s, e))
  {
    var d := Step(s, e).core;
    assert SameOutcomes(s.core, d);
    SameOutcomesKeep(s, d);
  }

  lemma PassKeepsAnswers(s: System, d: AgentState, clock: Clock, until: int)
    requires AcceptedOk(s.core, s.posted, s.accepted) && AnswersOk(s.core, s.posted, s.accepted)
    requires DeadlinesOk(s.core, s.now) && Steady(clock, s.now, until) && d.items.Keys == s.core.items.Keys
    requires forall id :: id in s.core.items ==> LeftOrFailed(s.core, d, clock, id)
    ensures AcceptedOk(d, s.posted, s.accepted) && AnswersOk(d, s.posted, s.accepted) && DeadlinesOk(d, until)
  {
    forall p | p in s.accepted
      ensures p in s.posted && LeftOrFailed(s.core, d, clock, s.posted[p].requestId)
    {
    }
    forall id | id in d.items && DeadlineExceeded in d.items[id].outcomes
      ensures until > d.items[id].request.expiresAt
    {
      assert LeftOrFailed(s.core, d, clock, id);
    }
    forall id, a | id in d.items && Answer(a) in d.items[id].outcomes
      ensures a.requestId == id && Uploaded(s.posted, s.accepted, a)
    {
      assert LeftOrFailed(s.core, d, clock, id);
      assert Answer(a) in s.core.items[id].outcomes;
    }
  }

  lemma PassKeepsPosts(s: System, p: nat, clock: Clock, until: int)
    requires PostsClosed(s.polls, s.posted) && Enabled(s, Pass(p, clock, until))
    ensures
      var t := Step(s, Pass(p, clock, until));
      PostsClosed(t.polls, t.posted) && t.posted == s.posted && t.accepted == s.accepted && t.now == until
  {
  }

  lemma PassKeepsOutcomes(s: System, p: nat, clock: Clock, until: int)
    requires Inv(s) && OutcomesOk(s) && Enabled(s, Pass(p, clock, until))
    ensures OutcomesOk(Step(s, Pass(p, clock, until)))
  {
    var d := AfterPass(s.core, s.polls[p].cursor, clock);
    forall id | id in s.core.items ensures LeftOrFailed(s.core, d, clock, id) {
      PassLeavesOrFails(s.core, s.polls[p].cursor, clock, id);
    }
    PassMarksOnlyTheHanded(s.core, s.polls[p].cursor, clock);
    PassKeepsAnswers(s, d, clock, until);
    PassKeepsPosts(s, p, clock, until);
    PassCore(s, p, clock, until);
  }

  lemma UploadKeepsOutcomes(s: System, p: nat)
    requires Settled(s.core) && OutcomesOk(s) && Enabled(s, Upload(p))
    ensures OutcomesOk(Step(s, Upload(p)))
  {
    var t := Step(s, Upload(p));
    var a := s.posted[p];
    if Matches(s.core, a) {
      assert s.core.items[a.requestId].outcomes == [];
      forall id, b | id in t.core.items && Answer(b) in t.core.items[id].outcomes
        ensures b.requestId == id && Uploaded(t.posted, t.accepted, b)
      {
        if id == a.requestId {
          assert b == a && p in t.accepted;
        } else {
          assert Uploaded(s.posted, s.accepted, b);
        }
      }
    }
  }

  lemma ReceiveKeepsOutcomes(s: System, now: int, response: Response)
    requires OutcomesOk(s) && Enabled(s, Receive(now, response))
    ensures OutcomesOk(Step(s, Receive(now, response)))
  {
    var t := Step(s, Receive(now, response));
    assert s.client.phase.poll !in s.posted;
    forall id, a | id in t.core.items && Answer(a) in t.core.items[id].outcomes
      ensures a.requestId == id && Uploaded(t.posted, t.accepted, a)
    {
      assert Uploaded(s.posted, s.accepted, a);
      var p :| p in s.accepted && p in s.posted && s.posted[p] == a;
      assert t.posted[p] == a;
    }
  }

  /** Steps that touch neither Core's requests nor what was posted. */
  lemma QuietKeepsOutcomes(s: System, e: Event)
    requires OutcomesOk(s) && Enabled(s, e)
    requires !e.Enqueue? && !e.Cancel? && !e.Pass? && !e.Upload? && !e.Receive?
    ensures OutcomesOk(Step(s, e))
  {
    var t := Step(s, e);
    assert t.core == s.core && t.posted == s.posted && t.accepted == s.accepted && s.now <= t.now;
    assert PostsClosed(t.polls, t.posted);
  }

  lemma StepKeepsOutcomes(s: System, e: Event)
    requires Inv(s) && OutcomesOk(s) && Enabled(s, e)
    ensures OutcomesOk(Step(s, e))
  {
    if e.Enqueue? || e.Cancel? {
      QueueingKeepsOutcomes(s, e);
    } else if e.Pass? {
      PassKeepsOutcomes(s, e.poll, e.clock, e.until);
    } else if e.Upload? {
      UploadKeepsOutcomes(s, e.poll);
    } else if e.Receive? {
      ReceiveKeepsOutcomes(s, e.now, e.response);
    } else {
      QuietKeepsOutcomes(s, e);
    }
  }

  lemma {:induction false} RunKeepsOutcomes(s: System, es: seq<Event>)
    requires Inv(s) && OutcomesOk(s) && Legal(s, es)
    ensures OutcomesOk(Run(s, es))
    decreases |es|
  {
    if es != [] {
      StepKeepsInv(s, es[0]);
      StepKeepsOutcomes(s, es[0]);
      RunKeepsOutcomes(Step(s, es[0]), es[1..]);
    }
  }

  // ----- Theorems -----

  /** A response Core accepted is exactly what the caller of that request was sent. */
  lemma AcceptedReachesCaller(s: System, es: seq<Event>, p: nat)
    requires Start(s) && Legal(s, es) && p in Run(s, es).accepted
    ensures
      var t := Run(s, es);
      && p in t.posted && t.posted[p].requestId in t.core.items
      && t.core.items[t.posted[p].requestId].outcomes == [Answer(t.posted[p])]
  {
    StartIsInv(s);
    RunKeepsOutcomes(s, es);
  }

  /** And a caller is sent nothing else: an answer is a response the agent posted to
      this very request and Core accepted, a deadline error comes after the lease. */
  lemma OutcomesAreEarned(s: System, es: seq<Event>, id: Id, o: Outcome)
    requires Start(s) && Legal(s, es) && id in Run(s, es).core.items && o in Run(s, es).core.items[id].outcomes
    ensures
      var t := Run(s, es);
      match o
      case Answer(a) =>
        a.requestId == id && exists p :: p in t.accepted && p in t.posted && t.posted[p] == a
      case DeadlineExceeded => t.now > t.core.items[id].request.expiresAt
  {
    StartIsInv(s);
    RunKeepsOutcomes(s, es);
    var t := Run(s, es);
    if o.Answer? {
      assert Uploaded(t.posted, t.accepted, o.response);
    }
  }

  /** A deadline error is sent by a pass that read the clock past that request's
      lease, and by nothing else. */
  lemma OnlyPassesTimeOut(s: System, e: Event, id: Id)
    requires Inv(s) && Enabled(s, e) && id in s.core.items && id in Step(s, e).core.items
    requires DeadlineExceeded in Step(s, e).core.items[id].outcomes
    requires DeadlineExceeded !in s.core.items[id].outcomes
    ensures e.Pass? && e.clock(id) > s.core.items[id].request.expiresAt
  {
    if e.Pass? {
      PassLeavesOrFails(s.core, s.polls[e.poll].cursor, e.clock, id);
      PassCore(s, e.poll, e.clock, e.until);
    } else if !e.Enqueue? && !e.Cancel? && !e.Upload? {
      QuietKeepsCore(s, e);
    }
  }

  // ----- Requests that are over -----

  /** No longer waited for, with these outcomes. */
  ghost predicate Over(core: AgentState, id: Id, outcomes: seq<Outcome>) {
    id in core.items && id !in core.waiting && core.items[id].outcomes == outcomes
  }

  lemma PassLeavesOver(s: System, p: nat, clock: Clock, until: int, id: Id, outcomes: seq<Outcome>)
    requires Inv(s) && Enabled(s, Pass(p, clock, until)) && Over(s.core, id, outcomes)
    ensures
      var t := Step(s, Pass(p, clock, until));
      && Over(t.core, id, outcomes)
      && (t.handed == s.handed || exists h: HandOut :: h.id != id && t.handed == s.handed + [h])
  {
    var cursor := s.polls[p].cursor;
    PassLeavesOrFails(s.core, cursor, clock, id);
    PassCore(s, p, clock, until);
    AbsorbKeepsWf(s.core, cursor);
    var c := Absorb(s.core, cursor);
    PassServesOldest(c, cursor, clock);
    var handed := Handed(c, cursor, clock);
    if handed.Some? {
      assert Eligible(c, cursor, clock, handed.value);
      assert handed.value != id;
    }
  }

  lemma StepLeavesOver(s: System, e: Event, id: Id, outcomes: seq<Outcome>)
    requires Inv(s) && Enabled(s, e) && Over(s.core, id, outcomes)
    ensures
      var t := Step(s, e);
      && Over(t.core, id, outcomes)
      && (t.handed == s.handed || exists h: HandOut :: h.id != id && t.handed == s.handed + [h])
  {
    if e.Pass? {
      PassLeavesOver(s, e.poll, e.clock, e.until, id, outcomes);
    } else if !e.Enqueue? && !e.Cancel? && !e.Upload? {
      QuietKeepsCore(s, e);
    }
  }

  /** A request that was answered, timed out or given up stays that way: in every
      continuation its outcomes are the same and it is handed out no more. */
  lemma {:induction false} OverStaysOver(s: System, es: seq<Event>, id: Id)
    requires Inv(s) && Legal(s, es) && id in s.core.items && id !in s.core.waiting
    ensures Over(Run(s, es).core, id, s.core.items[id].outcomes)
    ensures s.handed <= Run(s, es).handed
    ensures forall k :: |s.handed| <= k < |Run(s, es).handed| ==> Run(s, es).handed[k].id != id
    decreases |es|
  {
    if es != [] {
      StepKeepsInv(s, es[0]);
      StepLeavesOver(s, es[0], id, s.core.items[id].outcomes);
      OverStaysOver(Step(s, es[0]), es[1..], id);
    }
  }

  /** Whoever gives up is forgotten, whether the request was queued or in flight:
      nothing is sent and nothing handed out for it ever after. */
  lemma CancelledIsForgotten(s: System, id: Id, es: seq<Event>)
    requires Inv(s) && id in s.core.waiting && Legal(Step(s, Cancel(id)), es)
    ensures
      var t := Run(Step(s, Cancel(id)), es);
      && id in t.core.items && id !in t.core.waiting && t.core.items[id].outcomes == []
      && forall k :: |s.handed| <= k < |t.handed| ==> t.handed[k].id != id
  {
    StepKeepsInv(s, Cancel(id));
    OverStaysOver(Step(s, Cancel(id)), es, id);
  }

  // ----- Requests as they were queued -----

  lemma StepKeepsRequests(s: System, e: Event, id: Id)
    requires Wf(s.core) && Enabled(s, e) && id in Step(s, e).core.items
    ensures
      var r := Step(s, e).core.items[id].request;
      if id in s.core.items then r == s.core.items[id].request
      else e == Enqueue(id, r.createdAt, r.expiresAt, r.call) && r.id == id && r.authorityEpoch == s.epoch
  {
    if e.Pass? {
      PassCore(s, e.poll, e.clock, e.until);
      PassMarksOnlyTheHanded(s.core, s.polls[e.poll].cursor, e.clock);
    } else if !e.Enqueue? && !e.Cancel? && !e.Upload? {
      QuietKeepsCore(s, e);
    }
  }

  /** The request was there from the start, or was queued along the way with this
      call, time and lease under an authority no older than the first. */
  ghost predicate AsQueued(s: System, es: seq<Event>, id: Id, r: Request) {
    if id in s.core.items then r == s.core.items[id].request
    else Enqueue(id, r.createdAt, r.expiresAt, r.call) in es && r.id == id && s.epoch <= r.authorityEpoch
  }

  lemma AsQueuedBefore(s: System, es: seq<Event>, id: Id, r: Request)
    requires Wf(s.core) && es != [] && Enabled(s, es[0]) && AsQueued(Step(s, es[0]), es[1..], id, r)
    ensures AsQueued(s, es, id, r)
  {
    TimeAndEpochGrow(s, es[0]);
    StepAdvances(s, es[0]);
    if id in Step(s, es[0]).core.items {
      StepKeepsRequests(s, es[0], id);
    }
  }

  /** Somebody asked for it: what Core keeps of a request is what it was queued with. */
  lemma {:induction false} RequestsAreAsQueued(s: System, es: seq<Event>, id: Id)
    requires Inv(s) && Legal(s, es) && id in Run(s, es).core.items
    ensures AsQueued(s, es, id, Run(s, es).core.items[id].request)
    decreases |es|
  {
    if es != [] {
      StepKeepsInv(s, es[0]);
      RequestsAreAsQueued(Step(s, es[0]), es[1..], id);
      AsQueuedBefore(s, es, id, Run(s, es).core.items[id].request);
    }
  }

  /** Work on its way to an agent is a request somebody queued, unchanged. */
  lemma WorkIsAsQueued(s: System, es: seq<Event>, p: nat)
    requires Start(s) && Legal(s, es) && p < |Run(s, es).polls|
    requires Run(s, es).polls[p].phase.Replied? && Run(s, es).polls[p].phase.reply.Work?
    ensures
      var r := Run(s, es).polls[p].phase.reply.request;
      Enqueue(r.id, r.createdAt, r.expiresAt, r.call) in es && s.epoch <= r.authorityEpoch <= Run(s, es).epoch
  {
    StartIsInv(s);
    RunKeepsInv(s, es);
    var t := Run(s, es);
    var r := t.polls[p].phase.reply.request;
    assert HandedWork(t.core, t.handed, p, r);
    RequestsAreAsQueued(s, es, r.id);
  }

  /** A pass hands out work its clock reads as within the lease, and only that. */
  lemma HandedInTime(s: System, p: nat, clock: Clock, until: int)
    requires Inv(s) && Enabled(s, Pass(p, clock, until)) && Step(s, Pass(p, clock, until)).handed != s.handed
    ensures
      var t := Step(s, Pass(p, clock, until));
      exists id :: id in s.core.waiting && clock(id) <= s.core.items[id].request.expiresAt
                   && t.handed == s.handed + [HandOut(p, id, s.core.items[id].delivered)]
  {
    var cursor := s.polls[p].cursor;
    AbsorbKeepsWf(s.core, cursor);
    var c := Absorb(s.core, cursor);
    PassServesOldest(c, cursor, clock);
    var id := Handed(c, cursor, clock).value;
    assert Eligible(c, cursor, clock, id);
    assert id in s.core.waiting;
  }

  /** What the agent does with a reply: it runs the work exactly if it is of no older
      authority than its own, above its cursor, and in time by its own clock. */
  lemma ExecutesIff(s: System, now: int, response: Response)
    requires Enabled(s, Receive(now, response))
    ensures
      var reply := s.polls[s.client.phase.poll].phase.reply;
      var t := Step(s, Receive(now, response));
      if reply.Work? && s.client.epoch <= reply.request.authorityEpoch
         && s.client.cursor < reply.request.sequence && now <= reply.request.expiresAt
      then t.ran == s.ran + [Execution(s.client.phase.poll, reply.request.id)]
      else t.ran == s.ran
  {
  }
}
