/** The broker as the objects Core runs: one mutable queue per agent behind a
    map, each critical section a method proved against the value model. */
module BrokerObjects {
  import opened Basics
  import opened BrokerState
  import opened BrokerSafety
  import Text

  const PROTOCOL_VERSION: nat := 1
  const MAX_BODY_BYTES: nat := 0x400_0000
  const MAX_RESPONSE_BYTES: nat := 0x40_0000

  // ----- Steps of the two loops -----

  lemma ExpireOneMore(s: AgentState, failed: set<Id>, id: Id)
    requires id in s.items && id !in failed
    ensures Expire(s, failed).items[id] == s.items[id]
    ensures Expire(s, failed).waiting - {id} == Expire(s, failed + {id}).waiting
    ensures Expire(s, failed).items[id := s.items[id].(outcomes := s.items[id].outcomes + [DeadlineExceeded])]
         == Expire(s, failed + {id}).items
  {
  }

  lemma ExpireNothing(s: AgentState)
    ensures Expire(s, {}) == s
  {
    assert Expire(s, {}).items == s.items;
  }

  lemma LatePrefixIs(s: AgentState, clock: Clock, queue: seq<Id>, n: nat)
    requires n <= |queue|
    requires forall i :: 0 <= i < n ==> Late(s, clock, queue[i])
    requires n < |queue| ==> !Late(s, clock, queue[n])
    ensures LatePrefix(s, clock, queue) == n
  {
    assert LatePrefix(s, clock, queue) >= n;
  }

  lemma DequeueIs(s: AgentState, clock: Clock, n: nat)
    requires QueueInOrder(s) && n <= |s.pending|
    requires forall i :: 0 <= i < n ==> Late(s, clock, s.pending[i])
    requires n < |s.pending| ==> !Late(s, clock, s.pending[n])
    ensures LatePrefix(s, clock, s.pending) == n
    ensures var t := Expire(s, Elements(s.pending[..n]));
            if n == |s.pending| then Dequeue(s, clock) == t.(pending := [])
            else
              && s.pending[n] in t.items
              && Dequeue(s, clock) == AgentState(
                                        s.cursor, s.next, s.pending[n + 1..], t.waiting,
                                        t.items[s.pending[n] := t.items[s.pending[n]].(delivered := true)], s.wake)
  {
    LatePrefixIs(s, clock, s.pending, n);
  }

  /** Strictly increasing sequences, so also no repetition. */
  ghost predicate Ascending(items: map<Id, Item>, ids: seq<Id>) {
    && (forall i :: 0 <= i < |ids| ==> ids[i] in items)
    && forall i, j :: 0 <= i < j < |ids| ==> items[ids[i]].request.sequence < items[ids[j]].request.sequence
  }

  lemma InsertedIsAscending(items: map<Id, Item>, ids: seq<Id>, id: Id, k: nat)
    requires Ascending(items, ids) && id in items && k <= |ids|
    requires k > 0 ==> items[ids[k - 1]].request.sequence < items[id].request.sequence
    requires k < |ids| ==> items[id].request.sequence < items[ids[k]].request.sequence
    ensures Ascending(items, ids[..k] + [id] + ids[k..])
  {
    var longer := ids[..k] + [id] + ids[k..];
    forall i | 0 <= i < |longer| ensures longer[i] == if i < k then ids[i] else if i == k then id else ids[i - 1] {
    }
  }

  method InsertBySequence(ids: seq<Id>, id: Id, items: map<Id, Item>) returns (longer: seq<Id>)
    requires Ascending(items, ids) && id in items
    requires forall x :: x in ids ==> items[x].request.sequence != items[id].request.sequence
    ensures Ascending(items, longer)
    ensures Elements(longer) == Elements(ids) + {id}
  {
    var k := 0;
    while k < |ids| && items[ids[k]].request.sequence < items[id].request.sequence
      invariant 0 <= k <= |ids|
      invariant k > 0 ==> items[ids[k - 1]].request.sequence < items[id].request.sequence
    {
      k := k + 1;
    }
    longer := ids[..k] + [id] + ids[k..];
    InsertedIsAscending(items, ids, id, k);
    assert ids == ids[..k] + ids[k..];
  }

  /** Orders the unanswered requests by sequence. */
  method SortedWaiting(waiting: set<Id>, items: map<Id, Item>) returns (ids: seq<Id>)
    requires waiting <= items.Keys
    requires forall a, b :: a in items && b in items && items[a].request.sequence == items[b].request.sequence ==> a == b
    ensures Ascending(items, ids) && Elements(ids) == waiting
  {
    ids := [];
    var rest := waiting;
    while rest != {}
      invariant rest <= waiting && Ascending(items, ids)
      invariant Elements(ids) == waiting - rest
      decreases |rest|
    {
      var id :| id in rest;
      assert forall x :: x in ids ==> x in Elements(ids);
      ids := InsertBySequence(ids, id, items);
      rest := rest - {id};
    }
  }

  // ----- The redelivery scan -----

  /** After `i` steps: every candidate met so far was late and has been failed. */
  ghost predicate Scanned(s: AgentState, cursor: nat, clock: Clock, ids: seq<Id>, i: nat, failed: set<Id>) {
    && i <= |ids|
    && (forall id :: id in failed ==> id in Lost(s, cursor) && Late(s, clock, id) && id in ids[..i])
    && (forall id :: id in ids[..i] && Unacknowledged(s, cursor, id) ==> id in failed)
  }

  lemma ScanStep(s: AgentState, cursor: nat, clock: Clock, ids: seq<Id>, i: nat, failed: set<Id>)
    requires Scanned(s, cursor, clock, ids, i, failed) && i < |ids| && Ascending(s.items, ids)
    ensures ids[i] !in failed
    ensures !Unacknowledged(s, cursor, ids[i]) ==> Scanned(s, cursor, clock, ids, i + 1, failed)
    ensures Unacknowledged(s, cursor, ids[i]) && Late(s, clock, ids[i]) ==>
              Scanned(s, cursor, clock, ids, i + 1, failed + {ids[i]})
  {
    assert ids[..i + 1] == ids[..i] + [ids[i]];
    assert forall k :: 0 <= k < i ==> ids[..i][k] == ids[k] && ids[k] != ids[i];
  }

  lemma ScanEnds(s: AgentState, cursor: nat, clock: Clock, ids: seq<Id>, failed: set<Id>)
    requires Scanned(s, cursor, clock, ids, |ids|, failed)
    requires Elements(ids) == s.waiting
    ensures failed == Lost(s, cursor) && LostInTime(s, cursor, clock) == {}
  {
    assert ids[..|ids|] == ids;
  }

  lemma ScannedAreBefore(s: AgentState, ids: seq<Id>, i: nat, x: Id)
    requires i < |ids| && Ascending(s.items, ids) && s.waiting <= s.items.Keys && Elements(ids) == s.waiting
    ensures x in ids[..i] ==> Sequence(s, x) < Sequence(s, ids[i])
    ensures x in s.waiting && x !in ids[..i] ==> Sequence(s, ids[i]) <= Sequence(s, x)
  {
    assert forall k | 0 <= k < i :: ids[k] in ids[..i];
    if x in ids[..i] {
      var k :| 0 <= k < i && ids[..i][k] == x;
      assert ids[k] == x && ids[k] in Elements(ids) && ids[i] in Elements(ids);
    } else if x in s.waiting {
      assert x in Elements(ids) && ids[i] in Elements(ids);
      var k :| 0 <= k < |ids| && ids[k] == x;
    }
  }

  /** The first in-time candidate in sequence order is the oldest, and the ones
      failed before it are exactly the late ones in front of it. */
  lemma ScanFinds(s: AgentState, cursor: nat, clock: Clock, ids: seq<Id>, i: nat, failed: set<Id>)
    requires Numbered(s) && s.waiting <= s.items.Keys
    requires Scanned(s, cursor, clock, ids, i, failed) && i < |ids| && Ascending(s.items, ids)
    requires Elements(ids) == s.waiting
    requires Unacknowledged(s, cursor, ids[i]) && !Late(s, clock, ids[i])
    ensures LostInTime(s, cursor, clock) != {} && Oldest(s, LostInTime(s, cursor, clock)) == ids[i]
    ensures failed == set x | x in Lost(s, cursor) && Late(s, clock, x) && Sequence(s, x) < Sequence(s, ids[i])
  {
    var id := ids[i];
    var inTime := LostInTime(s, cursor, clock);
    assert id in inTime;
    forall x | x in s.waiting
      ensures if x in ids[..i] then Sequence(s, x) < Sequence(s, id) else Sequence(s, id) <= Sequence(s, x)
    {
      ScannedAreBefore(s, ids, i, x);
    }
    assert Sequence(s, Oldest(s, inTime)) == Sequence(s, id);
  }

  /** What the scan leaves when it hands out `id` is the specified redelivery. */
  lemma RedeliverIs(s: AgentState, cursor: nat, clock: Clock, ids: seq<Id>, i: nat, failed: set<Id>)
    requires Numbered(s) && s.waiting <= s.items.Keys
    requires Scanned(s, cursor, clock, ids, i, failed) && i < |ids| && Ascending(s.items, ids)
    requires Elements(ids) == s.waiting
    requires Unacknowledged(s, cursor, ids[i]) && !Late(s, clock, ids[i])
    ensures LostInTime(s, cursor, clock) != {} && Oldest(s, LostInTime(s, cursor, clock)) == ids[i]
    ensures Redeliver(s, cursor, clock) == MarkRedelivered(Expire(s, failed), ids[i])
  {
    ScanFinds(s, cursor, clock, ids, i, failed);
  }

  /** The counter has numbers left, and the authority epoch has not gone back. */
  ghost predicate Numberable(s: AgentState, epoch: nat) {
    && Wf(s) && s.next < MAX_UINT64
    && forall x :: x in s.items ==> s.items[x].request.authorityEpoch <= epoch
  }

  class AgentQueue {
    var cursor: nat
    var next: nat
    var pending: seq<Id>
    var waiting: set<Id>
    var items: map<Id, Item>
    var wake: nat

    ghost function View(): AgentState
      reads this
    {
      AgentState(cursor, next, pending, waiting, items, wake)
    }

    constructor ()
      ensures View() == EmptyAgent()
    {
      cursor, next, pending, waiting, items, wake := 0, 0, [], {}, map[], 0;
    }

    method Fail(id: Id)
      requires id in items
      modifies this`waiting, this`items
      ensures waiting == old(waiting) - {id}
      ensures items == old(items)[id := old(items[id]).(outcomes := old(items[id]).outcomes + [DeadlineExceeded])]
    {
      waiting := waiting - {id};
      items := items[id := items[id].(outcomes := items[id].outcomes + [DeadlineExceeded])];
    }

    /** The redelivery loop over the sorted waiting requests. */
    method RedeliverLost(pollCursor: nat, clock: Clock) returns (handed: Option<Request>)
      requires Wf(View())
      modifies this
      ensures var s := old(View());
              if LostInTime(s, pollCursor, clock) != {} then
                && View() == Redeliver(s, pollCursor, clock)
                && handed == Some(s.items[Oldest(s, LostInTime(s, pollCursor, clock))].request)
              else View() == Expire(s, Lost(s, pollCursor)) && handed == None
    {
      ghost var s := View();
      var ids := SortedWaiting(waiting, items);
      ghost var failed: set<Id> := {};
      ExpireNothing(s);
      var i := 0;
      while i < |ids|
        invariant Scanned(s, pollCursor, clock, ids, i, failed)
        invariant View() == Expire(s, failed)
      {
        var id := ids[i];
        ScanStep(s, pollCursor, clock, ids, i, failed);
        var item := items[id];
        assert item == s.items[id];
        if item.delivered && !item.redelivered && item.request.sequence > pollCursor {
          if clock(id) > item.request.expiresAt {
            ExpireOneMore(s, failed, id);
            Fail(id);
            failed := failed + {id};
          } else {
            RedeliverIs(s, pollCursor, clock, ids, i, failed);
            items := items[id := item.(redelivered := true)];
            return Some(item.request);
          }
        }
        i := i + 1;
      }
      ScanEnds(s, pollCursor, clock, ids, failed);
      return None;
    }

    /** The queue loop: fail late requests until one can be handed out. */
    method TakeQueued(clock: Clock) returns (handed: Option<Request>)
      requires QueueInOrder(View())
      modifies this
      ensures View() == Dequeue(old(View()), clock)
      ensures var s := old(View());
              var n := LatePrefix(s, clock, s.pending);
              handed == if n < |s.pending| then Some(s.items[s.pending[n]].request) else None
    {
      ghost var s := View();
      ghost var n := 0;
      ExpireNothing(s);
      assert Elements(s.pending[..0]) == {};
      while |pending| > 0
        invariant n <= |s.pending| && pending == s.pending[n..]
        invariant View().(pending := s.pending) == Expire(s, Elements(s.pending[..n]))
        invariant forall i :: 0 <= i < n ==> Late(s, clock, s.pending[i])
        decreases |pending|
      {
        var id := pending[0];
        QueueFront(s, n);
        ExpireOneMore(s, Elements(s.pending[..n]), id);
        var item := items[id];
        pending := pending[1..];
        if clock(id) > item.request.expiresAt {
          Fail(id);
          n := n + 1;
        } else {
          DequeueIs(s, clock, n);
          items := items[id := item.(delivered := true)];
          return Some(item.request);
        }
      }
      DequeueIs(s, clock, n);
      return None;
    }

    /** One locked pass of the poll loop. */
    method Pass(pollCursor: nat, clock: Clock) returns (handed: Option<Request>)
      requires Wf(View())
      modifies this
      ensures View() == AfterPass(old(View()), pollCursor, clock) && Wf(View())
      ensures match Handed(Absorb(old(View()), pollCursor), pollCursor, clock)
              case None => handed == None
              case Some(id) => id in old(items) && handed == Some(old(items)[id].request)
    {
      ghost var s := View();
      PassInParts(s, pollCursor, clock);
      if pollCursor > cursor {
        cursor := pollCursor;
      }
      if pollCursor > next {
        next := pollCursor;
      }
      assert View() == Absorb(s, pollCursor);
      handed := RedeliverLost(pollCursor, clock);
      if handed.None? {
        handed := TakeQueued(clock);
      }
    }

    method Respond(response: Response) returns (accepted: bool)
      requires Wf(View())
      modifies this
      ensures View() == AfterRespond(old(View()), response) && Wf(View())
      ensures accepted <==>
              && response.requestId in old(waiting)
              && old(items)[response.requestId].request.sequence == response.sequence
      ensures accepted ==>
                && waiting == old(waiting) - {response.requestId} && cursor >= response.sequence
                && response.requestId in items
                && items[response.requestId].outcomes == old(items)[response.requestId].outcomes + [Answer(response)]
    {
      RespondKeepsWf(View(), response);
      var id := response.requestId;
      if id !in waiting || items[id].request.sequence != response.sequence {
        return false;
      }
      waiting := waiting - {id};
      if response.sequence > cursor {
        cursor := response.sequence;
      }
      items := items[id := items[id].(outcomes := items[id].outcomes + [Answer(response)])];
      return true;
    }

    method Enqueue(id: Id, epoch: nat, now: int, expires: int, call: Call)
      requires id !in items
      modifies this
      ensures View() == AfterEnqueue(old(View()), id, epoch, now, expires, call)
      ensures Numberable(old(View()), epoch) ==> Wf(View())
    {
      if Numberable(View(), epoch) {
        EnqueueKeepsWf(View(), id, epoch, now, expires, call);
      }
      next := if next < MAX_UINT64 then next + 1 else 0;
      items := items[id := Item(Request(id, next, epoch, now, expires, call), false, false, [])];
      pending := pending + [id];
      waiting := waiting + {id};
      wake := wake + 1;
    }

    method Remove(id: Id)
      requires Wf(View())
      modifies this
      ensures View() == AfterRemove(old(View()), id) && Wf(View())
    {
      RemoveKeepsWf(View(), id);
      waiting := waiting - {id};
      RemoveQueued(id);
    }

    method RemoveQueued(id: Id)
      modifies this`pending
      ensures pending == Without(old(pending), id)
    {
      var index := 0;
      while index < |pending|
        invariant 0 <= index <= |pending|
        invariant forall k :: 0 <= k < index ==> pending[k] != id
        invariant pending == old(pending)
      {
        if pending[index] == id {
          WithoutAt(pending, id, index);
          pending := pending[..index] + pending[index + 1..];
          return;
        }
        index := index + 1;
      }
    }
  }

  lemma {:induction false} WithoutAt(queue: seq<Id>, id: Id, index: nat)
    requires index < |queue| && queue[index] == id
    requires forall k :: 0 <= k < index ==> queue[k] != id
    ensures Without(queue, id) == queue[..index] + queue[index + 1..]
  {
    if index > 0 {
      WithoutAt(queue[1..], id, index - 1);
      assert queue[1..][..index - 1] == queue[1..index];
      assert [queue[0]] + queue[1..index] == queue[..index];
    }
  }

  lemma PassInParts(s: AgentState, cursor: nat, clock: Clock)
    requires Wf(s)
    ensures var t := Absorb(s, cursor);
            var u := Expire(t, Lost(t, cursor));
            && Wf(t) && QueueInOrder(u) && Wf(AfterPass(s, cursor, clock))
            && LatePrefix(u, clock, u.pending) == LatePrefix(t, clock, t.pending)
            && (forall id :: id in s.items ==> id in u.items && u.items[id].request == s.items[id].request)
            && (Handed(t, cursor, clock).Some? ==> Handed(t, cursor, clock).value in s.items)
  {
    AbsorbKeepsWf(s, cursor);
    var t := Absorb(s, cursor);
    ExpireKeepsWf(t, Lost(t, cursor));
    ExpireFacts(t, Lost(t, cursor));
    LatePrefixIgnoresOutcomes(t, Expire(t, Lost(t, cursor)), clock, t.pending);
    PassKeepsWf(s, cursor, clock);
    if Handed(t, cursor, clock).Some? {
      SecondHandOutIsUnacknowledged(s, cursor, clock);
    }
  }

  lemma QueueFront(s: AgentState, n: nat)
    requires QueueInOrder(s) && n < |s.pending|
    ensures s.pending[n] !in Elements(s.pending[..n])
    ensures Elements(s.pending[..n + 1]) == Elements(s.pending[..n]) + {s.pending[n]}
    ensures s.pending[n..][1..] == s.pending[n + 1..]
  {
    assert s.pending[..n + 1] == s.pending[..n] + [s.pending[n]];
    forall k | 0 <= k < n ensures s.pending[k] != s.pending[n] {
      assert Sequence(s, s.pending[k]) < Sequence(s, s.pending[n]);
    }
  }

  // ----- The broker -----

  datatype PollRequest = PollRequest(agentId: string, authorityEpoch: nat, cursor: nat, protocol: nat)

  datatype PollResult =
    | Work(request: Request)
    | NoWork
    | StaleAuthority
    | Rejected(reason: string)

  predicate Blank(value: string) {
    forall i :: 0 <= i < |value| ==> Text.IsSpace(value[i])
  }

  /** Some character is not white space. */
  predicate Identified(agentId: string) {
    exists i :: 0 <= i < |agentId| && !Text.IsSpace(agentId[i])
  }

  /** The admission checks of `Poll`, made once against the epoch read on entry. */
  function Admission(epoch: nat, input: PollRequest): Option<PollResult> {
    if Blank(input.agentId) then Some(Rejected("agent identity is required"))
    else if input.protocol != PROTOCOL_VERSION then Some(Rejected("agent pull protocol is incompatible"))
    else if input.authorityEpoch > epoch then Some(Rejected("agent has accepted a newer Core authority"))
    else if input.authorityEpoch != 0 && input.authorityEpoch < epoch then Some(StaleAuthority)
    else None
  }

  predicate WellFormedResponse(response: Response) {
    100 <= response.statusCode <= 599 && |response.body| <= MAX_RESPONSE_BYTES
  }

  class Broker {
    var epoch: nat
    var agents: map<string, AgentQueue>

    /** No two agents share a queue. */
    ghost predicate Separate()
      reads this
    {
      forall a, b :: a in agents && b in agents && agents[a] == agents[b] ==> a == b
    }

    ghost function Queue(agentId: string): set<AgentQueue>
      reads this
    {
      if agentId in agents then {agents[agentId]} else {}
    }

    /** An agent never heard of has the empty state. */
    ghost function State(agentId: string): AgentState
      reads this, Queue(agentId)
    {
      if agentId in agents then agents[agentId].View() else EmptyAgent()
    }

    constructor (authorityEpoch: nat)
      ensures Separate() && agents == map[]
      ensures epoch == if authorityEpoch == 0 then 1 else authorityEpoch
    {
      epoch := if authorityEpoch == 0 then 1 else authorityEpoch;
      agents := map[];
    }

    method StateLocked(agentId: string) returns (state: AgentQueue)
      requires Separate()
      modifies this`agents
      ensures Separate() && agentId in agents && agents[agentId] == state
      ensures state.View() == old(State(agentId))
      ensures agentId !in old(agents) ==> fresh(state)
      ensures forall a :: a != agentId ==> (a in agents <==> a in old(agents))
      ensures forall a :: a in old(agents) ==> agents[a] == old(agents)[a]
    {
      if agentId in agents {
        return agents[agentId];
      }
      state := new AgentQueue();
      agents := agents[agentId := state];
    }

    /** Served are the identified agents of this protocol that hold no authority yet
        or Core's; an older authority is told apart from every other refusal. */
    method Poll(input: PollRequest, clock: Clock) returns (result: PollResult)
      requires Separate() && Wf(State(input.agentId))
      modifies this`agents, Queue(input.agentId)
      ensures result.Work? || result.NoWork? <==>
              && input.protocol == 1 && Identified(input.agentId)
              && (input.authorityEpoch == 0 || input.authorityEpoch == epoch)
      ensures result == StaleAuthority <==>
              input.protocol == 1 && Identified(input.agentId) && 0 < input.authorityEpoch < epoch
      ensures Separate() && Wf(State(input.agentId))
      ensures forall other :: other != input.agentId ==> State(other) == old(State(other))
      ensures match Admission(epoch, input)
              case Some(refusal) => result == refusal && State(input.agentId) == old(State(input.agentId))
              case None =>
                && State(input.agentId) == AfterPass(old(State(input.agentId)), input.cursor, clock)
                && match Handed(Absorb(old(State(input.agentId)), input.cursor), input.cursor, clock)
                   case None => result == NoWork
                   case Some(id) =>
                     && id in old(State(input.agentId)).items
                     && result == Work(old(State(input.agentId)).items[id].request)
    {
      var refusal := Admission(epoch, input);
      if refusal.Some? {
        return refusal.value;
      }
      var state := StateLocked(input.agentId);
      var handed := state.Pass(input.cursor, clock);
      result := if handed.Some? then Work(handed.value) else NoWork;
    }

    method Respond(agentId: string, response: Response) returns (accepted: bool)
      requires Separate() && Wf(State(agentId))
      modifies this`agents, Queue(agentId)
      ensures Separate() && Wf(State(agentId))
      ensures forall other :: other != agentId ==> State(other) == old(State(other))
      ensures accepted <==>
              && Identified(agentId) && 100 <= response.statusCode <= 599 && |response.body| <= MAX_RESPONSE_BYTES
              && Matches(old(State(agentId)), response)
      ensures State(agentId) == if accepted then AfterRespond(old(State(agentId)), response) else old(State(agentId))
    {
      if Blank(agentId) || !WellFormedResponse(response) {
        return false;
      }
      var state := StateLocked(agentId);
      accepted := state.Respond(response);
    }

    /** The caller's side of `enqueue` up to the wait; `id` is the fresh random id. */
    method Enqueue(agentId: string, id: Id, now: int, deadline: Option<int>, call: Call) returns (accepted: bool)
      requires Separate() && id !in State(agentId).items
      modifies this`agents, Queue(agentId)
      ensures Separate() && (Numberable(old(State(agentId)), epoch) ==> Wf(State(agentId)))
      ensures forall other :: other != agentId ==> State(other) == old(State(other))
      ensures accepted <==> |call.body| <= 67_108_864
      ensures var lease := now + 35_000_000_000;
              var expires := if deadline.Some? && deadline.value < lease then deadline.value else lease;
              State(agentId) == if accepted then AfterEnqueue(old(State(agentId)), id, epoch, now, expires, call)
              else old(State(agentId))
    {
      if |call.body| > MAX_BODY_BYTES {
        return false;
      }
      var expires := now + DEFAULT_LEASE;
      if deadline.Some? && deadline.value < expires {
        expires := deadline.value;
      }
      var state := StateLocked(agentId);
      state.Enqueue(id, epoch, now, expires, call);
      return true;
    }

    method Remove(agentId: string, id: Id)
      requires Separate() && Wf(State(agentId))
      modifies Queue(agentId)
      ensures Wf(State(agentId))
      ensures forall other :: other != agentId ==> State(other) == old(State(other))
      ensures State(agentId) == AfterRemove(old(State(agentId)), id)
    {
      if agentId in agents {
        agents[agentId].Remove(id);
      } else {
        assert AfterRemove(EmptyAgent(), id) == EmptyAgent();
      }
    }
  }
}
