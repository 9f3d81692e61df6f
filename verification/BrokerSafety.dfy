/** What every broker operation keeps, and what one pass of the poll loop serves. */
module BrokerSafety {
  import opened Basics
  import opened BrokerState

  // ----- Small facts about the building blocks -----

  lemma ExpireFacts(s: AgentState, ids: set<Id>)
    ensures Expire(s, ids).items.Keys == s.items.Keys
    ensures forall id :: id in s.items ==>
                           && Expire(s, ids).items[id].request == s.items[id].request
                           && Expire(s, ids).items[id].delivered == s.items[id].delivered
                           && Expire(s, ids).items[id].redelivered == s.items[id].redelivered
                           && (id !in ids ==> Expire(s, ids).items[id] == s.items[id])
    ensures forall id :: Sequence(Expire(s, ids), id) == Sequence(s, id)
  {
  }

  lemma PendingIsIncreasing(s: AgentState, i: nat, j: nat)
    requires Wf(s) && i < |s.pending| && j < |s.pending|
    ensures s.pending[i] == s.pending[j] <==> i == j
    ensures i < j <==> Sequence(s, s.pending[i]) < Sequence(s, s.pending[j])
  {
  }

  ghost predicate Rising(s: AgentState, queue: seq<Id>) {
    forall i, j :: 0 <= i < j < |queue| ==> Sequence(s, queue[i]) < Sequence(s, queue[j])
  }

  lemma RisingHead(s: AgentState, queue: seq<Id>, x: Id)
    requires Rising(s, queue) && queue != [] && x in queue[1..]
    ensures Sequence(s, queue[0]) < Sequence(s, x)
  {
    var k :| 0 <= k < |queue[1..]| && queue[1..][k] == x;
    assert queue[k + 1] == x;
  }

  lemma RisingCons(s: AgentState, x: Id, rest: seq<Id>)
    requires Rising(s, rest) && forall y :: y in rest ==> Sequence(s, x) < Sequence(s, y)
    ensures Rising(s, [x] + rest)
  {
    var r := [x] + rest;
    forall i, j | 0 <= i < j < |r| ensures Sequence(s, r[i]) < Sequence(s, r[j]) {
      assert r[j] == rest[j - 1];
    }
  }

  lemma {:induction false} WithoutFacts(s: AgentState, queue: seq<Id>, id: Id)
    requires Rising(s, queue)
    ensures id !in Without(queue, id) && Rising(s, Without(queue, id))
  {
    if queue != [] {
      forall x | x in queue[1..] ensures Sequence(s, queue[0]) < Sequence(s, x) {
        RisingHead(s, queue, x);
      }
      if queue[0] != id {
        WithoutFacts(s, queue[1..], id);
        RisingCons(s, queue[0], Without(queue[1..], id));
      }
    }
  }

  // ----- The structural invariant -----

  ghost predicate SameRequests(s: AgentState, t: AgentState) {
    && t.items.Keys == s.items.Keys
    && s.next <= t.next
    && forall id :: id in s.items ==> t.items[id].request == s.items[id].request
  }

  lemma SameRequestsKeepNumbered(s: AgentState, t: AgentState)
    requires Numbered(s) && SameRequests(s, t)
    ensures Numbered(t)
  {
    forall id ensures Sequence(t, id) == Sequence(s, id) {
    }
  }

  /** Changes that leave the queue and the `delivered` flags alone. */
  lemma SameQueueKeepsQueueInOrder(s: AgentState, t: AgentState)
    requires QueueInOrder(s) && SameRequests(s, t)
    requires t.pending == s.pending && t.waiting <= s.waiting
    requires forall id :: id in s.items ==> t.items[id].delivered == s.items[id].delivered
    requires forall id :: id in s.items && t.items[id].redelivered ==> t.items[id].delivered
    ensures QueueInOrder(t)
  {
    forall id ensures Sequence(t, id) == Sequence(s, id) {
    }
  }

  lemma ExpireKeepsWf(s: AgentState, ids: set<Id>)
    requires Wf(s)
    ensures Wf(Expire(s, ids))
  {
    ExpireFacts(s, ids);
    SameRequestsKeepNumbered(s, Expire(s, ids));
    SameQueueKeepsQueueInOrder(s, Expire(s, ids));
  }

  lemma AbsorbKeepsWf(s: AgentState, cursor: nat)
    requires Wf(s)
    ensures Wf(Absorb(s, cursor))
  {
    SameRequestsKeepNumbered(s, Absorb(s, cursor));
    SameQueueKeepsQueueInOrder(s, Absorb(s, cursor));
  }

  lemma MarkRedeliveredKeepsWf(s: AgentState, id: Id)
    requires Wf(s) && id in s.items && s.items[id].delivered
    ensures Wf(MarkRedelivered(s, id))
  {
    SameRequestsKeepNumbered(s, MarkRedelivered(s, id));
    SameQueueKeepsQueueInOrder(s, MarkRedelivered(s, id));
  }

  lemma RespondKeepsWf(s: AgentState, response: Response)
    requires Wf(s)
    ensures Wf(AfterRespond(s, response))
  {
    SameRequestsKeepNumbered(s, AfterRespond(s, response));
    SameQueueKeepsQueueInOrder(s, AfterRespond(s, response));
    if Matches(s, response) {
      assert Sequence(s, response.requestId) <= s.next;
    }
  }

  /** Handing out a queued request keeps delivered below queued. */
  lemma PopKeepsQueueInOrder(s: AgentState, n: nat)
    requires QueueInOrder(s) && n < |s.pending|
    requires forall i :: 0 <= i < n ==> s.pending[i] !in s.waiting
    ensures QueueInOrder(MarkDelivered(s.(pending := s.pending[n + 1..]), s.pending[n]))
  {
    var id := s.pending[n];
    var t := MarkDelivered(s.(pending := s.pending[n + 1..]), id);
    forall x ensures Sequence(t, x) == Sequence(s, x) {
    }
    forall i | 0 <= i < |t.pending| ensures t.pending[i] == s.pending[n + 1 + i] && t.pending[i] != id {
      assert Sequence(s, s.pending[n]) < Sequence(s, s.pending[n + 1 + i]);
    }
    forall x | x in t.waiting && !t.items[x].delivered ensures x in t.pending {
      var k :| 0 <= k < |s.pending| && s.pending[k] == x;
      assert t.pending[k - n - 1] == x;
    }
  }

  lemma DrainKeepsQueueInOrder(s: AgentState)
    requires QueueInOrder(s)
    requires forall i :: 0 <= i < |s.pending| ==> s.pending[i] !in s.waiting
    ensures QueueInOrder(s.(pending := []))
  {
  }

  lemma LatePrefixLeavesWaiting(s: AgentState, n: nat)
    requires n <= |s.pending|
    ensures forall i :: 0 <= i < n ==> s.pending[i] !in Expire(s, Elements(s.pending[..n])).waiting
  {
    forall i | 0 <= i < n ensures s.pending[i] in Elements(s.pending[..n]) {
      assert s.pending[..n][i] == s.pending[i];
    }
  }

  lemma DequeueKeepsRequests(s: AgentState, clock: Clock)
    requires QueueInOrder(s)
    ensures SameRequests(s, Dequeue(s, clock))
  {
    ExpireFacts(s, Elements(s.pending[..LatePrefix(s, clock, s.pending)]));
  }

  lemma DequeueKeepsWf(s: AgentState, clock: Clock)
    requires Wf(s)
    ensures Wf(Dequeue(s, clock))
  {
    DequeueKeepsRequests(s, clock);
    SameRequestsKeepNumbered(s, Dequeue(s, clock));
    var n := LatePrefix(s, clock, s.pending);
    ExpireKeepsWf(s, Elements(s.pending[..n]));
    LatePrefixLeavesWaiting(s, n);
    if n < |s.pending| {
      PopKeepsQueueInOrder(Expire(s, Elements(s.pending[..n])), n);
    } else {
      DrainKeepsQueueInOrder(Expire(s, Elements(s.pending[..n])));
    }
  }

  lemma PassKeepsWf(s: AgentState, cursor: nat, clock: Clock)
    requires Wf(s)
    ensures Wf(AfterPass(s, cursor, clock))
  {
    AbsorbKeepsWf(s, cursor);
    var t := Absorb(s, cursor);
    if LostInTime(t, cursor, clock) != {} {
      var id := Oldest(t, LostInTime(t, cursor, clock));
      var late := set x | x in Lost(t, cursor) && Late(t, clock, x) && Sequence(t, x) < Sequence(t, id);
      ExpireKeepsWf(t, late);
      ExpireFacts(t, late);
      MarkRedeliveredKeepsWf(Expire(t, late), id);
    } else {
      ExpireKeepsWf(t, Lost(t, cursor));
      DequeueKeepsWf(Expire(t, Lost(t, cursor)), clock);
    }
  }

  lemma EnqueueKeepsNumbered(s: AgentState, t: AgentState, id: Id)
    requires Numbered(s) && id !in s.items && t.items.Keys == s.items.Keys + {id} && t.next == s.next + 1
    requires forall x :: x in s.items ==> t.items[x] == s.items[x]
    requires t.items[id].request.id == id && t.items[id].request.sequence == t.next
    requires forall x :: x in s.items ==> s.items[x].request.authorityEpoch <= t.items[id].request.authorityEpoch
    ensures Numbered(t)
  {
    forall x | x in s.items ensures Sequence(t, x) == Sequence(s, x) <= s.next {
    }
    assert Sequence(t, id) == s.next + 1;
    forall a, b | a in t.items && b in t.items && Sequence(t, a) == Sequence(t, b) ensures a == b {
      assert a in s.items || a == id;
      assert b in s.items || b == id;
    }
  }

  lemma EnqueueKeepsQueueInOrder(s: AgentState, t: AgentState, id: Id)
    requires QueueInOrder(s) && id !in s.items && t.items.Keys == s.items.Keys + {id}
    requires t.pending == s.pending + [id] && t.waiting == s.waiting + {id}
    requires forall x :: x in s.items ==> t.items[x] == s.items[x] && Sequence(s, x) < t.items[id].request.sequence
    requires !t.items[id].delivered && !t.items[id].redelivered
    ensures QueueInOrder(t)
  {
    forall x | x in s.items ensures Sequence(t, x) == Sequence(s, x) {
    }
    forall i | 0 <= i < |t.pending| ensures t.pending[i] == if i < |s.pending| then s.pending[i] else id {
    }
    assert t.pending[|s.pending|] == id;
  }

  lemma EnqueueKeepsWf(s: AgentState, id: Id, epoch: nat, now: int, expires: int, call: Call)
    requires Wf(s) && id !in s.items && s.next < MAX_UINT64
    requires forall x :: x in s.items ==> s.items[x].request.authorityEpoch <= epoch
    ensures Wf(AfterEnqueue(s, id, epoch, now, expires, call))
  {
    var t := AfterEnqueue(s, id, epoch, now, expires, call);
    EnqueueKeepsNumbered(s, t, id);
    EnqueueKeepsQueueInOrder(s, t, id);
  }

  lemma RemoveKeepsQueueInOrder(s: AgentState, id: Id)
    requires QueueInOrder(s)
    ensures QueueInOrder(AfterRemove(s, id))
  {
    var t := AfterRemove(s, id);
    forall x ensures Sequence(t, x) == Sequence(s, x) {
    }
    WithoutFacts(s, s.pending, id);
    forall i | 0 <= i < |t.pending| ensures t.pending[i] in s.pending {
      assert t.pending[i] in t.pending;
    }
  }

  lemma RemoveKeepsWf(s: AgentState, id: Id)
    requires Wf(s)
    ensures Wf(AfterRemove(s, id))
  {
    SameRequestsKeepNumbered(s, AfterRemove(s, id));
    RemoveKeepsQueueInOrder(s, id);
  }

  // ----- At most one outcome per request -----

  lemma ExpireKeepsSettled(s: AgentState, ids: set<Id>)
    requires Settled(s) && ids <= s.waiting
    requires forall i :: 0 <= i < |s.pending| ==> s.pending[i] !in ids
    ensures Settled(Expire(s, ids))
  {
  }

  lemma SuffixStaysWaiting(s: AgentState, n: nat)
    requires QueueInOrder(s) && Settled(s) && n <= |s.pending|
    ensures Elements(s.pending[..n]) <= s.waiting
    ensures Settled(s.(pending := s.pending[n..]))
    ensures forall i :: 0 <= i < |s.pending[n..]| ==> s.pending[n..][i] !in Elements(s.pending[..n])
  {
    forall k, j | 0 <= k < n <= j < |s.pending| ensures s.pending[k] != s.pending[j] {
      assert Sequence(s, s.pending[k]) < Sequence(s, s.pending[j]);
    }
  }

  lemma PopKeepsSettled(s: AgentState)
    requires Settled(s) && s.pending != []
    ensures Settled(MarkDelivered(s.(pending := s.pending[1..]), s.pending[0]))
  {
  }

  lemma DequeueKeepsSettled(s: AgentState, clock: Clock)
    requires QueueInOrder(s) && Settled(s)
    ensures Settled(Dequeue(s, clock))
  {
    var n := LatePrefix(s, clock, s.pending);
    SuffixStaysWaiting(s, n);
    var late := Elements(s.pending[..n]);
    var t := Expire(s.(pending := s.pending[n..]), late);
    ExpireKeepsSettled(s.(pending := s.pending[n..]), late);
    if n < |s.pending| {
      PopKeepsSettled(t);
      assert s.pending[n + 1..] == t.pending[1..];
    } else {
      assert s.pending[n..] == [];
    }
  }

  lemma PassKeepsSettled(s: AgentState, cursor: nat, clock: Clock)
    requires Wf(s) && Settled(s)
    ensures Settled(AfterPass(s, cursor, clock))
  {
    AbsorbKeepsWf(s, cursor);
    var t := Absorb(s, cursor);
    assert Settled(t);
    var lost := Lost(t, cursor);
    forall i | 0 <= i < |t.pending| ensures t.pending[i] !in lost {
    }
    if LostInTime(t, cursor, clock) != {} {
      var id := Oldest(t, LostInTime(t, cursor, clock));
      var late := set x | x in lost && Late(t, clock, x) && Sequence(t, x) < Sequence(t, id);
      ExpireKeepsSettled(t, late);
    } else {
      ExpireKeepsSettled(t, lost);
      ExpireKeepsWf(t, lost);
      DequeueKeepsSettled(Expire(t, lost), clock);
    }
  }

  /** Answering keeps the one-outcome rule exactly when the answered request had
      been handed out: nothing in `Respond` looks at the queue. */
  lemma RespondKeepsSettledIff(s: AgentState, response: Response)
    requires Wf(s) && Settled(s)
    ensures Settled(AfterRespond(s, response)) <==>
            (Matches(s, response) ==> s.items[response.requestId].delivered)
  {
    if Matches(s, response) {
      var id := response.requestId;
      var t := AfterRespond(s, response);
      if !s.items[id].delivered {
        var k :| 0 <= k < |s.pending| && s.pending[k] == id;
        assert t.pending[k] !in t.waiting;
      }
    }
  }

  /** The failing family at work: a request answered while still queued gets a
      second outcome from the next poll, once its lease has run out. */
  lemma EarlyAnswerSendsTwice(id: Id, call: Call, clock: Clock)
    requires clock(id) > 0
    ensures var queued := AfterEnqueue(EmptyAgent(), id, 1, 0, 0, call);
            var answered := AfterRespond(queued, Response(id, 1, 200, map[], ""));
            && Wf(queued) && Settled(queued)
            && id in AfterPass(answered, 0, clock).items
            && |AfterPass(answered, 0, clock).items[id].outcomes| == 2
  {
    EnqueueKeepsWf(EmptyAgent(), id, 1, 0, 0, call);
    var response := Response(id, 1, 200, map[], "");
    QueuedLateFails(AfterRespond(AfterEnqueue(EmptyAgent(), id, 1, 0, 0, call), response), id, clock);
  }

  lemma QueuedLateFails(s: AgentState, id: Id, clock: Clock)
    requires s.pending == [id] && id !in s.waiting && s.waiting <= {id} && id in s.items && Late(s, clock, id)
    ensures id in AfterPass(s, 0, clock).items
    ensures AfterPass(s, 0, clock).items[id].outcomes == s.items[id].outcomes + [DeadlineExceeded]
  {
    var t := Absorb(s, 0);
    assert LostInTime(t, 0, clock) == {} && Lost(t, 0) == {};
    var u := Expire(t, {});
    assert u.pending == [id] && Late(u, clock, id);
    assert LatePrefix(u, clock, [id]) == 1;
    assert [id][..1] == [id] && Elements([id]) == {id};
  }

  lemma EnqueueKeepsSettled(s: AgentState, id: Id, epoch: nat, now: int, expires: int, call: Call)
    requires Wf(s) && Settled(s) && id !in s.items
    ensures Settled(AfterEnqueue(s, id, epoch, now, expires, call))
  {
    var t := AfterEnqueue(s, id, epoch, now, expires, call);
    forall i | 0 <= i < |t.pending| ensures t.pending[i] in t.waiting {
      if i < |s.pending| {
        assert t.pending[i] == s.pending[i];
      }
    }
  }

  lemma RemoveKeepsSettled(s: AgentState, id: Id)
    requires Wf(s) && Settled(s)
    ensures Settled(AfterRemove(s, id))
  {
    WithoutFacts(s, s.pending, id);
    var t := AfterRemove(s, id);
    forall i | 0 <= i < |t.pending| ensures t.pending[i] in t.waiting {
      assert t.pending[i] in t.pending;
    }
  }

  // ----- The five stages of a request -----

  datatype Stage = Queued | InFlight | Answered | TimedOut | Cancelled

  ghost predicate InStage(s: AgentState, id: Id, stage: Stage)
    requires id in s.items
  {
    match stage
    case Queued => id in s.pending
    case InFlight => id in s.waiting && s.items[id].delivered
    case Answered => |s.items[id].outcomes| == 1 && s.items[id].outcomes[0].Answer?
    case TimedOut => s.items[id].outcomes == [DeadlineExceeded]
    case Cancelled => id !in s.waiting && s.items[id].outcomes == []
  }

  lemma ExactlyOneStage(s: AgentState, id: Id)
    requires Wf(s) && Settled(s) && id in s.items
    ensures exists stage :: InStage(s, id, stage)
    ensures forall a, b :: InStage(s, id, a) && InStage(s, id, b) ==> a == b
  {
    if id in s.pending {
      assert InStage(s, id, Queued);
    } else if id in s.waiting {
      assert InStage(s, id, InFlight);
    } else if s.items[id].outcomes == [] {
      assert InStage(s, id, Cancelled);
    } else if s.items[id].outcomes[0].Answer? {
      assert InStage(s, id, Answered);
    } else {
      assert s.items[id].outcomes == [DeadlineExceeded];
      assert InStage(s, id, TimedOut);
    }
  }

  /** The queue and the in-flight requests partition the waiting map. */
  lemma WaitingIsPartitioned(s: AgentState)
    requires Wf(s) && Settled(s)
    ensures var inFlight := set id | id in s.waiting && s.items[id].delivered;
            Elements(s.pending) + inFlight == s.waiting && Elements(s.pending) !! inFlight
  {
    forall id | id in s.waiting ensures id in s.pending || s.items[id].delivered {
    }
  }

  // ----- What a pass serves -----

  ghost predicate Eligible(s: AgentState, cursor: nat, clock: Clock, id: Id) {
    id in s.waiting && id in s.items && clock(id) <= s.items[id].request.expiresAt &&
    (!s.items[id].delivered || (!s.items[id].redelivered && s.items[id].request.sequence > cursor))
  }

  /** A pass hands out the eligible request with the smallest sequence, and hands
      out nothing only when no request is eligible. */
  lemma PassServesOldest(s: AgentState, cursor: nat, clock: Clock)
    requires Wf(s) && Settled(s)
    ensures match Handed(s, cursor, clock)
            case None => forall id :: !Eligible(s, cursor, clock, id)
            case Some(id) =>
              && Eligible(s, cursor, clock, id)
              && forall x :: Eligible(s, cursor, clock, x) ==> Sequence(s, id) <= Sequence(s, x)
  {
    var inTime := LostInTime(s, cursor, clock);
    forall x | Eligible(s, cursor, clock, x) ensures x in inTime || x in s.pending {
    }
    if inTime == {} {
      var n := LatePrefix(s, clock, s.pending);
      forall x | Eligible(s, cursor, clock, x) ensures n < |s.pending| && Sequence(s, s.pending[n]) <= Sequence(s, x) {
        var k :| 0 <= k < |s.pending| && s.pending[k] == x;
        assert n <= k;
        PendingIsIncreasing(s, n, k);
      }
      if n < |s.pending| {
        assert s.pending[n] in s.waiting;
      }
    } else {
      var id := Oldest(s, inTime);
      assert id in inTime;
    }
  }

  lemma {:induction false} LatePrefixIgnoresOutcomes(s: AgentState, t: AgentState, clock: Clock, queue: seq<Id>)
    requires forall id :: Late(s, clock, id) <==> Late(t, clock, id)
    ensures LatePrefix(s, clock, queue) == LatePrefix(t, clock, queue)
  {
    if queue != [] {
      LatePrefixIgnoresOutcomes(s, t, clock, queue[1..]);
    }
  }

  /** How a hand-out changes the state: `id` is the request handed out, if any. */
  ghost predicate MarksOnly(s: AgentState, t: AgentState, handed: Option<Id>) {
    && t.items.Keys == s.items.Keys
    && t.wake == s.wake
    && t.waiting <= s.waiting
    && (handed.Some? ==> handed.value in s.items)
    && forall id :: id in s.items ==>
                      && t.items[id].request == s.items[id].request
                      && (t.items[id].delivered <==> s.items[id].delivered || handed == Some(id))
                      && (t.items[id].redelivered <==> s.items[id].redelivered || (handed == Some(id) && s.items[id].delivered))
  }

  lemma RedeliverMarksOnly(s: AgentState, cursor: nat, clock: Clock)
    requires QueueInOrder(s) && LostInTime(s, cursor, clock) != {}
    ensures MarksOnly(s, Redeliver(s, cursor, clock), Handed(s, cursor, clock))
  {
    var id := Oldest(s, LostInTime(s, cursor, clock));
    assert id in LostInTime(s, cursor, clock);
    ExpireFacts(s, set x | x in Lost(s, cursor) && Late(s, clock, x) && Sequence(s, x) < Sequence(s, id));
  }

  lemma DequeueMarksOnly(s: AgentState, clock: Clock)
    requires QueueInOrder(s)
    ensures var n := LatePrefix(s, clock, s.pending);
            MarksOnly(s, Dequeue(s, clock), if n < |s.pending| then Some(s.pending[n]) else None)
    ensures LatePrefix(s, clock, s.pending) == |s.pending| ==> Dequeue(s, clock).pending == []
  {
    ExpireFacts(s, Elements(s.pending[..LatePrefix(s, clock, s.pending)]));
  }

  /** The only flags a pass changes are those of the request it hands out: a
      first hand-out sets `delivered`, a second one `redelivered`. */
  lemma PassMarksOnlyTheHanded(s: AgentState, cursor: nat, clock: Clock)
    requires Wf(s)
    ensures MarksOnly(s, AfterPass(s, cursor, clock), Handed(Absorb(s, cursor), cursor, clock))
    ensures AfterPass(s, cursor, clock).next == Max(s.next, cursor)
    ensures AfterPass(s, cursor, clock).cursor == Max(s.cursor, cursor)
  {
    AbsorbKeepsWf(s, cursor);
    var t := Absorb(s, cursor);
    if LostInTime(t, cursor, clock) != {} {
      RedeliverMarksOnly(t, cursor, clock);
    } else {
      var u := Expire(t, Lost(t, cursor));
      ExpireFacts(t, Lost(t, cursor));
      ExpireKeepsWf(t, Lost(t, cursor));
      LatePrefixIgnoresOutcomes(t, u, clock, t.pending);
      DequeueMarksOnly(u, clock);
    }
  }

  /** A request is handed out a second time only while it is unanswered, in
      flight, not yet redelivered and above the polled cursor. */
  lemma SecondHandOutIsUnacknowledged(s: AgentState, cursor: nat, clock: Clock)
    requires Wf(s) && Handed(Absorb(s, cursor), cursor, clock).Some?
    ensures var id := Handed(Absorb(s, cursor), cursor, clock).value;
            && id in s.items
            && (s.items[id].delivered ==>
                  && id in s.waiting && !s.items[id].redelivered
                  && s.items[id].request.sequence > cursor && clock(id) <= s.items[id].request.expiresAt)
  {
    var t := Absorb(s, cursor);
    if LostInTime(t, cursor, clock) != {} {
      assert Oldest(t, LostInTime(t, cursor, clock)) in LostInTime(t, cursor, clock);
    }
  }

  /** A pass that hands out nothing leaves an empty queue and nothing to redeliver. */
  lemma EmptyPassDrains(s: AgentState, cursor: nat, clock: Clock)
    requires Wf(s) && Handed(Absorb(s, cursor), cursor, clock) == None
    ensures AfterPass(s, cursor, clock).pending == []
    ensures Lost(AfterPass(s, cursor, clock), cursor) == {}
  {
    AbsorbKeepsWf(s, cursor);
    var t := Absorb(s, cursor);
    assert LostInTime(t, cursor, clock) == {};
    var u := Expire(t, Lost(t, cursor));
    ExpireFacts(t, Lost(t, cursor));
    ExpireKeepsWf(t, Lost(t, cursor));
    LatePrefixIgnoresOutcomes(t, u, clock, t.pending);
    DequeueMarksOnly(u, clock);
    var v := Dequeue(u, clock);
    assert Lost(v, cursor) <= Lost(t, cursor) * u.waiting;
  }

  /** First hand-outs go out in sequence order: a queued request that is handed
      out is newer than everything handed out before. */
  lemma FirstHandOutIsNewest(s: AgentState, cursor: nat, clock: Clock, earlier: Id)
    requires Wf(s) && earlier in s.items && s.items[earlier].delivered
    requires Handed(s, cursor, clock).Some? && !s.items[Handed(s, cursor, clock).value].delivered
    ensures Sequence(s, earlier) < Sequence(s, Handed(s, cursor, clock).value)
  {
    var id := Handed(s, cursor, clock).value;
    assert LostInTime(s, cursor, clock) == {};
    assert id in s.pending;
  }

  /** A new request's sequence exceeds every sequence and cursor already seen,
      those of every earlier poll included, exactly when the counter does not wrap. */
  lemma EnqueueIsNewestIff(s: AgentState, id: Id, epoch: nat, now: int, expires: int, call: Call)
    requires Wf(s)
    ensures var sequence := Sequence(AfterEnqueue(s, id, epoch, now, expires, call), id);
            (sequence > s.cursor && forall x :: x in s.items ==> sequence > Sequence(s, x)) <==> s.next < MAX_UINT64
  {
    assert Sequence(AfterEnqueue(s, id, epoch, now, expires, call), id) == NextSequence(s);
  }
}
