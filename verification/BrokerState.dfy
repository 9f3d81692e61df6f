/** The outbound-agent broker's bookkeeping for one agent, as values.

    `AgentState` is the Go struct of the same name. A `*pending` is identified by
    its request id, so `items` plays the heap: it keeps every request ever queued
    for the agent, `pending` is the queue and `waiting` the key set of
    the map of unanswered requests. `outcomes` lists everything that was ever sent
    on a request's result channel, whose capacity is one.
 */
module BrokerState {
  import opened Basics

  const DEFAULT_LEASE: nat := 35_000_000_000

  /** A request id: sixteen random bytes, unique for the life of the process. */
  datatype Id = Id(bits: nat)

  datatype Call = Call(verb: string, path: string, header: map<string, string>, body: string)

  datatype Request = Request(
    id: Id, sequence: nat, authorityEpoch: nat, createdAt: int, expiresAt: int, call: Call)

  datatype Response = Response(
    requestId: Id, sequence: nat, statusCode: int, header: map<string, string>, body: string)

  datatype Outcome = Answer(response: Response) | DeadlineExceeded

  datatype Item = Item(request: Request, delivered: bool, redelivered: bool, outcomes: seq<Outcome>)

  /** `wake` numbers the current wake channel; every channel with a smaller number is closed. */
  datatype AgentState = AgentState(
    cursor: nat, next: nat, pending: seq<Id>, waiting: set<Id>, items: map<Id, Item>, wake: nat)

  /** One clock reading per inspected request, in nanoseconds. */
  type Clock = Id -> int

  function EmptyAgent(): AgentState {
    AgentState(0, 0, [], {}, map[], 0)
  }

  function Max(a: nat, b: nat): nat {
    if a < b then b else a
  }

  // ----- Invariants -----

  /** Sequences are unique and within the counter; epochs follow sequence order. */
  ghost predicate Numbered(s: AgentState) {
    && (forall id :: id in s.items ==> s.items[id].request.id == id && Sequence(s, id) <= s.next)
    && (forall a, b :: a in s.items && b in s.items && Sequence(s, a) == Sequence(s, b) ==> a == b)
    && (forall a, b :: a in s.items && b in s.items && Sequence(s, a) < Sequence(s, b) ==>
                         s.items[a].request.authorityEpoch <= s.items[b].request.authorityEpoch)
  }

  /** The queue is in sequence order, holds every unanswered request that was
      never handed out, and lies above everything that was. */
  ghost predicate QueueInOrder(s: AgentState) {
    && s.waiting <= s.items.Keys
    && (forall i :: 0 <= i < |s.pending| ==> s.pending[i] in s.items && !s.items[s.pending[i]].delivered)
    && (forall i, j :: 0 <= i < j < |s.pending| ==> Sequence(s, s.pending[i]) < Sequence(s, s.pending[j]))
    && (forall a, i :: a in s.items && s.items[a].delivered && 0 <= i < |s.pending| ==>
                         Sequence(s, a) < Sequence(s, s.pending[i]))
    && (forall id :: id in s.waiting && !s.items[id].delivered ==> id in s.pending)
    && (forall id :: id in s.items && s.items[id].redelivered ==> s.items[id].delivered)
  }

  /** Holds of every agent state, whatever the agent sends. */
  ghost predicate Wf(s: AgentState) {
    Numbered(s) && QueueInOrder(s) && s.cursor <= s.next
  }

  /** The queue holds only unanswered requests and no request has two outcomes. */
  ghost predicate Settled(s: AgentState) {
    && (forall i :: 0 <= i < |s.pending| ==> s.pending[i] in s.waiting)
    && (forall id :: id in s.items ==> |s.items[id].outcomes| <= 1)
    && (forall id :: id in s.items && id in s.waiting ==> s.items[id].outcomes == [])
  }

  function Sequence(s: AgentState, id: Id): nat
  {
    if id in s.items then s.items[id].request.sequence else 0
  }

  predicate Late(s: AgentState, clock: Clock, id: Id) {
    id in s.items && clock(id) > s.items[id].request.expiresAt
  }

  // ----- Poll -----

  /** Lines 117-125: the agent's durable cursor raises both counters. */
  function Absorb(s: AgentState, cursor: nat): AgentState {
    s.(cursor := Max(s.cursor, cursor), next := Max(s.next, cursor))
  }

  /** Handed out once, never answered, not acknowledged by the polling agent. */
  predicate Unacknowledged(s: AgentState, cursor: nat, id: Id) {
    id in s.items && id in s.waiting &&
    s.items[id].delivered && !s.items[id].redelivered && s.items[id].request.sequence > cursor
  }

  ghost function Lost(s: AgentState, cursor: nat): set<Id> {
    set id | id in s.waiting && Unacknowledged(s, cursor, id)
  }

  ghost function LostInTime(s: AgentState, cursor: nat, clock: Clock): set<Id> {
    set id | id in s.waiting && Unacknowledged(s, cursor, id) && !Late(s, clock, id)
  }

  /** Drop the ids from the waiting map and send each of them a deadline error. */
  function Expire(s: AgentState, ids: set<Id>): AgentState {
    s.(waiting := s.waiting - ids,
    items := map id | id in s.items ::
      if id in ids then s.items[id].(outcomes := s.items[id].outcomes + [DeadlineExceeded]) else s.items[id])
  }

  ghost predicate IsOldest(s: AgentState, ids: set<Id>, id: Id) {
    id in ids && forall other :: other in ids ==> Sequence(s, id) <= Sequence(s, other)
  }

  lemma {:induction false} OldestExists(s: AgentState, ids: set<Id>)
    requires ids != {}
    ensures exists id :: IsOldest(s, ids, id)
    decreases |ids|
  {
    var x :| x in ids;
    var rest := ids - {x};
    if rest == {} {
      assert ids == {x};
      assert IsOldest(s, ids, x);
    } else {
      OldestExists(s, rest);
      var y :| IsOldest(s, rest, y);
      assert ids == rest + {x};
      assert IsOldest(s, ids, if Sequence(s, x) <= Sequence(s, y) then x else y);
    }
  }

  ghost function Oldest(s: AgentState, ids: set<Id>): (id: Id)
    requires ids != {}
    ensures IsOldest(s, ids, id)
  {
    OldestExists(s, ids);
    var id :| IsOldest(s, ids, id);
    id
  }

  /** The redelivery: the oldest unanswered in-flight request goes out a second
      and last time; the late ones in front of it are failed. */
  ghost function Redeliver(s: AgentState, cursor: nat, clock: Clock): AgentState
    requires LostInTime(s, cursor, clock) != {}
  {
    var id := Oldest(s, LostInTime(s, cursor, clock));
    var late := set x | x in Lost(s, cursor) && Late(s, clock, x) && Sequence(s, x) < Sequence(s, id);
    MarkRedelivered(Expire(s, late), id)
  }

  function MarkRedelivered(s: AgentState, id: Id): AgentState {
    if id in s.items then s.(items := s.items[id := s.items[id].(redelivered := true)]) else s
  }

  /** How many queued requests stand, late, in front of the first one in time. */
  function LatePrefix(s: AgentState, clock: Clock, queue: seq<Id>): (n: nat)
    ensures n <= |queue|
    ensures forall i :: 0 <= i < n ==> Late(s, clock, queue[i])
    ensures n < |queue| ==> !Late(s, clock, queue[n])
  {
    if queue == [] || !Late(s, clock, queue[0]) then 0 else 1 + LatePrefix(s, clock, queue[1..])
  }

  ghost function Elements(queue: seq<Id>): set<Id> {
    set id | id in queue
  }

  /** The queue part of a pass: fail the late prefix, hand out the next one. */
  ghost function Dequeue(s: AgentState, clock: Clock): AgentState {
    var n := LatePrefix(s, clock, s.pending);
    var s1 := Expire(s, Elements(s.pending[..n]));
    if n == |s.pending| then s1.(pending := []) else MarkDelivered(s1.(pending := s.pending[n + 1..]), s.pending[n])
  }

  function MarkDelivered(s: AgentState, id: Id): AgentState {
    if id in s.items then s.(items := s.items[id := s.items[id].(delivered := true)]) else s
  }

  ghost function AfterAbsorbed(s: AgentState, cursor: nat, clock: Clock): AgentState {
    if LostInTime(s, cursor, clock) != {} then Redeliver(s, cursor, clock)
    else Dequeue(Expire(s, Lost(s, cursor)), clock)
  }

  /** One locked pass of the poll loop, lines 115-159. */
  ghost function AfterPass(s: AgentState, cursor: nat, clock: Clock): AgentState {
    AfterAbsorbed(Absorb(s, cursor), cursor, clock)
  }

  /** What that pass hands out, if anything. */
  ghost function Handed(s: AgentState, cursor: nat, clock: Clock): Option<Id> {
    if LostInTime(s, cursor, clock) != {} then Some(Oldest(s, LostInTime(s, cursor, clock)))
    else
      var n := LatePrefix(s, clock, s.pending);
      if n == |s.pending| then None else Some(s.pending[n])
  }

  // ----- Respond, enqueue, remove -----

  predicate Matches(s: AgentState, response: Response) {
    response.requestId in s.waiting && response.requestId in s.items &&
    s.items[response.requestId].request.sequence == response.sequence
  }

  /** Lines 175-187; a response that matches no active lease changes nothing. */
  function AfterRespond(s: AgentState, response: Response): AgentState {
    if !Matches(s, response) then s
    else
      var id := response.requestId;
      s.(waiting := s.waiting - {id},
      cursor := Max(s.cursor, response.sequence),
      items := s.items[id := s.items[id].(outcomes := s.items[id].outcomes + [Answer(response)])])
  }

  /** The 64-bit counter wraps to zero. */
  function NextSequence(s: AgentState): nat {
    if s.next < MAX_UINT64 then s.next + 1 else 0
  }

  /** Lines 224-242: a fresh id, the next sequence, a closed and replaced wake channel. */
  function AfterEnqueue(s: AgentState, id: Id, epoch: nat, now: int, expires: int, call: Call): AgentState {
    var sequence := NextSequence(s);
    s.(next := sequence,
    pending := s.pending + [id],
    waiting := s.waiting + {id},
    items := s.items[id := Item(Request(id, sequence, epoch, now, expires, call), false, false, [])],
    wake := s.wake + 1)
  }

  function Without(queue: seq<Id>, id: Id): (r: seq<Id>)
    ensures id !in queue ==> r == queue
    ensures forall x :: x in r ==> x in queue
    ensures forall x :: x in queue && x != id ==> x in r
  {
    if queue == [] then []
    else if queue[0] == id then queue[1..]
    else [queue[0]] + Without(queue[1..], id)
  }

  /** The caller gave up: forget the request, lines 262-268. */
  function AfterRemove(s: AgentState, id: Id): AgentState {
    s.(waiting := s.waiting - {id}, pending := Without(s.pending, id))
  }
}
