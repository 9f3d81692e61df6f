/** The whole delivery protocol for one agent: Core's callers, any number of
    concurrent polls inside the broker, the agent's poll loop with its durable
    cursor, and a network that loses, delays and repeats.

    `saveFirst` selects the agent. The shipped client moves its cursor only when
    the acknowledgement of its response comes back; the broker's comments
    describe one that has moved it before it polls again.
 */
module Rendezvous {
  import opened Basics
  import opened BrokerState
  import opened BrokerSafety

  datatype Reply = Work(request: Request) | NoContent(epoch: nat) | Conflict(epoch: nat) | Refused

  datatype PollPhase = Arrived | Ready | Blocked(wake: nat) | Replied(reply: Reply) | Closed

  /** One `Poll` call inside Core, with the cursor and epoch it was sent with. */
  datatype Poll = Poll(cursor: nat, epoch: nat, phase: PollPhase)

  datatype ClientPhase = Idle | Polling(poll: nat) | Answering(poll: nat, request: Request)

  datatype Client = Client(saveFirst: bool, cursor: nat, epoch: nat, phase: ClientPhase)

  datatype HandOut = HandOut(poll: nat, id: Id, again: bool)

  datatype Execution = Execution(poll: nat, id: Id)

  /** `now` is Core's clock, which never goes back; the agent's is its own. `posted`
      holds every response the agent uploaded, by the poll that brought
      the request; `accepted` the uploads Core answered with success. `handed`
      and `ran` log every hand-out by the broker and every execution on the machine. */
  datatype System = System(
    core: AgentState,
    epoch: nat,
    now: int,
    polls: seq<Poll>,
    client: Client,
    posted: map<nat, Response>,
    accepted: set<nat>,
    handed: seq<HandOut>,
    ran: seq<Execution>)

  datatype Event =
    | Enqueue(id: Id, now: int, expires: int, call: Call)
    | Cancel(id: Id)
    | RaiseEpoch(target: nat)
    | StartPoll
    | Admit(poll: nat)
    | Tick(to: int)
    | Pass(poll: nat, clock: Clock, until: int)
    | Wake(poll: nat)
    | GiveUp(poll: nat)
    | Receive(now: int, response: Response)
    | LosePoll
    | Upload(poll: nat)
    | Acknowledge
    | LoseAcknowledgement

  ghost predicate Start(s: System) {
    && s.core == EmptyAgent() && 1 <= s.epoch && s.polls == [] && s.client.phase == Idle
    && s.posted == map[] && s.accepted == {} && s.handed == [] && s.ran == []
  }

  /** A pass reads the clock once per request, between its start and its end. */
  ghost predicate Steady(clock: Clock, from: int, until: int) {
    from <= until && forall id :: from <= clock(id) <= until
  }

  ghost predicate Enabled(s: System, e: Event) {
    match e
    case Enqueue(id, _, _, _) => id !in s.core.items && s.core.next < MAX_UINT64
    case Cancel(_) => true
    case RaiseEpoch(_) => true
    case StartPoll => s.client.phase == Idle
    case Admit(p) => p < |s.polls| && s.polls[p].phase == Arrived
    case Tick(to) => s.now <= to
    case Pass(p, clock, until) => p < |s.polls| && s.polls[p].phase == Ready && Steady(clock, s.now, until)
    case Wake(p) => p < |s.polls| && s.polls[p].phase.Blocked? && s.polls[p].phase.wake < s.core.wake
    case GiveUp(p) => p < |s.polls| && s.polls[p].phase.Blocked?
    case Receive(_, response) =>
      && s.client.phase.Polling? && s.client.phase.poll < |s.polls|
      && s.polls[s.client.phase.poll].phase.Replied?
      && (var reply := s.polls[s.client.phase.poll].phase.reply;
          reply.Work? ==>
            response.requestId == reply.request.id && response.sequence == reply.request.sequence)
    case LosePoll => s.client.phase.Polling?
    case Upload(p) => p in s.posted
    case Acknowledge => s.client.phase.Answering? && s.client.phase.poll in s.accepted
    case LoseAcknowledgement => s.client.phase.Answering?
  }

  function SetPhase(s: System, p: nat, phase: PollPhase): System {
    if p < |s.polls| then s.(polls := s.polls[p := s.polls[p].(phase := phase)]) else s
  }

  function SetClient(s: System, cursor: nat, epoch: nat, phase: ClientPhase): System {
    s.(client := Client(s.client.saveFirst, cursor, epoch, phase))
  }

  /** broker.go:105-113 */
  function AdmitPoll(s: System, poll: Poll): PollPhase {
    if poll.epoch > s.epoch then Replied(Refused)
    else if poll.epoch != 0 && poll.epoch < s.epoch then Replied(Conflict(s.epoch))
    else Ready
  }

  ghost function PassPoll(s: System, p: nat, clock: Clock): System
    requires p < |s.polls|
  {
    var cursor := s.polls[p].cursor;
    var core := AfterPass(s.core, cursor, clock);
    var t := s.(core := core);
    match Handed(Absorb(s.core, cursor), cursor, clock)
    case None => SetPhase(t, p, Blocked(core.wake))
    case Some(id) =>
      if id in s.core.items then
        SetPhase(t, p, Replied(Work(s.core.items[id].request)))
        .(handed := s.handed + [HandOut(p, id, s.core.items[id].delivered)])
      else t
  }

  /** client.go:127-175: what the agent makes of the reply to its current poll. */
  ghost function Digest(s: System, p: nat, reply: Reply, now: int, response: Response): System {
    var t := SetPhase(s, p, Closed);
    match reply
    case Refused => SetClient(t, s.client.cursor, s.client.epoch, Idle)
    case NoContent(epoch) => SetClient(t, s.client.cursor, Max(s.client.epoch, epoch), Idle)
    case Conflict(epoch) => SetClient(t, s.client.cursor, Max(s.client.epoch, epoch), Idle)
    case Work(request) =>
      var epoch := Max(s.client.epoch, request.authorityEpoch);
      if request.authorityEpoch < s.client.epoch || request.sequence <= s.client.cursor then
        SetClient(t, s.client.cursor, epoch, Idle)
      else
        SetClient(t, if s.client.saveFirst then request.sequence else s.client.cursor, epoch, Answering(p, request))
        .(posted := s.posted[p := response],
        ran := if now > request.expiresAt then s.ran
        else s.ran + [Execution(p, request.id)])
  }

  ghost function Step(s: System, e: Event): System
    requires Enabled(s, e)
  {
    match e
    case Enqueue(id, now, expires, call) => s.(core := AfterEnqueue(s.core, id, s.epoch, now, expires, call))
    case Cancel(id) => s.(core := AfterRemove(s.core, id))
    case RaiseEpoch(target) => s.(epoch := Max(s.epoch, target))
    case StartPoll =>
      SetClient(s, s.client.cursor, s.client.epoch, Polling(|s.polls|))
      .(polls := s.polls + [Poll(s.client.cursor, s.client.epoch, Arrived)])
    case Admit(p) => SetPhase(s, p, AdmitPoll(s, s.polls[p]))
    case Tick(to) => s.(now := to)
    case Pass(p, clock, until) => PassPoll(s, p, clock).(now := until)
    case Wake(p) => SetPhase(s, p, Ready)
    case GiveUp(p) => SetPhase(s, p, Replied(NoContent(s.epoch)))
    case Receive(now, response) =>
      Digest(s, s.client.phase.poll, s.polls[s.client.phase.poll].phase.reply, now, response)
    case LosePoll => SetClient(s, s.client.cursor, s.client.epoch, Idle)
    case Upload(p) =>
      s.(core := AfterRespond(s.core, s.posted[p]),
      accepted := if Matches(s.core, s.posted[p]) then s.accepted + {p} else s.accepted)
    case Acknowledge => SetClient(s, s.client.phase.request.sequence, s.client.epoch, Idle)
    case LoseAcknowledgement => SetClient(s, s.client.cursor, s.client.epoch, Idle)
  }

  ghost predicate Legal(s: System, es: seq<Event>)
    decreases |es|
  {
    es == [] || (Enabled(s, es[0]) && Legal(Step(s, es[0]), es[1..]))
  }

  ghost function Run(s: System, es: seq<Event>): System
    requires Legal(s, es)
    decreases |es|
  {
    if es == [] then s else Run(Step(s, es[0]), es[1..])
  }
}
