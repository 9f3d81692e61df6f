/** The marker file that holds off a self-update while the agent is at work. */
module UpdateBusy {

  const UPDATE_PATH := "/v1/agent/update"

  datatype Request = Request(post: bool, path: string)

  /** What the agent was started with: whether it updates itself, and whether the
      marker's path is absolute and not the root. */
  datatype Config = Config(automatic: bool, usablePath: bool)

  predicate Protected(c: Config, r: Request) {
    c.automatic && r.post && r.path != UPDATE_PATH && c.usablePath
  }

  /** The counter and the marker. A method of this class is one section under the
      lock; file operations succeed. */
  class Marker {
    const config: Config
    var operations: nat
    var present: bool

    ghost predicate Sound()
      reads this
    {
      present <==> operations > 0
    }

    constructor (config: Config)
      ensures this.config == config && operations == 0 && Sound()
    {
      this.config := config;
      operations, present := 0, false;
    }

    method Enter(request: Request)
      modifies this
      ensures (operations, present) == Entered(old(operations), old(present), Protected(config, request))
      ensures old(Sound()) ==> Sound()
    {
      if !config.automatic || !request.post || request.path == UPDATE_PATH {
        return;
      }
      if !config.usablePath {
        return;
      }
      operations := operations + 1;
      if operations == 1 {
        present := true;
      }
    }

    method Release(request: Request)
      modifies this
      ensures (operations, present) == Released(old(operations), old(present), Protected(config, request))
      ensures old(Sound()) ==> Sound()
    {
      if !Protected(config, request) || operations == 0 {
        return;
      }
      operations := operations - 1;
      if operations == 0 {
        present := false;
      }
    }
  }

  function Entered(operations: nat, marker: bool, guarded: bool): (nat, bool) {
    if !guarded then (operations, marker)
    else (operations + 1, operations == 0 || marker)
  }

  function Released(operations: nat, marker: bool, guarded: bool): (nat, bool) {
    if !guarded || operations == 0 then (operations, marker)
    else ((operations - 1) as nat, operations != 1 && marker)
  }

  // ----- Interleavings -----

  /** The marker beside the requests that entered and have not been released. */
  datatype World = World(operations: nat, marker: bool, running: map<nat, Request>)

  datatype Event = Begin(id: nat, request: Request) | End(id: nat)

  const IDLE: World := World(0, false, map[])

  predicate Enabled(w: World, e: Event) {
    match e
    case Begin(id, _) => id !in w.running
    case End(id) => id in w.running
  }

  function Step(c: Config, w: World, e: Event): World
    requires Enabled(w, e)
  {
    match e
    case Begin(id, r) =>
      var (operations, marker) := Entered(w.operations, w.marker, Protected(c, r));
      World(operations, marker, w.running[id := r])
    case End(id) =>
      var (operations, marker) := Released(w.operations, w.marker, Protected(c, w.running[id]));
      World(operations, marker, w.running - {id})
  }

  predicate Legal(c: Config, w: World, events: seq<Event>)
    decreases |events|
  {
    events == [] || (Enabled(w, events[0]) && Legal(c, Step(c, w, events[0]), events[1..]))
  }

  function Run(c: Config, w: World, events: seq<Event>): World
    requires Legal(c, w, events)
    decreases |events|
  {
    if events == [] then w else Run(c, Step(c, w, events[0]), events[1..])
  }

  function Guarded(c: Config, running: map<nat, Request>): set<nat> {
    set id | id in running && Protected(c, running[id])
  }

  predicate Ok(c: Config, w: World) {
    w.operations == |Guarded(c, w.running)| && (w.marker <==> w.operations > 0)
  }

  lemma GuardedBegins(c: Config, running: map<nat, Request>, id: nat, r: Request)
    requires id !in running
    ensures |Guarded(c, running[id := r])| == |Guarded(c, running)| + if Protected(c, r) then 1 else 0
  {
    var before, after := Guarded(c, running), Guarded(c, running[id := r]);
    if Protected(c, r) {
      assert after == before + {id};
    } else {
      assert after == before;
    }
  }

  lemma GuardedEnds(c: Config, running: map<nat, Request>, id: nat)
    requires id in running
    ensures |Guarded(c, running - {id})| == |Guarded(c, running)| - if Protected(c, running[id]) then 1 else 0
  {
    var before, after := Guarded(c, running), Guarded(c, running - {id});
    if Protected(c, running[id]) {
      assert before == after + {id};
    } else {
      assert after == before;
    }
  }

  lemma StepKeepsOk(c: Config, w: World, e: Event)
    requires Ok(c, w) && Enabled(w, e)
    ensures Ok(c, Step(c, w, e))
  {
    match e
    case Begin(id, r) => GuardedBegins(c, w.running, id, r);
    case End(id) => GuardedEnds(c, w.running, id);
  }

  lemma {:induction false} RunKeepsOk(c: Config, w: World, events: seq<Event>)
    requires Ok(c, w) && Legal(c, w, events)
    ensures Ok(c, Run(c, w, events))
    decreases |events|
  {
    if events != [] {
      StepKeepsOk(c, w, events[0]);
      RunKeepsOk(c, Step(c, w, events[0]), events[1..]);
    }
  }

  /** In every interleaving, the marker of an agent that updates itself and has a
      usable path stands exactly while some POST but an update is executing. */
  lemma MarkerIff(c: Config, events: seq<Event>)
    requires Legal(c, IDLE, events)
    ensures
      var w := Run(c, IDLE, events);
      w.marker <==>
      c.automatic && c.usablePath &&
      exists id | id in w.running :: w.running[id].post && w.running[id].path != "/v1/agent/update"
  {
    RunKeepsOk(c, IDLE, events);
    var w := Run(c, IDLE, events);
    var guarded := Guarded(c, w.running);
    assert forall id | id in w.running && Protected(c, w.running[id]) :: id in guarded;
    if guarded != {} {
      var id :| id in guarded;
    }
  }
}
