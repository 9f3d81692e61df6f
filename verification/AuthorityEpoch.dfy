/** Concurrent calls of `SetAuthorityEpoch`: a compare-and-swap loop on one
    atomic counter, each load and each swap a separate step. */
module AuthorityEpoch {

  datatype Phase = Loading | Loaded(current: nat) | Done

  datatype Setter = Setter(target: nat, phase: Phase)

  datatype Epoch = Epoch(value: nat, setters: seq<Setter>)

  predicate Enabled(s: Epoch, i: nat) {
    i < |s.setters| && !s.setters[i].phase.Done?
  }

  /** One atomic step of setter `i`. */
  function Step(s: Epoch, i: nat): Epoch
    requires Enabled(s, i)
  {
    var setter := s.setters[i];
    match setter.phase
    case Loading =>
      var phase := if setter.target == 0 then Done else Loaded(s.value);
      s.(setters := s.setters[i := setter.(phase := phase)])
    case Loaded(current) =>
      if setter.target <= current then s.(setters := s.setters[i := setter.(phase := Done)])
      else if s.value == current then Epoch(setter.target, s.setters[i := setter.(phase := Done)])
      else s.(setters := s.setters[i := setter.(phase := Loading)])
    case Done => s
  }

  ghost predicate Legal(s: Epoch, schedule: seq<nat>)
    decreases |schedule|
  {
    schedule == [] || (Enabled(s, schedule[0]) && Legal(Step(s, schedule[0]), schedule[1..]))
  }

  ghost function Run(s: Epoch, schedule: seq<nat>): Epoch
    requires Legal(s, schedule)
    decreases |schedule|
  {
    if schedule == [] then s else Run(Step(s, schedule[0]), schedule[1..])
  }

  ghost predicate Start(s: Epoch) {
    forall i :: 0 <= i < |s.setters| ==> s.setters[i].phase == Loading
  }

  /** `s` can follow `s0`: the value never went down, every finished setter's
      target is covered, and the value is one somebody asked for. */
  ghost predicate Follows(s0: Epoch, s: Epoch) {
    && s0.value <= s.value
    && |s.setters| == |s0.setters|
    && (forall i :: 0 <= i < |s.setters| ==>
                      && s.setters[i].target == s0.setters[i].target
                      && (s.setters[i].phase.Done? ==> s.setters[i].target <= s.value)
                      && (s.setters[i].phase.Loaded? ==> s.setters[i].phase.current <= s.value))
    && (s.value == s0.value || exists i :: 0 <= i < |s0.setters| && s0.setters[i].target == s.value)
  }

  lemma StepFollows(s0: Epoch, s: Epoch, i: nat)
    requires Follows(s0, s) && Enabled(s, i)
    ensures Follows(s0, Step(s, i)) && s.value <= Step(s, i).value
  {
    var t := Step(s, i);
    if t.value != s.value {
      assert s0.setters[i].target == t.value;
    }
  }

  lemma {:induction false} RunFollows(s0: Epoch, s: Epoch, schedule: seq<nat>)
    requires Follows(s0, s) && Legal(s, schedule)
    ensures Follows(s0, Run(s, schedule)) && s.value <= Run(s, schedule).value
    decreases |schedule|
  {
    if schedule != [] {
      StepFollows(s0, s, schedule[0]);
      RunFollows(s0, Step(s, schedule[0]), schedule[1..]);
    }
  }

  ghost predicate IsMaximum(value: nat, initial: nat, setters: seq<Setter>) {
    && initial <= value
    && (forall i :: 0 <= i < |setters| ==> setters[i].target <= value)
    && (value == initial || exists i :: 0 <= i < |setters| && setters[i].target == value)
  }

  /** Under every interleaving the epoch never moves back, and once all calls have
      returned it is the largest value among the start and all targets. */
  lemma SetsEndAtMaximum(s: Epoch, schedule: seq<nat>)
    requires Start(s) && Legal(s, schedule)
    ensures s.value <= Run(s, schedule).value
    ensures (forall setter :: setter in Run(s, schedule).setters ==> setter.phase.Done?) ==>
              IsMaximum(Run(s, schedule).value, s.value, s.setters)
  {
    RunFollows(s, s, schedule);
  }

  /** A swap fails only when another call has raised the epoch in between. */
  lemma SwapFailsOnlyAfterARaise(s0: Epoch, before: seq<nat>, i: nat)
    requires Start(s0) && Legal(s0, before) && Enabled(Run(s0, before), i)
    requires Run(s0, before).setters[i].phase.Loaded? && Step(Run(s0, before), i).setters[i].phase == Loading
    ensures Run(s0, before).setters[i].phase.current < Run(s0, before).value
  {
    RunFollows(s0, s0, before);
  }
}
