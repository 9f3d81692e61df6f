/** The cap on the containers of a document: what its flag means, and which
    containers it keeps. */
module MetricsCap {
  import opened Basics
  import opened Text
  import opened MetricsDocument
  import opened Ordering
  import opened Sanitize

  // ----- The flag -----

  /** The flag says "some were cut" and means it exactly when the number of valid
      containers is not the very number a document may hold. */
  lemma FlagMeansCutIff(d: Document, now: int, e: Document)
    requires Sanitized(d, now, e) && !d.truncated
    ensures (e.truncated <==> |e.containers| < |Kept(d.containers, CleanContainer)|) <==>
            |Kept(d.containers, CleanContainer)| != MAX_CONTAINERS
  {
    SameLength(e.containers, Admitted(d.containers));
  }

  /** A container as an agent may well report it, at the given load. */
  function Example(load: Float): Container {
    Container("0123456789ab", "web", "", "", "", "", "", "", load, Finite(0.0), 0, 1, [])
  }

  lemma ExampleIsClean(load: Float)
    requires load.Finite? && 0.0 <= load.value <= 1.0
    ensures CleanContainer(Example(load)) == Some(Example(load))
  {
    TrimIsStable("web");
    TrimIsStable("");
    FixedIsClean(Example(load));
  }

  lemma FullIsFlagged(all: seq<Container>, now: int)
    requires |all| == MAX_CONTAINERS && Kept(all, CleanContainer) == all && SortedBy(all, Name)
    ensures
      var d := ZERO_DOCUMENT.(containers := all);
      var e := d.(collectedAt := now, host := CleanHost(d.host), truncated := true);
      Sanitized(d, now, e)
  {
  }

  lemma RepeatedIsKept(c: Container, n: nat, clean: Container -> Option<Container>)
    requires clean(c) == Some(c)
    ensures
      var all := seq(n, _ => c);
      Kept(all, clean) == all && SortedBy(all, Name)
  {
    FixedAreKept(seq(n, _ => c), clean);
    Total(c.name, c.name);
  }

  /** Exactly four hundred containers arrive, all are kept, and the flag goes up. */
  lemma FullDocumentIsFlagged(now: int) returns (d: Document, e: Document)
    ensures Sanitized(d, now, e) && !d.truncated && e.truncated
    ensures e.containers == Kept(d.containers, CleanContainer)
  {
    var c := Example(Finite(0.0));
    ExampleIsClean(Finite(0.0));
    RepeatedIsKept(c, MAX_CONTAINERS, CleanContainer);
    var all := seq(MAX_CONTAINERS, _ => c);
    FullIsFlagged(all, now);
    d := ZERO_DOCUMENT.(containers := all);
    e := d.(collectedAt := now, host := CleanHost(d.host), truncated := true);
  }

  // ----- Which containers the cap keeps -----

  /** The same containers under other loads. */
  function Reloaded(s: seq<Container>, load: nat -> Float): seq<Container> {
    seq(|s|, i requires 0 <= i < |s| => s[i].(cpuUsedRatio := load(i)))
  }

  predicate AtLeastAsBusy(a: Container, b: Container) {
    a.cpuUsedRatio.Finite? && b.cpuUsedRatio.Finite? && a.cpuUsedRatio.value >= b.cpuUsedRatio.value
  }

  /** Nothing past the cap is busier than anything before it. */
  predicate BusiestFirst(kept: seq<Container>) {
    forall i, j | 0 <= i < MAX_CONTAINERS <= j < |kept| :: AtLeastAsBusy(kept[i], kept[j])
  }

  /** A rule that passes the load through, clamped, and does not judge by it. */
  ghost predicate LoadBlind(clean: Container -> Option<Container>) {
    forall c: Container, load ::
      var d := clean(c.(cpuUsedRatio := load));
      d.Some? == clean(c).Some? && (d.Some? ==> d.value.cpuUsedRatio == ClampRatio(load))
  }

  lemma CleaningIsLoadBlind()
    ensures LoadBlind(CleanContainer)
  {
  }

  /** How many are kept does not depend on the loads, and idle ones stay idle. */
  lemma {:induction false} ReloadedKeepsCount(s: seq<Container>, load: nat -> Float, clean: Container -> Option<Container>)
    requires LoadBlind(clean)
    ensures |Kept(Reloaded(s, load), clean)| == |Kept(s, clean)|
  {
    if s != [] {
      var n := |s| - 1;
      ReloadedKeepsCount(s[..n], load, clean);
      assert Reloaded(s, load)[..n] == Reloaded(s[..n], load);
    }
  }

  lemma {:induction false} IdleStayIdle(s: seq<Container>, load: nat -> Float, clean: Container -> Option<Container>, k: nat)
    requires LoadBlind(clean) && forall i: nat | i < |s| :: load(i) == Finite(0.0)
    requires k < |Kept(Reloaded(s, load), clean)|
    ensures Kept(Reloaded(s, load), clean)[k].cpuUsedRatio == Finite(0.0)
  {
    if s != [] {
      var n := |s| - 1;
      assert Reloaded(s, load)[..n] == Reloaded(s[..n], load);
      if k < |Kept(Reloaded(s[..n], load), clean)| {
        IdleStayIdle(s[..n], load, clean, k);
      }
    }
  }

  /** Where the container stands that is kept as number n. */
  lemma {:induction false} KeptAt<T>(s: seq<T>, n: nat, clean: T -> Option<T>) returns (j: nat)
    requires n < |Kept(s, clean)|
    ensures j < |s| && |Kept(s[..j], clean)| == n && clean(s[j]).Some?
  {
    var m := |s| - 1;
    if |Kept(s[..m], clean)| > n {
      j := KeptAt(s[..m], n, clean);
      assert s[..m][..j] == s[..j];
    } else {
      j := m;
    }
  }

  lemma KeptOnward<T>(t: seq<T>, j: nat, clean: T -> Option<T>)
    requires j < |t| && clean(t[j]).Some?
    ensures Kept(t[..j], clean) + [clean(t[j]).value] <= Kept(t, clean)
  {
    KeptNext(t, j, clean);
    KeptGrows(t, j + 1, clean);
  }

  function OnlyBusy(j: nat): nat -> Float {
    (i: nat) => if i == j then Finite(1.0) else Finite(0.0)
  }

  lemma BusyIsKeptLate(s: seq<Container>, j: nat, clean: Container -> Option<Container>)
    requires LoadBlind(clean) && j < |s| && |Kept(s[..j], clean)| == MAX_CONTAINERS && clean(s[j]).Some?
    ensures
      var kept := Kept(Reloaded(s, OnlyBusy(j)), clean);
      && |kept| > MAX_CONTAINERS
      && kept[0].cpuUsedRatio == Finite(0.0) && kept[MAX_CONTAINERS].cpuUsedRatio == Finite(1.0)
  {
    var load := OnlyBusy(j);
    var t := Reloaded(s, load);
    assert t[..j] == Reloaded(s[..j], load);
    ReloadedKeepsCount(s[..j], load, clean);
    IdleStayIdle(s[..j], load, clean, 0);
    KeptOnward(t, j, clean);
    assert t[j] == s[j].(cpuUsedRatio := Finite(1.0));
  }

  /** If more are valid than a document holds, the one just past the cap may be the
      only busy one. */
  lemma BusyOneIsCut(s: seq<Container>, clean: Container -> Option<Container>)
    requires LoadBlind(clean) && |Kept(s, clean)| > MAX_CONTAINERS
    ensures exists load: nat -> Float :: !BusiestFirst(Kept(Reloaded(s, load), clean))
  {
    var j := KeptAt(s, MAX_CONTAINERS, clean);
    BusyIsKeptLate(s, j, clean);
    var kept := Kept(Reloaded(s, OnlyBusy(j)), clean);
    assert !AtLeastAsBusy(kept[0], kept[MAX_CONTAINERS]);
    assert !BusiestFirst(kept);
  }

  /** The cap keeps the busiest containers whatever their loads if and only if it
      has nothing to cut: it takes the first ones, not the busiest. */
  lemma CapKeepsBusiestIff(s: seq<Container>)
    ensures (forall load: nat -> Float :: BusiestFirst(Kept(Reloaded(s, load), CleanContainer))) <==>
            |Kept(s, CleanContainer)| <= MAX_CONTAINERS
  {
    CleaningIsLoadBlind();
    if |Kept(s, CleanContainer)| <= MAX_CONTAINERS {
      forall load: nat -> Float ensures BusiestFirst(Kept(Reloaded(s, load), CleanContainer)) {
        ReloadedKeepsCount(s, load, CleanContainer);
      }
    } else {
      BusyOneIsCut(s, CleanContainer);
    }
  }
}
