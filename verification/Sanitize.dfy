/** Sanitising a measurement document: each list is filtered in place over its
    own backing array, and the whole document settles after one pass. */
module Sanitize {
  import opened Basics
  import opened Text
  import opened MetricsDocument
  import opened Ordering

  // ----- The filter -----

  /** Clean every element and keep the valid ones, in order. */
  function Kept<T>(s: seq<T>, clean: T -> Option<T>): seq<T> {
    if s == [] then []
    else
      var last := clean(s[|s| - 1]);
      Kept(s[..|s| - 1], clean) + if last.Some? then [last.value] else []
  }

  function First<T>(s: seq<T>, limit: nat): seq<T> {
    if |s| <= limit then s else s[..limit]
  }

  lemma {:induction false} KeptGrows<T>(s: seq<T>, k: nat, clean: T -> Option<T>)
    requires k <= |s|
    ensures Kept(s[..k], clean) <= Kept(s, clean)
  {
    if k == |s| {
      assert s[..k] == s;
    } else {
      var rest := s[..|s| - 1];
      KeptGrows(rest, k, clean);
      assert rest[..k] == s[..k];
    }
  }

  lemma KeptNext<T>(s: seq<T>, i: nat, clean: T -> Option<T>)
    requires i < |s|
    ensures Kept(s[..i + 1], clean) == Kept(s[..i], clean) + if clean(s[i]).Some? then [clean(s[i]).value] else []
  {
    assert s[..i + 1][..i] == s[..i];
  }

  /** Filters the first n elements over themselves and stops at the limit. Past
      the result the array holds what the pass left there. */
  method SanitizeSlice<T>(a: array<T>, n: nat, limit: nat, clean: T -> Option<T>) returns (m: nat)
    requires n <= a.Length
    modifies a
    ensures m <= n && a[..m] == First(Kept(old(a[..n]), clean), limit)
    ensures forall k | n <= k < a.Length :: a[k] == old(a[k])
  {
    m := 0;
    var i := 0;
    ghost var s := a[..n];
    while i < n && m < limit
      invariant 0 <= m <= i <= n && m <= limit
      invariant a[..m] == Kept(s[..i], clean)
      invariant forall k | i <= k < a.Length :: a[k] == old(a[k])
      decreases n - i
    {
      KeptNext(s, i, clean);
      ghost var kept := a[..m];
      assert a[i] == s[i];
      var cleaned := clean(a[i]);
      if cleaned.Some? {
        a[i] := cleaned.value;
        a[m] := a[i];
        assert a[..m] == kept;
        m := m + 1;
        assert a[..m] == kept + [cleaned.value];
      }
      i := i + 1;
    }
    KeptGrows(s, i, clean);
    assert s[..n] == s;
  }

  /** The same on a list: its elements are laid out on an array and filtered there. */
  method SanitizeList<T>(values: seq<T>, limit: nat, clean: T -> Option<T>) returns (out: seq<T>)
    ensures out == First(Kept(values, clean), limit)
  {
    var a := new T[|values|](i requires 0 <= i < |values| => values[i]);
    assert a[..|values|] == values;
    var m := SanitizeSlice(a, |values|, limit, clean);
    out := a[..m];
  }

  // ----- What filtering again does -----

  ghost predicate Idempotent<T(!new)>(clean: T -> Option<T>) {
    forall x :: clean(x).Some? ==> clean(clean(x).value) == clean(x)
  }

  predicate AllFixed<T(==)>(s: seq<T>, clean: T -> Option<T>) {
    forall i | 0 <= i < |s| :: clean(s[i]) == Some(s[i])
  }

  lemma {:induction false} KeptAreFixed<T(!new)>(s: seq<T>, clean: T -> Option<T>)
    requires Idempotent(clean)
    ensures AllFixed(Kept(s, clean), clean)
  {
    if s != [] {
      KeptAreFixed(s[..|s| - 1], clean);
    }
  }

  lemma {:induction false} FixedAreKept<T(!new)>(s: seq<T>, clean: T -> Option<T>)
    requires AllFixed(s, clean)
    ensures Kept(s, clean) == s
  {
    if s != [] {
      FixedAreKept(s[..|s| - 1], clean);
    }
  }

  /** A filtered list passes its own filter whole. */
  lemma FilterSettles<T(!new)>(s: seq<T>, limit: nat, clean: T -> Option<T>)
    requires Idempotent(clean)
    ensures
      var once := First(Kept(s, clean), limit);
      AllFixed(once, clean) && First(Kept(once, clean), limit) == once
  {
    KeptAreFixed(s, clean);
    FixedAreKept(First(Kept(s, clean), limit), clean);
  }

  // ----- The document -----

  function Collected(at: int, now: int): int {
    if at == 0 || at > now + MINUTE then now else at
  }

  function Name(c: Container): string {
    c.name
  }

  function Admitted(containers: seq<Container>): seq<Container> {
    First(Kept(containers, CleanContainer), MAX_CONTAINERS)
  }

  /** What one pass makes of document d at time now. Ties in the container order
      may fall either way. */
  predicate Sanitized(d: Document, now: int, e: Document) {
    && e.collectedAt == Collected(d.collectedAt, now)
    && e.host == CleanHost(d.host)
    && e.filesystems == First(Kept(d.filesystems, CleanFilesystem), MAX_MOUNTS)
    && e.interfaces == First(Kept(d.interfaces, CleanInterface), MAX_INTERFACES)
    && e.disks == First(Kept(d.disks, CleanDisk), MAX_DISKS)
    && multiset(e.containers) == multiset(Admitted(d.containers))
    && SortedBy(e.containers, Name)
    && e.truncated == (d.truncated || |Admitted(d.containers)| == MAX_CONTAINERS)
    && e.dockerAvailable == d.dockerAvailable
  }

  method SanitizeContainers(containers: seq<Container>) returns (out: seq<Container>, full: bool)
    ensures multiset(out) == multiset(Admitted(containers)) && SortedBy(out, Name)
    ensures full == (|Admitted(containers)| == MAX_CONTAINERS)
  {
    var kept := SanitizeList(containers, MAX_CONTAINERS, CleanContainer);
    full := |kept| == MAX_CONTAINERS;
    out := Sort(kept, Name);
  }

  method Pass(d: Document, now: int) returns (e: Document)
    ensures Sanitized(d, now, e)
  {
    var at := d.collectedAt;
    if at == 0 || at > now + MINUTE {
      at := now;
    }
    var filesystems := SanitizeList(d.filesystems, MAX_MOUNTS, CleanFilesystem);
    var interfaces := SanitizeList(d.interfaces, MAX_INTERFACES, CleanInterface);
    var disks := SanitizeList(d.disks, MAX_DISKS, CleanDisk);
    var containers, full := SanitizeContainers(d.containers);
    e := Document(at, CleanHost(d.host), filesystems, interfaces, disks, containers,
                  d.truncated || full, d.dockerAvailable);
  }

  /** The document as Core holds it. Its lists are values here, each laid out on
      a backing array of its own while it is filtered; dockerAvailable is not touched. */
  class MachineMetrics {
    var collectedAt: int
    var host: Host
    var filesystems: seq<Filesystem>
    var interfaces: seq<Interface>
    var disks: seq<Disk>
    var containers: seq<Container>
    var truncated: bool
    var dockerAvailable: bool

    function View(): Document
      reads this
    {
      Document(collectedAt, host, filesystems, interfaces, disks, containers, truncated, dockerAvailable)
    }

    method Sanitize(now: int)
      modifies this
      ensures Sanitized(old(View()), now, View())
    {
      var e := Pass(View(), now);
      collectedAt, host, truncated := e.collectedAt, e.host, e.truncated;
      filesystems, interfaces, disks, containers := e.filesystems, e.interfaces, e.disks, e.containers;
      assert View() == e;
    }
  }

  /** Every document has a sanitised form. */
  lemma SanitizedExists(d: Document, now: int)
    ensures exists e :: Sanitized(d, now, e)
  {
    var sorted := SortExists(Admitted(d.containers), Name);
    var e := Document(
      Collected(d.collectedAt, now), CleanHost(d.host), First(Kept(d.filesystems, CleanFilesystem), MAX_MOUNTS),
      First(Kept(d.interfaces, CleanInterface), MAX_INTERFACES), First(Kept(d.disks, CleanDisk), MAX_DISKS), sorted,
      d.truncated || |Admitted(d.containers)| == MAX_CONTAINERS, d.dockerAvailable);
    assert Sanitized(d, now, e);
  }

  // ----- What a pass promises -----

  /** The flag is raised exactly when at least as many valid containers arrived
      as a document may hold, so also when none was dropped. */
  lemma FlagIff(d: Document, now: int, e: Document)
    requires Sanitized(d, now, e)
    ensures e.truncated <==> d.truncated || |Kept(d.containers, CleanContainer)| >= MAX_CONTAINERS
    ensures |e.containers| < |Kept(d.containers, CleanContainer)| ==> e.truncated
  {
    SameLength(e.containers, Admitted(d.containers));
  }

  // ----- Sanitising twice -----

  /** A sample that was sanitised has a time of collection no later than a minute
      from now. */
  lemma HasATime(d: Document, now: int, e: Document)
    requires Sanitized(d, now, e) && now != 0
    ensures e.collectedAt != 0 && e.collectedAt <= now + MINUTE
  {
  }

  lemma CleanersSettle()
    ensures Idempotent(CleanContainer) && Idempotent(CleanFilesystem)
    ensures Idempotent(CleanInterface) && Idempotent(CleanDisk)
  {
    forall c | CleanContainer(c).Some? ensures CleanContainer(CleanContainer(c).value) == CleanContainer(c) {
      CleanContainerTwice(c);
    }
    forall f | CleanFilesystem(f).Some? ensures CleanFilesystem(CleanFilesystem(f).value) == CleanFilesystem(f) {
      CleanFilesystemTwice(f);
    }
    forall i | CleanInterface(i).Some? ensures CleanInterface(CleanInterface(i).value) == CleanInterface(i) {
      CleanInterfaceTwice(i);
    }
    forall d | CleanDisk(d).Some? ensures CleanDisk(CleanDisk(d).value) == CleanDisk(d) {
      CleanDiskTwice(d);
    }
  }

  lemma SortedContainersSettle(containers: seq<Container>, sorted: seq<Container>)
    requires multiset(sorted) == multiset(Admitted(containers))
    ensures Admitted(sorted) == sorted
  {
    CleanersSettle();
    FilterSettles(containers, MAX_CONTAINERS, CleanContainer);
    SameLength(sorted, Admitted(containers));
    forall i | 0 <= i < |sorted| ensures CleanContainer(sorted[i]) == Some(sorted[i]) {
      assert sorted[i] in multiset(Admitted(containers));
    }
    FixedAreKept(sorted, CleanContainer);
  }

  /** Sanitising again, at that time or later, changes nothing but how
      containers of one name stand among themselves. */
  lemma SanitizeSettles(d: Document, now: int, e: Document, later: int, f: Document)
    requires now != 0 && now <= later
    requires Sanitized(d, now, e) && Sanitized(e, later, f)
    ensures f == e.(containers := f.containers)
    ensures multiset(f.containers) == multiset(e.containers)
    ensures Keys(f.containers, Name) == Keys(e.containers, Name)
  {
    CleanersSettle();
    FilterSettles(d.filesystems, MAX_MOUNTS, CleanFilesystem);
    FilterSettles(d.interfaces, MAX_INTERFACES, CleanInterface);
    FilterSettles(d.disks, MAX_DISKS, CleanDisk);
    SortedContainersSettle(d.containers, e.containers);
    SameLength(e.containers, Admitted(d.containers));
    SortsAgree(f.containers, e.containers, Name);
  }

  /** With no two containers of one name, a second pass changes nothing at all. */
  lemma DistinctNamesSettle(d: Document, now: int, e: Document, later: int, f: Document)
    requires now != 0 && now <= later
    requires Sanitized(d, now, e) && Sanitized(e, later, f)
    requires forall i, j | 0 <= i < j < |e.containers| :: e.containers[i].name != e.containers[j].name
    ensures f == e
  {
    SanitizeSettles(d, now, e, later, f);
    var a, b := f.containers, e.containers;
    SameLength(a, b);
    forall i | 0 <= i < |a| ensures a[i] == b[i] {
      assert a[i] in multiset(b);
      assert Keys(a, Name)[i] == Keys(b, Name)[i];
      var j :| 0 <= j < |b| && b[j] == a[i];
      assert b[j].name == b[i].name;
    }
  }
}
