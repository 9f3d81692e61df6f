/** What a sanitised document says of the one that arrived, field by field: which
    text is kept, where a number is moved to, and which records stay. */
module SanitizedFields {
  import opened Basics
  import opened Text
  import opened MetricsDocument
  import opened Sanitize

  // ----- Numbers -----

  function Distance(x: real, y: real): real {
    if x < y then y - x else x - y
  }

  /** r is the number of the range closest to f, or its lower end if f is no number. */
  ghost predicate Nearest(r: Float, f: Float, low: real, high: real) {
    && r.Finite? && low <= r.value <= high
    && (f.Finite? ==> forall x :: low <= x <= high ==> Distance(r.value, f.value) <= Distance(x, f.value))
    && (!f.Finite? ==> r.value == low)
  }

  lemma ClampFloatIsNearest(f: Float, low: real, high: real)
    requires low <= high
    ensures Nearest(ClampFloat(f, low, high), f, low, high)
  {
  }

  lemma NearestIsUnique(r: Float, s: Float, f: Float, low: real, high: real)
    requires Nearest(r, f, low, high) && Nearest(s, f, low, high)
    ensures r == s
  {
    if f.Finite? {
      assert Distance(r.value, f.value) == Distance(s.value, f.value);
      var middle := (r.value + s.value) / 2.0;
      assert Distance(r.value, f.value) <= Distance(middle, f.value);
    }
  }

  /** A fraction below zero, or no number at all, is unknown and becomes -1. */
  ghost predicate Ratio(r: Float, f: Float) {
    if f.Finite? && f.value >= 0.0 then Nearest(r, f, 0.0, 1.0) else r == Finite(-1.0)
  }

  lemma ClampRatioIs(f: Float)
    ensures Ratio(ClampRatio(f), f)
  {
    if f.Finite? && f.value >= 0.0 {
      ClampFloatIsNearest(f, 0.0, 1.0);
    }
  }

  function Apart(x: int, y: int): int {
    if x < y then y - x else x - y
  }

  ghost predicate NearestInt(r: int, n: int, low: int, high: int) {
    low <= r <= high && forall x :: low <= x <= high ==> Apart(r, n) <= Apart(x, n)
  }

  lemma ClampIntIsNearest(n: int, low: int, high: int)
    requires low <= high
    ensures NearestInt(ClampInt(n, low, high), n, low, high)
  {
  }

  // ----- Text -----

  predicate NameText(s: string) {
    NameOf(s, " ._:/@+-", 128)
  }

  predicate DeviceText(s: string) {
    NameOf(s, "._:/-", 64)
  }

  lemma NameTextIff(s: string)
    ensures NamePattern(s) <==> NameText(s)
  {
  }

  lemma DeviceTextIff(s: string)
    ensures DevicePattern(s) <==> DeviceText(s)
  {
  }

  lemma TrimNameIs(s: string)
    ensures TrimName(s) == if NameText(Trim(s)) then Trim(s) else ""
  {
    NameTextIff(Trim(s));
  }

  lemma TrimDeviceIs(s: string)
    ensures TrimDevice(s) == if DeviceText(Trim(s)) then Trim(s) else ""
  {
    DeviceTextIff(Trim(s));
  }

  // ----- Paths -----

  predicate Segment(s: string) {
    s != "" && forall i :: 0 <= i < |s| ==> Letter(s[i]) || Numeral(s[i]) || s[i] in " ._@+:-"
  }

  /** Each segment behind a slash of its own. */
  function Slashed(segments: seq<string>): string {
    if segments == [] then "" else Slashed(segments[..|segments| - 1]) + "/" + segments[|segments| - 1]
  }

  predicate AreSegments(segments: seq<string>) {
    forall i :: 0 <= i < |segments| ==> Segment(segments[i])
  }

  ghost predicate PathAt(s: string, segments: seq<string>) {
    segments != [] && AreSegments(segments) && s == Slashed(segments)
  }

  /** The root, or segments each behind one slash. */
  ghost predicate AbsolutePath(s: string) {
    s == "/" || exists segments :: PathAt(s, segments)
  }

  /** The pattern, when the path does not end in a slash. */
  predicate Inner(s: string) {
    PathPattern(s) && s[|s| - 1] != '/'
  }

  lemma InnerExtends(s: string, segment: string)
    requires (s == "" || Inner(s)) && Segment(segment)
    ensures Inner(s + "/" + segment)
  {
    var t := s + "/" + segment;
    forall i | 1 <= i < |t| ensures PathCharAt(t, i) {
      if i < |s| {
        assert PathCharAt(s, i);
      } else if i == |s| {
        assert t[i - 1] == s[|s| - 1];
      } else {
        assert t[i] == segment[i - |s| - 1];
      }
    }
    assert t[|t| - 1] == segment[|segment| - 1];
  }

  lemma {:induction false} SlashedIsInner(segments: seq<string>)
    requires segments != [] && AreSegments(segments)
    ensures Inner(Slashed(segments))
  {
    var front := segments[..|segments| - 1];
    if front != [] {
      SlashedIsInner(front);
    }
    InnerExtends(Slashed(front), segments[|segments| - 1]);
  }

  /** Where the last slash is. */
  function LastSlash(s: string): (k: nat)
    requires s != "" && s[0] == '/'
    ensures k < |s| && s[k] == '/' && forall i :: k < i < |s| ==> s[i] != '/'
  {
    if s[|s| - 1] == '/' then |s| - 1 else LastSlash(s[..|s| - 1])
  }

  /** What is behind the last slash, and what is before it. */
  lemma InnerSplits(s: string, k: nat)
    requires Inner(s) && k < |s| && s[k] == '/' && forall i :: k < i < |s| ==> s[i] != '/'
    ensures Segment(s[k + 1..]) && (k == 0 || Inner(s[..k]))
  {
    var segment, front := s[k + 1..], s[..k];
    forall i | 0 <= i < |segment| ensures Letter(segment[i]) || Numeral(segment[i]) || segment[i] in " ._@+:-" {
      assert PathCharAt(s, k + 1 + i) && segment[i] == s[k + 1 + i];
    }
    if k > 0 {
      assert PathCharAt(s, k);
      forall i | 1 <= i < k ensures PathCharAt(front, i) {
        assert PathCharAt(s, i);
      }
    }
  }

  lemma {:induction false} InnerIsSlashed(s: string) returns (segments: seq<string>)
    requires Inner(s)
    ensures PathAt(s, segments)
    decreases |s|
  {
    var k := LastSlash(s);
    InnerSplits(s, k);
    assert s == s[..k] + "/" + s[k + 1..];
    var before: seq<string> := [];
    if k > 0 {
      before := InnerIsSlashed(s[..k]);
    }
    segments := before + [s[k + 1..]];
    assert segments[..|segments| - 1] == before;
  }

  lemma PathIff(s: string)
    ensures PathPattern(s) <==> AbsolutePath(s)
  {
    if PathPattern(s) && s != "/" {
      assert PathCharAt(s, |s| - 1);
      var segments := InnerIsSlashed(s);
    } else if s != "/" && AbsolutePath(s) {
      var segments :| PathAt(s, segments);
      SlashedIsInner(segments);
    }
  }

  ghost predicate PathText(s: string) {
    |s| <= 256 && AbsolutePath(s)
  }

  lemma TrimPathIs(s: string)
    ensures TrimPath(s) == if PathText(Trim(s)) then Trim(s) else ""
  {
    PathIff(Trim(s));
  }

  // ----- Records -----

  /** The text without the white space around it, or nothing if that is no name. */
  predicate IsName(r: string, s: string) {
    r == if NameText(Trim(s)) then Trim(s) else ""
  }

  predicate IsDevice(r: string, s: string) {
    r == if DeviceText(Trim(s)) then Trim(s) else ""
  }

  ghost predicate IsPath(r: string, s: string) {
    r == if PathText(Trim(s)) then Trim(s) else ""
  }

  ghost predicate HostOf(h: Host, r: Host) {
    && NearestInt(r.cpuCores, h.cpuCores, 0, 4096)
    && Ratio(r.cpuUsedRatio, h.cpuUsedRatio) && Ratio(r.cpuIoWaitRatio, h.cpuIoWaitRatio)
    && Ratio(r.cpuStealRatio, h.cpuStealRatio)
    && Nearest(r.load1, h.load1, 0.0, 100_000.0) && Nearest(r.load5, h.load5, 0.0, 100_000.0)
    && Nearest(r.load15, h.load15, 0.0, 100_000.0)
    && r.counters == h.counters
  }

  lemma CleanHostIs(h: Host)
    ensures HostOf(h, CleanHost(h))
  {
    ClampIntIsNearest(h.cpuCores, 0, 4096);
    ClampRatioIs(h.cpuUsedRatio);
    ClampRatioIs(h.cpuIoWaitRatio);
    ClampRatioIs(h.cpuStealRatio);
    ClampFloatIsNearest(h.load1, 0.0, 100_000.0);
    ClampFloatIsNearest(h.load5, 0.0, 100_000.0);
    ClampFloatIsNearest(h.load15, 0.0, 100_000.0);
  }

  /** A filesystem stays exactly if its mount is a path. */
  lemma CleanFilesystemIff(f: Filesystem)
    ensures CleanFilesystem(f).Some? <==> PathText(Trim(f.mount))
    ensures
      CleanFilesystem(f).Some? ==>
        var r := CleanFilesystem(f).value;
        r.mount == Trim(f.mount) && IsPath(r.device, f.device) && IsDevice(r.fstype, f.fstype) && r.counters == f.counters
  {
    TrimPathIs(f.mount);
    TrimPathIs(f.device);
    TrimDeviceIs(f.fstype);
    PathIff("");
  }

  lemma CleanInterfaceIff(i: Interface)
    ensures CleanInterface(i) == if DeviceText(Trim(i.name)) then Some(Interface(Trim(i.name), i.counters)) else None
  {
    TrimDeviceIs(i.name);
  }

  lemma CleanDiskIff(d: Disk)
    ensures CleanDisk(d) == if DeviceText(Trim(d.device)) then Some(Disk(Trim(d.device), d.counters)) else None
  {
    TrimDeviceIs(d.device);
  }

  predicate HexDigit(c: char) {
    Numeral(c) || 'a' <= c <= 'f' || 'A' <= c <= 'F'
  }

  function Small(c: char): char {
    if 'A' <= c <= 'Z' then c + ' ' else c
  }

  function Unslashed(s: string): string {
    if HasPrefix(s, "/") then s[1..] else s
  }

  /** An identifier of 12 to 64 hexadecimal digits, in either case. */
  predicate IdText(s: string) {
    12 <= |s| <= 64 && forall i :: 0 <= i < |s| ==> HexDigit(s[i])
  }

  lemma LowerIsHex(s: string)
    ensures IdPattern(ToLower(s)) <==> IdText(s)
  {
    var t := ToLower(s);
    forall i | 0 <= i < |s| ensures Hex(t[i]) <==> HexDigit(s[i]) {
      assert t[i] == LowerChar(s[i]);
    }
    if IdPattern(t) {
      forall i | 0 <= i < |s| ensures HexDigit(s[i]) {
        assert Hex(t[i]);
      }
    }
  }

  /** The first twelve digits, in small letters. */
  predicate IdOf(r: string, s: string) {
    |r| == 12 && |s| >= 12 && forall i :: 0 <= i < 12 ==> r[i] == Small(s[i])
  }

  /** What is kept of a container: the first twelve digits of its identifier in
      small letters, its name without one leading slash, and its legible fields. */
  ghost predicate ContainerOf(c: Container, r: Container) {
    && IdOf(r.id, Trim(c.id)) && r.name == Trim(Unslashed(c.name))
    && IsName(r.image, c.image) && IsDevice(r.state, c.state) && IsName(r.service, c.service)
    && IsName(r.stack, c.stack) && IsName(r.application, c.application) && IsDevice(r.taskSlot, c.taskSlot)
    && Ratio(r.cpuUsedRatio, c.cpuUsedRatio)
    && Nearest(r.cpuUsageSeconds, c.cpuUsageSeconds, 0.0, 4_294_967_295.0)
    && NearestInt(r.restartCount, c.restartCount, 0, 1_048_576)
    && r.startedAt == c.startedAt && r.counters == c.counters
  }

  lemma TextIsKept(c: Container)
    requires CleanContainer(c).Some?
    ensures
      var r := CleanContainer(c).value;
      && IsName(r.image, c.image) && IsDevice(r.state, c.state) && IsName(r.service, c.service)
      && IsName(r.stack, c.stack) && IsName(r.application, c.application) && IsDevice(r.taskSlot, c.taskSlot)
  {
    TrimNameIs(c.image);
    TrimDeviceIs(c.state);
    TrimNameIs(c.service);
    TrimNameIs(c.stack);
    TrimNameIs(c.application);
    TrimDeviceIs(c.taskSlot);
  }

  lemma ShortIdIff(s: string)
    ensures ShortId(s) != "" <==> IdText(Trim(s))
    ensures ShortId(s) != "" ==> IdOf(ShortId(s), Trim(s))
  {
    LowerIsHex(Trim(s));
    var id, r := ToLower(Trim(s)), ShortId(s);
    if r != "" {
      assert r == id[..12];
      forall i | 0 <= i < 12 ensures r[i] == Small(Trim(s)[i]) {
        assert id[i] == LowerChar(Trim(s)[i]);
      }
    }
  }

  lemma SlashIs(s: string)
    ensures WithoutSlash(s) == Unslashed(s)
  {
  }

  lemma NameIff(s: string)
    ensures TrimName(WithoutSlash(s)) == if NameText(Trim(Unslashed(s))) then Trim(Unslashed(s)) else ""
  {
    SlashIs(s);
    TrimNameIs(Unslashed(s));
  }

  /** A container stays exactly if it has an identifier and a name. */
  lemma CleanContainerIff(c: Container)
    ensures CleanContainer(c).Some? <==> IdText(Trim(c.id)) && NameText(Trim(Unslashed(c.name)))
    ensures CleanContainer(c).Some? ==> ContainerOf(c, CleanContainer(c).value)
  {
    ShortIdIff(c.id);
    NameIff(c.name);
    if CleanContainer(c).Some? {
      TextIsKept(c);
      ClampRatioIs(c.cpuUsedRatio);
      ClampFloatIsNearest(c.cpuUsageSeconds, 0.0, 4_294_967_295.0);
      ClampIntIsNearest(c.restartCount, 0, 1_048_576);
    }
  }

  // ----- Lists -----

  ghost predicate Increasing(ids: seq<nat>, n: nat) {
    && (forall j :: 0 <= j < |ids| ==> ids[j] < n)
    && (forall j, k :: 0 <= j < k < |ids| ==> ids[j] < ids[k])
  }

  /** The elements at these places, cleaned, in order. */
  ghost predicate Picks<T(!new)>(s: seq<T>, ids: seq<nat>, clean: T -> Option<T>, out: seq<T>) {
    && |out| == |ids| && Increasing(ids, |s|)
    && forall j :: 0 <= j < |ids| ==> clean(s[ids[j]]) == Some(out[j])
  }

  /** Nothing that could stay is left out before the limit is reached. */
  ghost predicate Complete<T(!new)>(s: seq<T>, ids: seq<nat>, clean: T -> Option<T>, limit: nat) {
    && |ids| <= limit
    && forall i :: 0 <= i < |s| && clean(s[i]).Some? && i !in ids ==>
                     |ids| == limit && forall j :: 0 <= j < |ids| ==> ids[j] < i
  }

  lemma PicksNext<T(!new)>(s: seq<T>, x: T, ids: seq<nat>, clean: T -> Option<T>, out: seq<T>)
    requires Picks(s, ids, clean, out)
    ensures Picks(s + [x], ids, clean, out)
    ensures clean(x).Some? ==> Picks(s + [x], ids + [|s|], clean, out + [clean(x).value])
  {
  }

  lemma {:induction false} KeptPicks<T(!new)>(s: seq<T>, clean: T -> Option<T>) returns (ids: seq<nat>)
    ensures Picks(s, ids, clean, Kept(s, clean))
    ensures forall i :: 0 <= i < |s| && clean(s[i]).Some? ==> i in ids
  {
    if s == [] {
      ids := [];
    } else {
      var front, last := s[..|s| - 1], s[|s| - 1];
      ids := KeptPicks(front, clean);
      assert s == front + [last];
      PicksNext(front, last, ids, clean, Kept(front, clean));
      if clean(last).Some? {
        ids := ids + [|front|];
      }
    }
  }

  lemma PrefixPicks<T(!new)>(s: seq<T>, ids: seq<nat>, clean: T -> Option<T>, out: seq<T>, limit: nat)
    requires Picks(s, ids, clean, out) && forall i :: 0 <= i < |s| && clean(s[i]).Some? ==> i in ids
    ensures Picks(s, First(ids, limit), clean, First(out, limit)) && Complete(s, First(ids, limit), clean, limit)
  {
    var front := First(ids, limit);
    forall i | 0 <= i < |s| && clean(s[i]).Some? && i !in front
      ensures |front| == limit && forall j :: 0 <= j < |front| ==> front[j] < i
    {
      var k :| 0 <= k < |ids| && ids[k] == i;
      assert forall j :: 0 <= j < |front| ==> front[j] == ids[j] && front[j] in front;
    }
  }

  /** Filtering a list keeps the first ones that can stay, as many as the limit
      allows, each cleaned and in order. */
  lemma FilterPicks<T(!new)>(s: seq<T>, limit: nat, clean: T -> Option<T>) returns (ids: seq<nat>)
    ensures Picks(s, ids, clean, First(Kept(s, clean), limit)) && Complete(s, ids, clean, limit)
  {
    var all := KeptPicks(s, clean);
    PrefixPicks(s, all, clean, Kept(s, clean), limit);
    ids := First(all, limit);
  }

  /** Of each list the first valid records stay: 64 filesystems, 32 interfaces, 32
      disks. The time stays unless it is missing or over a minute ahead. */
  lemma DocumentIs(d: Document, now: int, e: Document) returns (f: seq<nat>, i: seq<nat>, k: seq<nat>)
    requires Sanitized(d, now, e)
    ensures Picks(d.filesystems, f, CleanFilesystem, e.filesystems) && Complete(d.filesystems, f, CleanFilesystem, 64)
    ensures Picks(d.interfaces, i, CleanInterface, e.interfaces) && Complete(d.interfaces, i, CleanInterface, 32)
    ensures Picks(d.disks, k, CleanDisk, e.disks) && Complete(d.disks, k, CleanDisk, 32)
    ensures HostOf(d.host, e.host) && e.dockerAvailable == d.dockerAvailable
    ensures e.collectedAt == if d.collectedAt != 0 && d.collectedAt - now <= 60_000_000_000 then d.collectedAt else now
  {
    CleanHostIs(d.host);
    f := FilterPicks(d.filesystems, 64, CleanFilesystem);
    i := FilterPicks(d.interfaces, 32, CleanInterface);
    k := FilterPicks(d.disks, 32, CleanDisk);
  }

  /** Of the containers the first 400 valid ones stay, and the flag says that there
      are so many. */
  lemma ContainersAre(d: Document, now: int, e: Document) returns (ids: seq<nat>, kept: seq<Container>)
    requires Sanitized(d, now, e)
    ensures Picks(d.containers, ids, CleanContainer, kept) && Complete(d.containers, ids, CleanContainer, 400)
    ensures multiset(e.containers) == multiset(kept)
    ensures e.truncated <==> d.truncated || |kept| == 400
  {
    kept := Admitted(d.containers);
    ids := FilterPicks(d.containers, 400, CleanContainer);
  }
}
