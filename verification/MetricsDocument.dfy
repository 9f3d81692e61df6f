/** A machine's measurements as they arrive, and what Core makes of each field
    before it believes them. */
module MetricsDocument {
  import opened Basics
  import opened Text

  const MAX_CONTAINERS: nat := 400
  const MAX_MOUNTS: nat := 64
  const MAX_INTERFACES: nat := 32
  const MAX_DISKS: nat := 32
  const MINUTE: int := 60_000_000_000

  datatype Float = NaN | PosInf | NegInf | Finite(value: real)

  /** Counters pass through unread, so they are kept as one list. */
  datatype Host = Host(
    cpuCores: int, cpuUsedRatio: Float, cpuIoWaitRatio: Float, cpuStealRatio: Float,
    load1: Float, load5: Float, load15: Float, counters: seq<nat>)

  datatype Filesystem = Filesystem(mount: string, device: string, fstype: string, counters: seq<nat>)

  datatype Interface = Interface(name: string, counters: seq<nat>)

  datatype Disk = Disk(device: string, counters: seq<nat>)

  datatype Container = Container(
    id: string, name: string, image: string, state: string, service: string, stack: string,
    application: string, taskSlot: string, cpuUsedRatio: Float, cpuUsageSeconds: Float,
    restartCount: int, startedAt: int, counters: seq<nat>)

  datatype Document = Document(
    collectedAt: int, host: Host, filesystems: seq<Filesystem>, interfaces: seq<Interface>,
    disks: seq<Disk>, containers: seq<Container>, truncated: bool, dockerAvailable: bool)

  /** What a Go document holds before anything is put in it. */
  const ZERO_DOCUMENT: Document :=
    Document(0, Host(0, Finite(0.0), Finite(0.0), Finite(0.0), Finite(0.0), Finite(0.0), Finite(0.0), []),
             [], [], [], [], false, false)

  // ----- Fields -----

  predicate NamePattern(s: string) {
    Word(s, Alphanumeric, c => Alphanumeric(c) || c in " ._:/@+-", 127)
  }

  predicate DevicePattern(s: string) {
    Word(s, Alphanumeric, c => Alphanumeric(c) || c in "._:/-", 63)
  }

  /** A slash, then non-empty segments separated by single slashes. */
  predicate PathPattern(s: string) {
    && |s| >= 1 && s[0] == '/'
    && forall i :: 1 <= i < |s| ==> PathCharAt(s, i)
  }

  predicate PathCharAt(s: string, i: nat)
    requires 1 <= i < |s|
  {
    if s[i] == '/' then s[i - 1] != '/' && i < |s| - 1 else Alphanumeric(s[i]) || s[i] in " ._@+:-"
  }

  predicate IdPattern(s: string) {
    12 <= |s| <= 64 && AllOf(s, Hex)
  }

  function TrimName(s: string): string {
    var t := Trim(s);
    if t == "" || !NamePattern(t) then "" else t
  }

  function TrimDevice(s: string): string {
    var t := Trim(s);
    if t == "" || !DevicePattern(t) then "" else t
  }

  function TrimPath(s: string): string {
    var t := Trim(s);
    if t == "" || |t| > 256 || !PathPattern(t) then "" else t
  }

  function LowerChar(c: char): char {
    if Upper(c) then c - 'A' + 'a' else c
  }

  function ToLower(s: string): (r: string)
    ensures |r| == |s| && forall i :: 0 <= i < |s| ==> r[i] == LowerChar(s[i])
  {
    if s == "" then "" else [LowerChar(s[0])] + ToLower(s[1..])
  }

  /** Small letters, and at most the twelve characters Docker shows; "" if it is no identifier. */
  function ShortId(s: string): string {
    var id := ToLower(Trim(s));
    if !IdPattern(id) then "" else if |id| > 12 then id[..12] else id
  }

  function WithoutSlash(s: string): string {
    if s != "" && s[0] == '/' then s[1..] else s
  }

  function ClampRatio(f: Float): Float {
    if !f.Finite? || f.value < 0.0 then Finite(-1.0) else if f.value > 1.0 then Finite(1.0) else f
  }

  function ClampFloat(f: Float, low: real, high: real): Float {
    if !f.Finite? || f.value < low then Finite(low) else if f.value > high then Finite(high) else f
  }

  function ClampInt(n: int, low: int, high: int): int {
    if n < low then low else if n > high then high else n
  }

  // ----- Records; None drops the record -----

  function CleanHost(h: Host): Host {
    Host(ClampInt(h.cpuCores, 0, 4096), ClampRatio(h.cpuUsedRatio), ClampRatio(h.cpuIoWaitRatio),
         ClampRatio(h.cpuStealRatio), ClampFloat(h.load1, 0.0, 100000.0), ClampFloat(h.load5, 0.0, 100000.0),
         ClampFloat(h.load15, 0.0, 100000.0), h.counters)
  }

  function CleanFilesystem(f: Filesystem): Option<Filesystem> {
    var g := Filesystem(TrimPath(f.mount), TrimPath(f.device), TrimDevice(f.fstype), f.counters);
    if g.mount == "" then None else Some(g)
  }

  function CleanInterface(i: Interface): Option<Interface> {
    var j := i.(name := TrimDevice(i.name));
    if j.name == "" then None else Some(j)
  }

  function CleanDisk(d: Disk): Option<Disk> {
    var e := d.(device := TrimDevice(d.device));
    if e.device == "" then None else Some(e)
  }

  function CleanContainer(c: Container): Option<Container> {
    var id := ShortId(c.id);
    var name := TrimName(WithoutSlash(c.name));
    if id == "" || name == "" then None
    else
      Some(Container(
             id, name, TrimName(c.image), TrimDevice(c.state), TrimName(c.service),
             TrimName(c.stack), TrimName(c.application), TrimDevice(c.taskSlot), ClampRatio(c.cpuUsedRatio),
             ClampFloat(c.cpuUsageSeconds, 0.0, 4294967295.0), ClampInt(c.restartCount, 0, 0x10_0000), c.startedAt,
             c.counters))
  }

  // ----- Cleaning twice -----

  lemma TrimNameTwice(s: string)
    ensures TrimName(TrimName(s)) == TrimName(s)
  {
    TrimTwice(s);
  }

  lemma TrimDeviceTwice(s: string)
    ensures TrimDevice(TrimDevice(s)) == TrimDevice(s)
  {
    TrimTwice(s);
  }

  lemma TrimPathTwice(s: string)
    ensures TrimPath(TrimPath(s)) == TrimPath(s)
  {
    TrimTwice(s);
  }

  lemma HexIsStable(c: char)
    requires Hex(c)
    ensures !IsSpace(c) && LowerChar(c) == c
  {
  }

  lemma IdTwice(id: string)
    requires |id| == 12 && AllOf(id, Hex)
    ensures ShortId(id) == id
  {
    assert Trim(id) == id by {
      HexIsStable(id[0]);
      HexIsStable(id[11]);
      TrimIsStable(id);
    }
    assert ToLower(id) == id by {
      forall i | 0 <= i < |id| ensures LowerChar(id[i]) == id[i] {
        HexIsStable(id[i]);
      }
    }
  }

  lemma ShortIdIsShort(s: string)
    requires ShortId(s) != ""
    ensures |ShortId(s)| == 12 && AllOf(ShortId(s), Hex)
  {
  }

  lemma NameHasNoSlash(s: string)
    requires TrimName(s) != ""
    ensures TrimName(s)[0] != '/' && WithoutSlash(TrimName(s)) == TrimName(s)
  {
  }

  /** A container every field of which is as cleaning leaves it. */
  predicate Fixed(c: Container) {
    && |c.id| == 12 && AllOf(c.id, Hex)
    && c.name != "" && c.name[0] != '/' && TrimName(c.name) == c.name
    && TrimName(c.image) == c.image && TrimName(c.service) == c.service
    && TrimName(c.stack) == c.stack && TrimName(c.application) == c.application
    && TrimDevice(c.state) == c.state && TrimDevice(c.taskSlot) == c.taskSlot
    && ClampRatio(c.cpuUsedRatio) == c.cpuUsedRatio
    && ClampFloat(c.cpuUsageSeconds, 0.0, 4294967295.0) == c.cpuUsageSeconds
    && ClampInt(c.restartCount, 0, 0x10_0000) == c.restartCount
  }

  lemma CleanIsNamed(c: Container)
    requires CleanContainer(c).Some?
    ensures
      var d := CleanContainer(c).value;
      && |d.id| == 12 && AllOf(d.id, Hex)
      && d.name != "" && d.name[0] != '/' && TrimName(d.name) == d.name
  {
    ShortIdIsShort(c.id);
    NameHasNoSlash(WithoutSlash(c.name));
    TrimNameTwice(WithoutSlash(c.name));
  }

  lemma CleanIsLegible(c: Container)
    requires CleanContainer(c).Some?
    ensures
      var d := CleanContainer(c).value;
      && TrimName(d.image) == d.image && TrimName(d.service) == d.service
      && TrimName(d.stack) == d.stack && TrimName(d.application) == d.application
      && TrimDevice(d.state) == d.state && TrimDevice(d.taskSlot) == d.taskSlot
  {
    TrimNameTwice(c.image);
    TrimNameTwice(c.service);
    TrimNameTwice(c.stack);
    TrimNameTwice(c.application);
    TrimDeviceTwice(c.state);
    TrimDeviceTwice(c.taskSlot);
  }

  lemma CleanIsFixed(c: Container)
    requires CleanContainer(c).Some?
    ensures Fixed(CleanContainer(c).value)
  {
    CleanIsNamed(c);
    CleanIsLegible(c);
  }

  lemma FixedIsClean(c: Container)
    requires Fixed(c)
    ensures CleanContainer(c) == Some(c)
  {
    IdTwice(c.id);
    NameHasNoSlash(c.name);
  }

  /** Cleaning a cleaned record changes nothing. */
  lemma CleanContainerTwice(c: Container)
    requires CleanContainer(c).Some?
    ensures CleanContainer(CleanContainer(c).value) == CleanContainer(c)
  {
    CleanIsFixed(c);
    FixedIsClean(CleanContainer(c).value);
  }

  lemma CleanFilesystemTwice(f: Filesystem)
    requires CleanFilesystem(f).Some?
    ensures CleanFilesystem(CleanFilesystem(f).value) == CleanFilesystem(f)
  {
    TrimPathTwice(f.mount);
    TrimPathTwice(f.device);
    TrimDeviceTwice(f.fstype);
  }

  lemma CleanInterfaceTwice(i: Interface)
    requires CleanInterface(i).Some?
    ensures CleanInterface(CleanInterface(i).value) == CleanInterface(i)
  {
    TrimDeviceTwice(i.name);
  }

  lemma CleanDiskTwice(d: Disk)
    requires CleanDisk(d).Some?
    ensures CleanDisk(CleanDisk(d).value) == CleanDisk(d)
  {
    TrimDeviceTwice(d.device);
  }
}
