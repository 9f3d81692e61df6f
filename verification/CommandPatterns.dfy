/** The name patterns in plain terms: ranges of characters, numbers as they are
    printed, and words put together from parts. */
module CommandPatterns {
  import opened Basics
  import opened Text
  import opened Command

  // ----- Names in plain terms -----

  lemma ReferenceIff(s: string)
    ensures Reference(s) <==> NameOf(s, "._:-", 128)
  {
  }

  lemma ResourceNameIff(s: string)
    ensures ResourceName(s) <==> NameOf(s, "_.-", 63)
  {
  }

  lemma StackNameIff(s: string)
    ensures StackName(s) <==> SmallNameOf(s, "_-", 63)
  {
  }

  lemma LabelKeyIff(s: string)
    ensures LabelKey(s) <==> NameOf(s, "_./-", 63)
  {
  }

  lemma LabelValueIff(s: string)
    ensures LabelValue(s) <==> NameOf(s, "_.:/@ -", 128)
  {
  }

  // ----- Numbers in plain terms -----

  lemma {:induction false} LeadingDigitBounds(s: string)
    requires s != "" && AllOf(s, Digit) && (s[0] != '0')
    ensures 1 <= Value(s)
  {
    if |s| > 1 {
      assert s[..|s| - 1][0] == s[0];
      LeadingDigitBounds(s[..|s| - 1]);
    }
  }

  lemma {:induction false} ValueBound(s: string, limit: nat, bound: nat)
    requires AllOf(s, Digit) && |s| <= limit && bound == Ten(limit)
    ensures Value(s) < bound
    decreases limit
  {
    if s == "" {
      TenIsPositive(limit);
    } else {
      ValueBound(s[..|s| - 1], limit - 1, Ten(limit - 1));
    }
  }

  function Ten(n: nat): nat {
    if n == 0 then 1 else 10 * Ten(n - 1)
  }

  lemma {:induction false} TenIsPositive(n: nat)
    ensures Ten(n) >= 1
  {
    if n > 0 {
      TenIsPositive(n - 1);
    }
  }

  lemma {:induction false} DecimalLength(n: nat, digits: nat)
    requires 1 <= digits && n < Ten(digits)
    ensures |Decimal(n)| <= digits
    decreases digits
  {
    if n >= 10 {
      assert digits > 1;
      DecimalLength(n / 10, digits - 1);
    }
  }

  predicate Positive(s: string, n: nat) {
    1 <= n && s == Decimal(n)
  }

  /** Digits without a leading zero are the number they spell. */
  lemma PositiveIff(s: string)
    ensures (s != "" && AllOf(s, Digit) && s[0] != '0') <==> exists n: nat :: Positive(s, n)
  {
    if s != "" && AllOf(s, Digit) && s[0] != '0' {
      LeadingDigitBounds(s);
      PlainPrintsBack(s);
      assert Positive(s, Value(s));
    }
    forall n: nat | Positive(s, n) ensures s != "" && AllOf(s, Digit) && s[0] != '0' {
      DecimalReadsBack(n);
    }
  }

  lemma ShortPositiveIff(s: string, digits: nat)
    requires digits >= 1
    ensures Word(s, c => '1' <= c <= '9', Digit, digits - 1) <==> exists n: nat :: Positive(s, n) && n < Ten(digits)
  {
    PositiveIff(s);
    if Word(s, c => '1' <= c <= '9', Digit, digits - 1) {
      assert forall i :: 0 <= i < |s| ==> Digit(s[i]);
      var n: nat :| Positive(s, n);
      ValueBound(s, digits, Ten(digits));
      DecimalReadsBack(n);
      assert Positive(s, n) && n < Ten(digits);
    }
    forall n: nat | Positive(s, n) && n < Ten(digits) ensures Word(s, c => '1' <= c <= '9', Digit, digits - 1) {
      DecimalReadsBack(n);
      DecimalLength(n, digits);
    }
  }

  predicate Amount(s: string, n: nat) {
    1 <= n <= 999_999 && (s == Decimal(n) + ['M'] || s == Decimal(n) + ['G'])
  }

  lemma TenPowers()
    ensures Ten(2) == 100 && Ten(6) == 1_000_000
  {
    assert Ten(3) == 1000;
  }

  lemma AmountIsMemory(s: string, n: nat)
    requires Amount(s, n)
    ensures MemoryLimit(s)
  {
    TenPowers();
    assert s[..|s| - 1] == Decimal(n) && Positive(Decimal(n), n);
    ShortPositiveIff(Decimal(n), 6);
  }

  /** One to 999999 megabytes or gigabytes. */
  lemma MemoryLimitIff(s: string)
    ensures MemoryLimit(s) <==> exists n: nat :: Amount(s, n)
  {
    if MemoryLimit(s) {
      TenPowers();
      var number, unit := s[..|s| - 1], s[|s| - 1];
      ShortPositiveIff(number, 6);
      var n: nat :| Positive(number, n) && n < Ten(6);
      assert s == number + [unit];
      assert Amount(s, n);
    }
    forall n: nat | Amount(s, n) ensures MemoryLimit(s) {
      AmountIsMemory(s, n);
    }
  }

  predicate Fraction(f: string) {
    1 <= |f| <= 3 && forall i :: 0 <= i < |f| ==> Numeral(f[i])
  }

  predicate Whole(s: string, n: nat) {
    n < 100 && s == Decimal(n)
  }

  lemma WholePartIff(s: string)
    ensures s == "0" || Word(s, c => '1' <= c <= '9', Digit, 1) <==> exists n: nat :: Whole(s, n)
  {
    ShortPositiveIff(s, 2);
    TenPowers();
    assert Decimal(0) == "0";
    if s == "0" {
      assert Whole(s, 0);
    } else if Word(s, c => '1' <= c <= '9', Digit, 1) {
      var n: nat :| Positive(s, n) && n < Ten(2);
      assert Whole(s, n);
    }
    forall n: nat | Whole(s, n) ensures s == "0" || Word(s, c => '1' <= c <= '9', Digit, 1) {
      if n > 0 {
        assert Positive(s, n);
      }
    }
  }

  predicate CoresOf(s: string, n: nat, f: string) {
    n < 100 && (s == Decimal(n) || (Fraction(f) && s == Decimal(n) + ['.'] + f))
  }

  lemma CoresAreCpu(s: string, n: nat, f: string)
    requires CoresOf(s, n, f)
    ensures CpuLimit(s)
  {
    var cut := Cut(s, '.');
    NoPoint(n);
    assert Whole(Decimal(n), n);
    WholePartIff(Decimal(n));
    if s != Decimal(n) {
      CutAt(Decimal(n), '.', f);
    }
  }

  /** A number below a hundred, with up to three decimals. */
  lemma CpuLimitIff(s: string)
    ensures CpuLimit(s) <==> exists n: nat, f :: CoresOf(s, n, f)
  {
    if CpuLimit(s) {
      var cut := Cut(s, '.');
      WholePartIff(cut.before);
      var n: nat :| Whole(cut.before, n);
      assert CoresOf(s, n, cut.after);
    }
    forall n: nat, f | CoresOf(s, n, f) ensures CpuLimit(s) {
      CoresAreCpu(s, n, f);
    }
  }

  lemma TwoDigits(c: char, d: char)
    requires Digit(c) && Digit(d)
    ensures Value([c, d]) == (c - '0') as nat * 10 + (d - '0') as nat
  {
    assert [c, d][..1] == [c] && [c][..0] == "";
    assert Value([c]) == (c - '0') as nat;
  }

  lemma NoPoint(n: nat)
    ensures '.' !in Decimal(n)
  {
    assert AllOf(Decimal(n), Digit);
  }

  // ----- Versioned names -----

  predicate Version(s: string, n: nat) {
    1 <= n && s == "_v" + Decimal(n)
  }

  /** A version is a positive number. */
  lemma VersionIff(s: string)
    ensures VersionSuffix(s) <==> exists n: nat :: Version(s, n)
  {
    if VersionSuffix(s) {
      var number := s[2..];
      assert forall i :: 0 <= i < |number| ==> Digit(number[i]);
      PositiveIff(number);
      var n: nat :| Positive(number, n);
      assert s == s[..2] + number;
      assert Version(s, n);
    }
    forall n: nat | Version(s, n) ensures VersionSuffix(s) {
      assert s[..2] == "_v" && s[2..] == Decimal(n);
      DecimalReadsBack(n);
    }
  }

  /** `prefix`, `name` and a version, in one word. */
  predicate Spelled(s: string, prefix: string, name: string, n: nat) {
    1 <= n && s == prefix + name + ("_v" + Decimal(n))
  }

  lemma SpelledCuts(s: string, prefix: string, name: string, n: nat)
    requires Spelled(s, prefix, name, n)
    ensures s[..|prefix|] == prefix && s[|prefix|..|prefix + name|] == name && Version(s[|prefix + name|..], n)
  {
  }

  lemma FixedVersionedIff(s: string, prefix: string)
    ensures FixedVersioned(s, prefix) <==> exists n: nat :: Spelled(s, prefix, "", n)
  {
    if FixedVersioned(s, prefix) {
      VersionIff(s[|prefix|..]);
      var n: nat :| Version(s[|prefix|..], n);
      assert s == s[..|prefix|] + s[|prefix|..] && prefix + "" == prefix;
      assert Spelled(s, prefix, "", n);
    }
    forall n: nat | Spelled(s, prefix, "", n) ensures FixedVersioned(s, prefix) {
      SpelledCuts(s, prefix, "", n);
      assert prefix + "" == prefix;
      VersionIff(s[|prefix|..]);
    }
  }

  lemma InThree(s: string, i: nat, j: nat)
    requires i <= j <= |s|
    ensures s == s[..i] + s[i..j] + s[j..]
  {
  }

  lemma VersionedIsSpelled(s: string, prefix: string, limit: nat) returns (name: string, n: nat)
    requires Versioned(s, prefix, limit)
    ensures SmallNameOf(name, "_", limit + 1) && Spelled(s, prefix, name, n)
  {
    var k :| |prefix| <= k <= |s| && VersionedAt(s, |prefix|, limit, k);
    VersionIff(s[k..]);
    n :| Version(s[k..], n);
    name := s[|prefix|..k];
    InThree(s, |prefix|, k);
  }

  lemma SpelledIsVersioned(s: string, prefix: string, limit: nat, name: string, n: nat)
    requires SmallNameOf(name, "_", limit + 1) && Spelled(s, prefix, name, n)
    ensures Versioned(s, prefix, limit)
  {
    SpelledCuts(s, prefix, name, n);
    VersionIff(s[|prefix + name|..]);
    assert VersionedAt(s, |prefix|, limit, |prefix + name|);
  }

  lemma VersionedIff(s: string, prefix: string, limit: nat)
    ensures Versioned(s, prefix, limit) <==>
            exists name, n: nat :: SmallNameOf(name, "_", limit + 1) && Spelled(s, prefix, name, n)
  {
    if Versioned(s, prefix, limit) {
      var name, n := VersionedIsSpelled(s, prefix, limit);
    }
    forall name, n: nat | SmallNameOf(name, "_", limit + 1) && Spelled(s, prefix, name, n)
      ensures Versioned(s, prefix, limit)
    {
      SpelledIsVersioned(s, prefix, limit, name, n);
    }
  }

  lemma ConnectionIsSpelled(s: string, middle: string) returns (name: string, n: nat)
    requires ConnectionSecret(s, middle)
    ensures SmallNameOf(name, "_-", 81) && Spelled(s, name, middle, n)
  {
    var k :| 0 <= k <= |s| && ConnectionAt(s, middle, k);
    name := s[..k];
    FixedVersionedIff(s[k..], middle);
    n :| Spelled(s[k..], middle, "", n);
    AppendedTail(s, k, middle, "_v" + Decimal(n));
  }

  lemma AppendedTail(s: string, k: nat, middle: string, tail: string)
    requires k <= |s| && s[k..] == middle + "" + tail
    ensures s == s[..k] + middle + tail
  {
    assert middle + "" == middle;
    assert s == s[..k] + s[k..];
  }

  lemma SpelledIsConnection(s: string, middle: string, name: string, n: nat)
    requires SmallNameOf(name, "_-", 81) && Spelled(s, name, middle, n)
    ensures ConnectionSecret(s, middle)
  {
    assert s[|name|..] == middle + ("_v" + Decimal(n)) && middle + "" == middle && s[..|name|] == name;
    assert Spelled(s[|name|..], middle, "", n);
    FixedVersionedIff(s[|name|..], middle);
    assert ConnectionAt(s, middle, |name|);
  }

  lemma ConnectionSecretIff(s: string, middle: string)
    ensures ConnectionSecret(s, middle) <==>
            exists name, n: nat :: SmallNameOf(name, "_-", 81) && Spelled(s, name, middle, n)
  {
    if ConnectionSecret(s, middle) {
      var name, n := ConnectionIsSpelled(s, middle);
    }
    forall name, n: nat | SmallNameOf(name, "_-", 81) && Spelled(s, name, middle, n) ensures ConnectionSecret(s, middle) {
      SpelledIsConnection(s, middle, name, n);
    }
  }

  /** The secrets Core may create: its own, a DNS provider's, the dashboard's, and an
      application's connection to a managed database. */
  ghost predicate SecretName(s: string) {
    || (exists name :: SmallNameOf(name, "_", 55) && s == "swarmops_" + name)
    || (exists name, n: nat :: SmallNameOf(name, "_", 73) && Spelled(s, "traefik_dns_", name, n))
    || (exists n: nat :: Spelled(s, "traefik_dashboard_auth", "", n))
    || (exists name, n: nat :: SmallNameOf(name, "_-", 81) && Spelled(s, name, "_postgres_uri", n))
    || (exists name, n: nat :: SmallNameOf(name, "_-", 81) && Spelled(s, name, "_mongo_uri", n))
    || (exists name, n: nat :: SmallNameOf(name, "_-", 81) && Spelled(s, name, "_redis_uri", n))
  }

  lemma OwnSecretIff(s: string)
    ensures (HasPrefix(s, "swarmops_") && Word(s[9..], LowerOrDigit, c => LowerOrDigit(c) || c == '_', 54)) <==>
            exists name :: SmallNameOf(name, "_", 55) && s == "swarmops_" + name
  {
    if HasPrefix(s, "swarmops_") && Word(s[9..], LowerOrDigit, c => LowerOrDigit(c) || c == '_', 54) {
      assert s == s[..9] + s[9..];
      assert SmallNameOf(s[9..], "_", 55) && s == "swarmops_" + s[9..];
    }
    forall name | SmallNameOf(name, "_", 55) && s == "swarmops_" + name
      ensures HasPrefix(s, "swarmops_") && Word(s[9..], LowerOrDigit, c => LowerOrDigit(c) || c == '_', 54)
    {
      assert s[..9] == "swarmops_" && s[9..] == name;
    }
  }

  lemma SecretNameIff(s: string)
    ensures ManagedSecret(s) <==> SecretName(s)
  {
    OwnSecretIff(s);
    VersionedIff(s, "traefik_dns_", 72);
    FixedVersionedIff(s, "traefik_dashboard_auth");
    ConnectionSecretIff(s, "_postgres_uri");
    ConnectionSecretIff(s, "_mongo_uri");
    ConnectionSecretIff(s, "_redis_uri");
  }

  // ----- Images -----

  function Joined(segments: seq<string>): string
    requires segments != []
  {
    if |segments| == 1 then segments[0] else segments[0] + (['/'] + Joined(segments[1..]))
  }

  /** Begins and ends with a small letter or digit, with marks between. */
  predicate Segment(s: string, marks: string) {
    && s != "" && (SmallLetter(s[0]) || Numeral(s[0])) && (SmallLetter(s[|s| - 1]) || Numeral(s[|s| - 1]))
    && forall i :: 0 <= i < |s| ==> SmallLetter(s[i]) || Numeral(s[i]) || s[i] in marks
  }

  predicate Path(segments: seq<string>) {
    segments != [] && forall i :: 0 <= i < |segments| ==> Segment(segments[i], "._-")
  }

  lemma SegmentIff(s: string)
    ensures PlainSegment(s) <==> Segment(s, "._-")
    ensures FirstSegment(s) <==> Segment(s, "._:-")
  {
  }

  lemma {:induction false} PathIsRead(segments: seq<string>)
    requires Path(segments)
    ensures ImagePath(Joined(segments))
    decreases |segments|
  {
    var s := Joined(segments);
    assert Segment(segments[0], "._-");
    SegmentIff(segments[0]);
    if |segments| > 1 {
      var k := |segments[0]|;
      PathIsRead(segments[1..]);
      assert s[k] == '/' && s[..k] == segments[0] && s[k + 1..] == Joined(segments[1..]);
      assert PathAt(s, k);
    }
  }

  lemma {:induction false} PathIsWritten(s: string) returns (segments: seq<string>)
    requires ImagePath(s)
    ensures Path(segments) && s == Joined(segments)
    decreases |s|
  {
    if PlainSegment(s) {
      SegmentIff(s);
      segments := [s];
    } else {
      var k :| 0 < k < |s| && PathAt(s, k);
      SegmentIff(s[..k]);
      var rest := PathIsWritten(s[k + 1..]);
      segments := [s[..k]] + rest;
      assert segments[1..] == rest;
      SlashAt(s, k);
    }
  }

  lemma SlashAt(s: string, k: nat)
    requires k < |s| && s[k] == '/'
    ensures s == s[..k] + (['/'] + s[k + 1..])
  {
  }

  /** A registry, which may have a port, or the first segment; then a path. */
  predicate Repository(name: string, first: string, path: seq<string>) {
    && Segment(first, "._:-") && (path == [] || Path(path))
    && name == if path == [] then first else first + (['/'] + Joined(path))
  }

  lemma NameIsRepository(s: string) returns (first: string, path: seq<string>)
    requires ImageName(s)
    ensures Repository(s, first, path)
  {
    if FirstSegment(s) {
      SegmentIff(s);
      first, path := s, [];
    } else {
      var k :| 0 < k < |s| && NameAt(s, k);
      SegmentIff(s[..k]);
      first := s[..k];
      path := PathIsWritten(s[k + 1..]);
      SlashAt(s, k);
    }
  }

  lemma RepositoryIsName(s: string, first: string, path: seq<string>)
    requires Repository(s, first, path)
    ensures ImageName(s)
  {
    SegmentIff(first);
    if path != [] {
      PathIsRead(path);
      var k := |first|;
      assert s[k] == '/' && s[..k] == first && s[k + 1..] == Joined(path);
      assert NameAt(s, k);
    }
  }

  predicate Tag(s: string) {
    s == "" || (s[0] == ':' && NameOf(s[1..], "._-", 128))
  }

  predicate Digest(s: string) {
    s == "" || (HasPrefix(s, "@sha256:") && |s| == 72 && forall i :: 8 <= i < 72 ==> Numeral(s[i]) || 'a' <= s[i] <= 'f')
  }

  /** A repository, perhaps a tag, perhaps a digest. */
  ghost predicate Image(s: string, first: string, path: seq<string>, tag: string, digest: string) {
    exists name :: Repository(name, first, path) && Tag(tag) && Digest(digest) && s == name + tag + digest
  }

  lemma TagIff(s: string)
    ensures ImageTag(s) <==> Tag(s)
  {
  }

  lemma DigestIff(s: string)
    ensures ImageDigest(s) <==> Digest(s)
  {
    if Digest(s) && s != "" {
      assert forall i :: 0 <= i < 64 ==> s[8..][i] == s[i + 8];
    }
    if ImageDigest(s) && s != "" {
      assert forall i :: 8 <= i < 72 ==> s[i] == s[8..][i - 8];
    }
  }

  lemma RefIsImage(s: string) returns (first: string, path: seq<string>, tag: string, digest: string)
    requires ImageRef(s)
    ensures Image(s, first, path, tag, digest)
  {
    var i :| 0 <= i <= |s| && DigestAt(s, i);
    var tagged := s[..i];
    var j :| 0 <= j <= |tagged| && TagAt(tagged, j);
    var name := tagged[..j];
    tag, digest := tagged[j..], s[i..];
    first, path := NameIsRepository(name);
    TagIff(tagged[j..]);
    DigestIff(s[i..]);
    Halves(tagged, j);
    Halves(s, i);
    assert Repository(name, first, path) && Tag(tag) && Digest(digest) && s == name + tag + digest;
  }

  lemma Halves(s: string, i: nat)
    requires i <= |s|
    ensures s == s[..i] + s[i..]
  {
  }

  lemma ImageIsRef(s: string, first: string, path: seq<string>, tag: string, digest: string)
    requires Image(s, first, path, tag, digest)
    ensures ImageRef(s)
  {
    var name :| Repository(name, first, path) && Tag(tag) && Digest(digest) && s == name + tag + digest;
    RepositoryIsName(name, first, path);
    TagIff(tag);
    DigestIff(digest);
    var tagged := name + tag;
    assert s[|tagged|..] == digest && s[..|tagged|] == tagged && tagged[|name|..] == tag && tagged[..|name|] == name;
    assert TagAt(tagged, |name|);
    assert DigestAt(s, |tagged|);
  }

  lemma ImageIff(s: string)
    ensures ImageRef(s) <==> exists first, path, tag, digest :: Image(s, first, path, tag, digest)
  {
    if ImageRef(s) {
      var first, path, tag, digest := RefIsImage(s);
    }
    forall first, path, tag, digest | Image(s, first, path, tag, digest) ensures ImageRef(s) {
      ImageIsRef(s, first, path, tag, digest);
    }
  }
}
