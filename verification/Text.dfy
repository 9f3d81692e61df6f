/** Strings as the Go standard library treats them: white space, cutting at a
    separator, decimal numbers, and the shapes of the repository's name patterns. */
module Text {
  import opened Basics

  // ----- Characters -----

  predicate Digit(c: char) { '0' <= c <= '9' }

  predicate Lower(c: char) { 'a' <= c <= 'z' }

  predicate Upper(c: char) { 'A' <= c <= 'Z' }

  predicate Hex(c: char) { Digit(c) || 'a' <= c <= 'f' }

  predicate LowerOrDigit(c: char) { Lower(c) || Digit(c) }

  predicate Alphanumeric(c: char) { Lower(c) || Upper(c) || Digit(c) }

  /** A first character, then at most `limit` more. */
  predicate Word(s: string, head: char -> bool, tail: char -> bool, limit: nat) {
    1 <= |s| <= limit + 1 && head(s[0]) && forall i :: 1 <= i < |s| ==> tail(s[i])
  }

  predicate AllOf(s: string, allowed: char -> bool) {
    forall i :: 0 <= i < |s| ==> allowed(s[i])
  }

  predicate HasPrefix(s: string, prefix: string) {
    |prefix| <= |s| && s[..|prefix|] == prefix
  }

  // ----- Names in plain terms -----

  predicate SmallLetter(c: char) { 'a' <= c <= 'z' }

  predicate Letter(c: char) { 'a' <= c <= 'z' || 'A' <= c <= 'Z' }

  predicate Numeral(c: char) { '0' <= c <= '9' }

  /** One to `most` letters, digits and marks, the first not a mark. */
  predicate NameOf(s: string, marks: string, most: nat) {
    && 1 <= |s| <= most && (Letter(s[0]) || Numeral(s[0]))
    && forall i :: 0 <= i < |s| ==> Letter(s[i]) || Numeral(s[i]) || s[i] in marks
  }

  /** The same in small letters. */
  predicate SmallNameOf(s: string, marks: string, most: nat) {
    && 1 <= |s| <= most && (SmallLetter(s[0]) || Numeral(s[0]))
    && forall i :: 0 <= i < |s| ==> SmallLetter(s[i]) || Numeral(s[i]) || s[i] in marks
  }

  // ----- White space -----

  predicate IsSpace(c: char) {
    c in "\t\n\U{0b}\U{0c}\r \U{85}\U{a0}\U{1680}\U{2028}\U{2029}\U{202f}\U{205f}\U{3000}" || '\U{2000}' <= c <= '\U{200a}'
  }

  function TrimLeft(s: string): (r: string)
    ensures |r| <= |s| && (r == "" || !IsSpace(r[0]))
    ensures s != "" && !IsSpace(s[0]) ==> r == s
    ensures r != "" ==> r[|r| - 1] == s[|s| - 1]
  {
    if s == "" then "" else if IsSpace(s[0]) then TrimLeft(s[1..]) else s
  }

  function TrimRight(s: string): (r: string)
    ensures r <= s && (r == "" || !IsSpace(r[|r| - 1]))
    ensures s != "" && !IsSpace(s[|s| - 1]) ==> r == s
  {
    if s == "" then "" else if IsSpace(s[|s| - 1]) then TrimRight(s[..|s| - 1]) else s
  }

  function Trim(s: string): (r: string)
    ensures r != "" ==> !IsSpace(r[0]) && !IsSpace(r[|r| - 1])
  {
    TrimRight(TrimLeft(s))
  }

  lemma TrimIsStable(s: string)
    requires s == "" || (!IsSpace(s[0]) && !IsSpace(s[|s| - 1]))
    ensures Trim(s) == s
  {
  }

  lemma TrimTwice(s: string)
    ensures Trim(Trim(s)) == Trim(s)
  {
    TrimIsStable(Trim(s));
  }

  /** s is r between white space. */
  predicate Surrounds(s: string, before: string, r: string, after: string) {
    s == before + r + after && AllOf(before, IsSpace) && AllOf(after, IsSpace)
  }

  lemma HeadGrows(s: string, before: string, t: string, allowed: char -> bool)
    requires s != "" && allowed(s[0]) && s[1..] == before + t && AllOf(before, allowed)
    ensures s == [s[0]] + before + t && AllOf([s[0]] + before, allowed)
  {
  }

  lemma TailGrows(s: string, k: nat, allowed: char -> bool)
    requires k < |s| && allowed(s[|s| - 1]) && AllOf(s[..|s| - 1][k..], allowed)
    ensures AllOf(s[k..], allowed)
  {
    assert s[k..] == s[..|s| - 1][k..] + [s[|s| - 1]];
  }

  lemma {:induction false} TrimLeftIs(s: string) returns (before: string)
    ensures s == before + TrimLeft(s) && AllOf(before, IsSpace)
    decreases |s|
  {
    before := "";
    if s != "" && IsSpace(s[0]) {
      var rest := TrimLeftIs(s[1..]);
      HeadGrows(s, rest, TrimLeft(s), IsSpace);
      before := [s[0]] + rest;
    }
  }

  lemma {:induction false} TrimRightIs(s: string)
    ensures AllOf(s[|TrimRight(s)|..], IsSpace)
    decreases |s|
  {
    if s != "" && IsSpace(s[|s| - 1]) {
      TrimRightIs(s[..|s| - 1]);
      TailGrows(s, |TrimRight(s)|, IsSpace);
    }
  }

  lemma Reassociate(s: string, before: string, t: string, r: string)
    requires s == before + t && r <= t
    ensures s == before + r + t[|r|..]
  {
  }

  /** Trimming takes away white space at both ends and nothing else. */
  lemma TrimIs(s: string) returns (before: string, after: string)
    ensures Surrounds(s, before, Trim(s), after)
  {
    var t := TrimLeft(s);
    before := TrimLeftIs(s);
    TrimRightIs(t);
    Reassociate(s, before, t, TrimRight(t));
    after := t[|TrimRight(t)|..];
  }

  lemma {:induction false} TrimLeftDrops(before: string, t: string)
    requires AllOf(before, IsSpace)
    ensures TrimLeft(before + t) == TrimLeft(t)
    decreases |before|
  {
    if before == "" {
      assert before + t == t;
    } else {
      assert (before + t)[1..] == before[1..] + t;
      TrimLeftDrops(before[1..], t);
    }
  }

  lemma {:induction false} TrimRightDrops(t: string, after: string)
    requires AllOf(after, IsSpace)
    ensures TrimRight(t + after) == TrimRight(t)
    decreases |after|
  {
    if after == "" {
      assert t + after == t;
    } else {
      var n := |after| - 1;
      assert (t + after)[..|t + after| - 1] == t + after[..n];
      TrimRightDrops(t, after[..n]);
    }
  }

  lemma BlankTrims(s: string)
    requires AllOf(s, IsSpace)
    ensures Trim(s) == ""
  {
    TrimLeftDrops(s, "");
    assert s + "" == s;
  }

  lemma CoreTrims(before: string, r: string, after: string)
    requires AllOf(before, IsSpace) && AllOf(after, IsSpace)
    requires r != "" && !IsSpace(r[0]) && !IsSpace(r[|r| - 1])
    ensures Trim(before + (r + after)) == r
  {
    TrimLeftDrops(before, r + after);
    TrimRightDrops(r, after);
  }

  lemma BlankTogether(a: string, b: string, allowed: char -> bool)
    requires AllOf(a, allowed) && AllOf(b, allowed)
    ensures AllOf(a + b, allowed)
  {
  }

  /** And it takes all of that away. */
  lemma TrimIsUnique(s: string, before: string, r: string, after: string)
    requires Surrounds(s, before, r, after) && (r == "" || (!IsSpace(r[0]) && !IsSpace(r[|r| - 1])))
    ensures Trim(s) == r
  {
    if r == "" {
      BlankTogether(before, after, IsSpace);
      assert s == before + after;
      BlankTrims(before + after);
    } else {
      assert s == before + (r + after);
      CoreTrims(before, r, after);
    }
  }

  // ----- Cutting -----

  datatype Cutting = Cutting(before: string, after: string, found: bool)

  function Cut(s: string, separator: char): (r: Cutting)
    ensures r.found <==> separator in s
    ensures r.found ==> s == r.before + [separator] + r.after && separator !in r.before
    ensures !r.found ==> r == Cutting(s, "", false)
  {
    if s == "" then Cutting("", "", false)
    else if s[0] == separator then Cutting("", s[1..], true)
    else
      var r := Cut(s[1..], separator);
      if r.found then Cutting([s[0]] + r.before, r.after, true) else Cutting(s, "", false)
  }

  lemma CutAt(before: string, separator: char, after: string)
    requires separator !in before
    ensures Cut(before + [separator] + after, separator) == Cutting(before, after, true)
  {
    var s := before + [separator] + after;
    assert s[|before|] == separator;
    var r := Cut(s, separator);
    assert s[|r.before|] == separator;
    assert forall i :: 0 <= i < |before| ==> s[i] == before[i] && before[i] in before;
    assert forall i :: 0 <= i < |r.before| ==> s[i] == r.before[i] && r.before[i] in r.before;
    assert |r.before| == |before|;
    assert r.before == s[..|before|] && r.after == s[|before| + 1..];
  }

  // ----- Decimal numbers -----

  function DigitOf(n: nat): char
    requires n < 10
  {
    '0' + n as char
  }

  function Decimal(n: nat): (s: string)
    ensures s != "" && AllOf(s, Digit)
  {
    if n < 10 then [DigitOf(n)] else Decimal(n / 10) + [DigitOf(n % 10)]
  }

  function Value(s: string): nat
    requires AllOf(s, Digit)
  {
    if s == "" then 0 else Value(s[..|s| - 1]) * 10 + (s[|s| - 1] - '0') as nat
  }

  /** `strconv.ParseUint(s, 10, 64)`. */
  function ParseUint(s: string): Option<nat> {
    if s == "" || !AllOf(s, Digit) || Value(s) > MAX_UINT64 then None else Some(Value(s))
  }

  /** No superfluous leading zero. */
  predicate Plain(s: string) {
    s != "" && AllOf(s, Digit) && (|s| > 1 ==> s[0] != '0')
  }

  lemma {:induction false} DecimalReadsBack(n: nat)
    ensures Value(Decimal(n)) == n && Plain(Decimal(n))
    ensures n > 0 ==> Decimal(n)[0] != '0'
  {
    if n >= 10 {
      DecimalReadsBack(n / 10);
      var s := Decimal(n);
      assert s[..|s| - 1] == Decimal(n / 10);
    }
  }

  lemma {:induction false} PlainPrintsBack(s: string)
    requires Plain(s)
    ensures Decimal(Value(s)) == s
    ensures |s| > 1 || s[0] != '0' ==> Value(s) > 0
  {
    if |s| == 1 {
      assert s[..0] == "" && Value(s[..0]) == 0;
      assert s == [s[0]];
    } else {
      var front := s[..|s| - 1];
      PlainPrintsBack(front);
      assert s == front + [s[|s| - 1]];
      var d := (s[|s| - 1] - '0') as nat;
      assert Value(s) == Value(front) * 10 + d && d < 10;
      assert Value(s) / 10 == Value(front) && Value(s) % 10 == d;
    }
  }
}
