/** The one-time secret of a machine's first handshake. */
module Enrollment {

  const MAX_ATTEMPTS: nat := 10
  const MIN_SECRET: nat := 16

  type Byte = x: int | 0 <= x < 256

  /** An enrollment by value; a spent one holds no secret. */
  datatype Window = Window(attempts: nat, secret: seq<Byte>, spent: bool)

  datatype Admission = Disabled | Refused | Open(window: Window)

  /** No secret means no enrollment, and a short one is refused. */
  function Admit(secret: seq<Byte>): Admission {
    if |secret| == 0 then Disabled
    else if |secret| < MIN_SECRET then Refused
    else Open(Window(0, secret, false))
  }

  predicate Accepts(w: Window, presented: seq<Byte>) {
    !w.spent && presented != [] && presented == w.secret
  }

  function AfterExchange(w: Window, presented: seq<Byte>): Window {
    if w.spent || presented == [] then w
    else if presented == w.secret then Window(w.attempts, [], true)
    else if w.attempts + 1 >= MAX_ATTEMPTS then Window(w.attempts + 1, [], true)
    else w.(attempts := w.attempts + 1)
  }

  /** The object behind an open window, with the secret's file on disk. Whether
      the file can be removed is up to the system; a failure is ignored. */
  class Exchanger {
    const file: string
    var attempts: nat
    var secret: array?<Byte>
    var spent: bool
    var onDisk: bool

    ghost predicate Valid()
      reads this
    {
      secret == null <==> spent
    }

    ghost function View(): Window
      requires Valid()
      reads this, secret
    {
      Window(attempts, if secret == null then [] else secret[..], spent)
    }

    constructor (given: array<Byte>, file: string)
      requires given.Length >= MIN_SECRET
      ensures Valid() && fresh(secret) && Open(View()) == Admit(given[..])
      ensures this.file == file && onDisk == (file != "")
    {
      this.file := file;
      attempts, spent, onDisk := 0, false, file != "";
      secret := new Byte[given.Length](i requires 0 <= i < given.Length reads given => given[i]);
    }

    /** Burning overwrites the secret's bytes before letting go of them, and removes
        the file. */
    method Exchange(presented: seq<Byte>, removable: bool) returns (accepted: bool)
      requires Valid()
      modifies this, secret
      ensures Valid() && View() == AfterExchange(old(View()), presented)
      ensures accepted == Accepts(old(View()), presented)
      ensures spent && !old(spent) ==> forall i | 0 <= i < old(secret).Length :: old(secret)[i] == 0
      ensures onDisk == (old(onDisk) && !(spent && !old(spent) && file != "" && removable))
    {
      if spent || |presented| == 0 {
        return false;
      }
      if presented != secret[..] {
        attempts := attempts + 1;
        if attempts >= MAX_ATTEMPTS {
          Burn(removable);
        }
        return false;
      }
      Burn(removable);
      return true;
    }

    method Burn(removable: bool)
      requires secret != null
      modifies this, secret
      ensures spent && secret == null && attempts == old(attempts)
      ensures forall i | 0 <= i < old(secret).Length :: old(secret)[i] == 0
      ensures onDisk == (old(onDisk) && !(file != "" && removable))
    {
      spent := true;
      var bytes := secret;
      for i := 0 to bytes.Length
        modifies bytes
        invariant forall k | 0 <= k < i :: bytes[k] == 0
      {
        bytes[i] := 0;
      }
      secret := null;
      if file != "" && removable {
        onDisk := false;
      }
    }

    method Available() returns (available: bool)
      requires Valid()
      ensures available == !View().spent
    {
      return !spent;
    }
  }

  /** Without a secret there is nothing to enroll with, and a short one is an error;
      otherwise the window opens on a copy of the secret. */
  method NewEnrollment(given: array<Byte>, file: string) returns (refused: bool, made: Exchanger?)
    ensures refused <==> 1 <= given.Length < 16
    ensures made != null <==> given.Length >= 16
    ensures made != null ==> fresh(made) && made.Valid() && fresh(made.secret) && made.file == file
    ensures made != null ==> made.View() == Window(0, given[..], false) && Admit(given[..]) == Open(made.View())
  {
    if given.Length == 0 {
      return false, null;
    }
    if given.Length < MIN_SECRET {
      return true, null;
    }
    made := new Exchanger(given, file);
    return false, made;
  }

  // ----- Runs of calls -----

  function After(w: Window, calls: seq<seq<Byte>>): Window {
    if calls == [] then w else AfterExchange(After(w, calls[..|calls| - 1]), calls[|calls| - 1])
  }

  /** The wrong guesses among the calls; an empty one is not a guess. */
  function Wrong(calls: seq<seq<Byte>>, secret: seq<Byte>): nat {
    if calls == [] then 0
    else
      var last := calls[|calls| - 1];
      Wrong(calls[..|calls| - 1], secret) + if last != [] && last != secret then 1 else 0
  }

  /** How the window stands, told from the calls alone. */
  lemma {:induction false} WindowTellsTheCalls(secret: seq<Byte>, calls: seq<seq<Byte>>)
    requires Admit(secret).Open?
    ensures
      var w := After(Admit(secret).window, calls);
      && (w.spent <==> secret in calls || Wrong(calls, secret) >= MAX_ATTEMPTS)
      && w.secret == (if w.spent then [] else secret)
      && (!w.spent ==> w.attempts == Wrong(calls, secret))
  {
    if calls != [] {
      var before, last := calls[..|calls| - 1], calls[|calls| - 1];
      assert calls == before + [last];
      WindowTellsTheCalls(secret, before);
    }
  }

  /** A call succeeds exactly when it presents the secret, no earlier call did,
      and fewer than ten wrong guesses came before it. */
  lemma SucceedsIff(secret: seq<Byte>, calls: seq<seq<Byte>>, k: nat)
    requires Admit(secret).Open? && k < |calls|
    ensures Accepts(After(Admit(secret).window, calls[..k]), calls[k]) <==>
            calls[k] == secret && secret !in calls[..k] && Wrong(calls[..k], secret) < 10
  {
    WindowTellsTheCalls(secret, calls[..k]);
  }

  /** Of all the calls ever made, one succeeds at most. */
  lemma AtMostOneSucceeds(secret: seq<Byte>, calls: seq<seq<Byte>>, k: nat, l: nat)
    requires Admit(secret).Open? && k < |calls| && l < |calls|
    requires Accepts(After(Admit(secret).window, calls[..k]), calls[k])
    requires Accepts(After(Admit(secret).window, calls[..l]), calls[l])
    ensures k == l
  {
    assert forall x, y | 0 <= x < y <= |calls| :: calls[x] in calls[..y];
    SucceedsIff(secret, calls, k);
    SucceedsIff(secret, calls, l);
  }

  /** Once spent the secret is gone for good and every later call fails. */
  lemma {:induction false} SpentStaysSpent(w: Window, calls: seq<seq<Byte>>, presented: seq<Byte>)
    requires w.spent
    ensures After(w, calls) == w && !Accepts(After(w, calls), presented)
  {
    if calls != [] {
      SpentStaysSpent(w, calls[..|calls| - 1], presented);
    }
  }
}
