/** Protocol version agreement: the relay prints a verdict, the client parses the relay's version back out. */
module Versions {
  import opened Protocol
  import opened Text

  type Version = v: nat | v < 65536

  function MajorVersion(v: Version): nat {
    v / 100
  }

  predicate Compatible(client: Version, server: Version) {
    MajorVersion(client) == MajorVersion(server)
  }

  datatype Verdict = Ok | TooOld(client: Version, server: Version, minSupported: Version) | TooNew(client: Version, server: Version)

  function Check(client: Version, server: Version): Verdict {
    if Compatible(client, server) then Ok
    else if client < server then TooOld(client, server, MajorVersion(server) * 100)
    else TooNew(client, server)
  }

  const NEEDLE: string := "server version "

  function ErrorMessage(v: Verdict): Option<string> {
    match v
    case Ok => None
    case TooOld(c, s, m) =>
      Some("Client version " + Digits(c) + " is incompatible with " + NEEDLE + Digits(s)
           + ". Upgrade the client to version " + Digits(m) + " or newer.")
    case TooNew(c, s) =>
      Some("Client version " + Digits(c) + " is newer than " + NEEDLE + Digits(s)
           + ". Upgrade the server to a compatible build.")
  }

  /** Index of the first occurrence. */
  function Find(s: string, needle: string): Option<nat> {
    if needle <= s then Some(0)
    else if s == [] then None
    else match Find(s[1..], needle) { case Some(i) => Some(i + 1) case None => None }
  }

  function ParseVersion(digits: string): Option<Version>
    requires AllDigits(digits)
  {
    if digits == [] || Value(digits) >= 65536 then None else Some(Value(digits))
  }

  function ParseServerVersion(message: string): Option<Version> {
    match Find(message, NEEDLE)
    case None => None
    case Some(i) =>
      FindInside(message, NEEDLE);
      TakeDigitsAll(message[i + |NEEDLE|..]);
      ParseVersion(TakeDigits(message[i + |NEEDLE|..]))
  }

  lemma {:induction false} FindInside(s: string, needle: string)
    ensures Find(s, needle).Some? ==>
              Find(s, needle).value + |needle| <= |s| && needle <= s[Find(s, needle).value..]
  {
    if !(needle <= s) && s != [] {
      FindInside(s[1..], needle);
    }
  }

  lemma {:induction false} TakeDigitsAll(s: string)
    ensures AllDigits(TakeDigits(s))
  {
    if s != [] && IsDigit(s[0]) {
      TakeDigitsAll(s[1..]);
    }
  }

  /** No occurrence starts inside `before`. */
  lemma {:induction false} FindAfter(before: string, needle: string, rest: string)
    requires forall i :: 0 <= i < |before| ==> !(needle <= (before + needle + rest)[i..])
    ensures Find(before + needle + rest, needle) == Some(|before|)
  {
    var s := before + needle + rest;
    if before == [] {
      assert needle <= s;
    } else {
      assert s == s[0..];
      assert s[1..] == before[1..] + needle + rest;
      forall i | 0 <= i < |before[1..]| ensures !(needle <= s[1..][i..]) {
        assert s[1..][i..] == s[i + 1..];
      }
      FindAfter(before[1..], needle, rest);
    }
  }

  /** Every 's' is followed, still inside the text, by something other than 'e'. */
  ghost predicate NoServer(s: string) {
    forall i :: 0 <= i < |s| && s[i] == 's' ==> i + 1 < |s| && s[i + 1] != 'e'
  }

  lemma NoServerDigits(n: nat)
    ensures NoServer(Digits(n))
  {
    DigitsRoundTrip(n);
    assert forall i :: 0 <= i < |Digits(n)| ==> Digits(n)[i] in Digits(n);
  }

  lemma NoServerHidesNothing(before: string, rest: string)
    requires NoServer(before)
    ensures Find(before + NEEDLE + rest, NEEDLE) == Some(|before|)
  {
    var s := before + NEEDLE + rest;
    forall i | 0 <= i < |before| ensures !(NEEDLE <= s[i..]) {
      assert NEEDLE[0] == 's' && NEEDLE[1] == 'e';
      assert s[i..][0] == before[i] && s[i..][1] == s[i + 1];
    }
    FindAfter(before, NEEDLE, rest);
  }

  lemma ParseAfter(before: string, server: Version, rest: string)
    requires NoServer(before) && rest != [] && !IsDigit(rest[0])
    ensures ParseServerVersion(before + NEEDLE + Digits(server) + rest) == Some(server)
  {
    var tail := Digits(server) + rest;
    var s := before + NEEDLE + tail;
    assert before + NEEDLE + Digits(server) + rest == s;
    NoServerHidesNothing(before, tail);
    assert s[|before| + |NEEDLE|..] == tail;
    DigitsRoundTrip(server);
    TakeDigitsSplit(Digits(server), rest);
  }

  /** The printed message names the client's version first. */
  lemma MessageNamesClient(client: Version, server: Version)
    requires !Compatible(client, server)
    ensures "Client version " + Digits(client) + " is " <= ErrorMessage(Check(client, server)).value
  {
    if client < server {
      OldIsNamed(client, server);
    } else {
      NewIsNamed(client, server);
    }
  }

  lemma OldIsNamed(client: Version, server: Version)
    requires Check(client, server).TooOld?
    ensures "Client version " + Digits(client) + " is " <= ErrorMessage(Check(client, server)).value
  {
    var start, advised := "Client version " + Digits(client), Digits(MajorVersion(server) * 100) + " or newer.";
    var advice := Digits(server) + (". Upgrade the client to version " + advised);
    assert ErrorMessage(Check(client, server)).value == start + " is incompatible with " + (NEEDLE + advice);
    assert " is incompatible with " == " is " + "incompatible with ";
    Prefixed(start, " is ", "incompatible with ", NEEDLE + advice);
  }

  lemma NewIsNamed(client: Version, server: Version)
    requires Check(client, server).TooNew?
    ensures "Client version " + Digits(client) + " is " <= ErrorMessage(Check(client, server)).value
  {
    var start, named := "Client version " + Digits(client), NEEDLE + Digits(server);
    var advice := ". Upgrade the server to a compatible build.";
    assert ErrorMessage(Check(client, server)).value == start + " is newer than " + (named + advice);
    assert " is newer than " == " is " + "newer than ";
    Prefixed(start, " is ", "newer than ", named + advice);
  }

  lemma Prefixed(a: string, b: string, c: string, d: string)
    ensures a + b <= a + (b + c) + d
  {
    assert a + (b + c) + d == (a + b) + (c + d);
  }

  /** An old client's message ends by advising the least version of the relay's major. */
  lemma MessageAdvises(client: Version, server: Version)
    requires client < server && !Compatible(client, server)
    ensures EndsWith(ErrorMessage(Check(client, server)).value, "version " + Digits(server / 100 * 100) + " or newer.")
  {
    var front := "Client version " + Digits(client) + " is incompatible with " + NEEDLE + Digits(server);
    var advice := Digits(server / 100 * 100) + " or newer.";
    assert ". Upgrade the client to version " == ". Upgrade the client to " + "version ";
    assert ErrorMessage(Check(client, server)).value == front + ". Upgrade the client to version " + advice;
    Suffixed(front, ". Upgrade the client to ", "version ", advice);
    assert "version " + Digits(server / 100 * 100) + " or newer." == "version " + advice;
  }

  lemma Suffixed(a: string, b: string, c: string, d: string)
    ensures EndsWith(a + (b + c) + d, c + d)
  {
    assert a + (b + c) + d == (a + b) + (c + d);
  }

  /** What the parser makes of any number behind the words it looks for: itself, unless it does not fit 16 bits; and
      nothing of a text without them, or without a digit behind them. */
  lemma ParseNumbers(digits: string, rest: string, other: string)
    requires AllDigits(digits) && digits != [] && (rest == [] || !IsDigit(rest[0]))
    ensures ParseServerVersion("server version " + digits + rest) ==
              if Value(digits) < 65536 then Some(Value(digits)) else None
    ensures ParseServerVersion("server version " + rest) == None
    ensures (forall i :: 0 <= i <= |other| ==> !("server version " <= other[i..])) ==> ParseServerVersion(other) == None
  {
    assert NEEDLE <= NEEDLE + rest && (NEEDLE + rest)[0 + |NEEDLE|..] == rest;
    var s := NEEDLE + digits + rest;
    assert NEEDLE <= s && s[0 + |NEEDLE|..] == digits + rest;
    TakeDigitsSplit(digits, rest);
    NotFound(other);
  }

  lemma {:induction false} NotFound(s: string)
    ensures (forall i :: 0 <= i <= |s| ==> !("server version " <= s[i..])) ==> Find(s, NEEDLE) == None
  {
    if s != [] && forall i :: 0 <= i <= |s| ==> !("server version " <= s[i..]) {
      assert s[0..] == s && !(NEEDLE <= s[0..]);
      forall i | 0 <= i <= |s[1..]| ensures !("server version " <= s[1..][i..]) {
        assert s[1..][i..] == s[i + 1..];
      }
      NotFound(s[1..]);
    } else if s == [] {
      assert s[0..] == s;
    }
  }

  lemma TooOldParses(client: Version, server: Version)
    requires Check(client, server).TooOld?
    ensures ErrorMessage(Check(client, server)).Some?
    ensures ParseServerVersion(ErrorMessage(Check(client, server)).value) == Some(server)
  {
    NoServerDigits(client);
    var start, middle := "Client version " + Digits(client), " is incompatible with ";
    var rest := ". Upgrade the client to version " + Digits(MajorVersion(server) * 100) + " or newer.";
    assert ErrorMessage(Check(client, server)).value == start + middle + NEEDLE + Digits(server) + rest;
    ParseAfter(start + middle, server, rest);
  }

  lemma TooNewParses(client: Version, server: Version)
    requires Check(client, server).TooNew?
    ensures ErrorMessage(Check(client, server)).Some?
    ensures ParseServerVersion(ErrorMessage(Check(client, server)).value) == Some(server)
  {
    NoServerDigits(client);
    var start, middle := "Client version " + Digits(client), " is newer than ";
    var rest := ". Upgrade the server to a compatible build.";
    assert ErrorMessage(Check(client, server)).value == start + middle + NEEDLE + Digits(server) + rest;
    ParseAfter(start + middle, server, rest);
  }

  /** The client reads back exactly the version the relay printed, for every incompatible pair. */
  lemma ParserInvertsPrinter(client: Version, server: Version)
    ensures ErrorMessage(Check(client, server)).Some? <==> !Compatible(client, server)
    ensures !Compatible(client, server) ==>
              ParseServerVersion(ErrorMessage(Check(client, server)).value) == Some(server)
  {
    if Check(client, server).TooOld? {
      TooOldParses(client, server);
    } else if Check(client, server).TooNew? {
      TooNewParses(client, server);
    }
  }

  /** The verdict names the older side, and the minimum it advises is the least version the relay accepts. */
  lemma VerdictMeaning(client: Version, server: Version)
    ensures Check(client, server).TooOld? <==> MajorVersion(client) < MajorVersion(server)
    ensures Check(client, server).TooNew? <==> MajorVersion(client) > MajorVersion(server)
    ensures Check(client, server).TooOld? ==>
      var least := Check(client, server).minSupported;
      Compatible(least, server) && forall v: Version :: Compatible(v, server) ==> least <= v
  {
  }
}
