/**
 * The text commands ring.py sends to the FHEM telnet port: `<verb> Ring_<name> <payload>`,
 * where `<name>` is the device name with every space removed (setRing, attrRing, srRing),
 * together with Python's `str()` of an integer and a reader for the command grammar that
 * serves as the partner of the formatting functions.
 */
module Fhem {
  import opened Wrappers

  /** The three verbs ring.py uses. */
  datatype Verb = Set | Attr | SetReading

  /** A command split into its three parts. */
  datatype Parsed = Parsed(verb: Verb, target: string, rest: string)

  function VerbWord(v: Verb): (w: string)
    ensures w != [] && ' ' !in w
  {
    match v
    case Set => "set"
    case Attr => "attr"
    case SetReading => "setreading"
  }

  /** Reads a verb back; the inverse of VerbWord. */
  function VerbOf(w: string): (v: Option<Verb>)
    ensures v.Some? ==> VerbWord(v.value) == w
    ensures forall x: Verb :: VerbWord(x) == w ==> v == Some(x)
  {
    if w == "set" then Some(Set)
    else if w == "attr" then Some(Attr)
    else if w == "setreading" then Some(SetReading)
    else None
  }

  /** `name.replace(" ", "")`: every space removed, every other character kept. */
  function Sanitize(name: string): (r: string)
    ensures ' ' !in r
    ensures |r| <= |name|
  {
    if name == [] then []
    else if name[0] == ' ' then Sanitize(name[1..])
    else [name[0]] + Sanitize(name[1..])
  }

  /** The FHEM device a command addresses: `Ring_` plus the sanitised name. */
  function Target(name: string): (t: string)
    ensures ' ' !in t
    ensures |t| >= 5 && t[..5] == "Ring_"
  {
    "Ring_" + Sanitize(name)
  }

  /** The command text of `setRing`, `attrRing` and `srRing` (ring.py). */
  function Command(v: Verb, name: string, payload: string): string
  {
    VerbWord(v) + " " + Target(name) + " " + payload
  }

  /** A `setreading` payload: the reading name, a space, the value. */
  function Reading(name: string, value: string): string
  {
    name + " " + value
  }

  /** Splits at the first space: the word before it and the text after it. */
  function SplitWord(s: string): (r: Option<(string, string)>)
    ensures r.Some? ==> ' ' !in r.value.0 && s == r.value.0 + " " + r.value.1
    ensures r.None? ==> ' ' !in s
  {
    if s == [] then None
    else if s[0] == ' ' then Some(([], s[1..]))
    else
      match SplitWord(s[1..])
      case None => None
      case Some(p) => Some(([s[0]] + p.0, p.1))
  }

  /** The reader's view of a command line: verb, target, rest. */
  function ParseCommand(cmd: string): Option<Parsed>
  {
    match SplitWord(cmd)
    case None => None
    case Some(p) =>
      match VerbOf(p.0)
      case None => None
      case Some(v) =>
        match SplitWord(p.1)
        case None => None
        case Some(q) => Some(Parsed(v, q.0, q.1))
  }

  /** For a `setreading` command: its target and the reading it sets. */
  function ReadingOf(cmd: string): Option<(string, string)>
  {
    match ParseCommand(cmd)
    case None => None
    case Some(p) =>
      if p.verb != SetReading then None
      else
        match SplitWord(p.rest)
        case None => None
        case Some(q) => Some((p.target, q.0))
  }

  /** A word without spaces is exactly what SplitWord cuts off. */
  lemma {:induction false} SplitWordOf(a: string, b: string)
    requires ' ' !in a
    ensures SplitWord(a + " " + b) == Some((a, b))
  {
    if a == [] {
      assert a + " " + b == [' '] + b;
    } else {
      assert (a + " " + b)[1..] == a[1..] + " " + b;
      assert a[0] != ' ';
      SplitWordOf(a[1..], b);
      assert [a[0]] + a[1..] == a;
    }
  }

  /** Every command ring.py formats reads back as its verb, its device target and its payload. */
  lemma CommandRoundTrip(v: Verb, name: string, payload: string)
    ensures ParseCommand(Command(v, name, payload)) == Some(Parsed(v, Target(name), payload))
  {
    var w, t := VerbWord(v), Target(name);
    assert Command(v, name, payload) == w + " " + (t + " " + payload);
    SplitWordOf(w, t + " " + payload);
    SplitWordOf(t, payload);
  }

  /** A `setreading` whose reading name has no space is read as setting that reading on the target. */
  lemma ReadingRoundTrip(name: string, reading: string, value: string)
    requires ' ' !in reading
    ensures ReadingOf(Command(SetReading, name, Reading(reading, value))) == Some((Target(name), reading))
  {
    CommandRoundTrip(SetReading, name, Reading(reading, value));
    SplitWordOf(reading, value);
  }

  /** Removing spaces commutes with concatenation. */
  lemma {:induction false} SanitizeAppend(a: string, b: string)
    ensures Sanitize(a + b) == Sanitize(a) + Sanitize(b)
  {
    if a != [] {
      assert (a + b)[0] == a[0];
      assert (a + b)[1..] == a[1..] + b;
      SanitizeAppend(a[1..], b);
    } else {
      assert a + b == b;
    }
  }

  /** Sanitize drops the spaces and keeps every other character, as often as it occurs. */
  lemma {:induction false} SanitizeKeepsOthers(name: string)
    ensures forall c :: c != ' ' ==> multiset(Sanitize(name))[c] == multiset(name)[c]
  {
    if name != [] {
      SanitizeKeepsOthers(name[1..]);
      assert name == [name[0]] + name[1..];
    }
  }

  /** A name without spaces is left as it is, so Sanitize is idempotent. */
  lemma {:induction false} SanitizeKeeps(name: string)
    requires ' ' !in name
    ensures Sanitize(name) == name
  {
    if name != [] {
      assert name[0] != ' ';
      SanitizeKeeps(name[1..]);
      assert [name[0]] + name[1..] == name;
    }
  }

  function DigitChar(d: nat): (c: char)
    requires d < 10
    ensures '0' <= c <= '9' && c as int - '0' as int == d
  {
    "0123456789"[d]
  }

  /** Python's `str()` of a non-negative integer: its decimal digits. */
  function NatString(n: nat): (s: string)
    ensures s != []
    ensures forall i :: 0 <= i < |s| ==> '0' <= s[i] <= '9'
    ensures s[0] == '0' ==> n == 0
  {
    if n < 10 then [DigitChar(n)] else NatString(n / 10) + [DigitChar(n % 10)]
  }

  /** Python's `str()` of an integer: a minus sign for negatives, then the digits. */
  function IntString(n: int): (s: string)
    ensures s != [] && ' ' !in s
  {
    if n < 0 then "-" + NatString(-n) else NatString(n)
  }

  /** The value of a string of decimal digits. */
  function DigitsValue(s: string): int
  {
    if s == [] then 0 else DigitsValue(s[..|s| - 1]) * 10 + (s[|s| - 1] as int - '0' as int)
  }

  /** The value of `str()` of an integer: a leading minus sign negates the digits after it. */
  function IntValue(s: string): int
  {
    if |s| > 0 && s[0] == '-' then -DigitsValue(s[1..]) else DigitsValue(s)
  }

  /** The digits NatString writes read back as the number. */
  lemma {:induction false} NatStringRoundTrip(n: nat)
    ensures DigitsValue(NatString(n)) == n
  {
    if n >= 10 {
      var s := NatString(n);
      assert s[..|s| - 1] == NatString(n / 10);
      NatStringRoundTrip(n / 10);
    }
  }

  /** `str()` of any integer, negative ones included, reads back as that integer. */
  lemma IntStringRoundTrip(n: int)
    ensures IntValue(IntString(n)) == n
  {
    var m: nat := if n < 0 then -n else n;
    var digits := NatString(m);
    NatStringRoundTrip(m);
    if n < 0 {
      var s := "-" + digits;
      assert s[0] == '-' && s[1..] == digits;
      assert IntValue(s) == -DigitsValue(digits);
    } else {
      assert '0' <= digits[0] <= '9';
      assert IntValue(digits) == DigitsValue(digits);
    }
  }
}
