/** JSON scalars as JSON.stringify writes them, and the parsers that undo it (RFC 8259,
  sections 6 and 7).
*/
module JsonText {
  datatype Option<T> = None | Some(value: T)

  datatype Scan<T> = Scan(value: T, rest: string)

  // ---- Strings ----

  function HexDigit(n: nat): char
    requires n < 16
  {
    if n < 10 then '0' + n as char else 'a' + (n - 10) as char
  }

  function HexValue(c: char): Option<nat> {
    if '0' <= c <= '9' then Some((c - '0') as nat)
    else if 'a' <= c <= 'f' then Some((c - 'a') as nat + 10)
    else None
  }

  /** One character inside a JSON string. */
  function Escape(c: char): (e: string)
    ensures e != "" && e[0] != '"'
  {
    var n := c as nat;
    if c == '"' then "\\\""
    else if c == '\\' then "\\\\"
    else if n == 8 then "\\b"
    else if n == 9 then "\\t"
    else if n == 10 then "\\n"
    else if n == 12 then "\\f"
    else if n == 13 then "\\r"
    else if n < 0x20 then "\\u00" + [HexDigit(n / 16), HexDigit(n % 16)]
    else [c]
  }

  function Body(s: string): string { if s == "" then "" else Escape(s[0]) + Body(s[1..]) }

  function Quote(s: string): string { "\"" + Body(s) + "\"" }

  /** The character at the front of a string body. */
  function ScanChar(s: string): (r: Option<Scan<char>>)
    ensures r.Some? ==> |r.value.rest| < |s|
  {
    if s == "" || s[0] == '"' || s[0] as nat < 0x20 then None
    else if s[0] != '\\' then Some(Scan(s[0], s[1..]))
    else if |s| < 2 then None
    else
      match s[1]
      case '"' => Some(Scan('"', s[2..]))
      case '\\' => Some(Scan('\\', s[2..]))
      case 'b' => Some(Scan(8 as char, s[2..]))
      case 't' => Some(Scan(9 as char, s[2..]))
      case 'n' => Some(Scan(10 as char, s[2..]))
      case 'f' => Some(Scan(12 as char, s[2..]))
      case 'r' => Some(Scan(13 as char, s[2..]))
      case 'u' =>
        if |s| < 6 || s[2] != '0' || s[3] != '0' || HexValue(s[4]).None? || HexValue(s[5]).None? then None
        else Some(Scan((16 * HexValue(s[4]).value + HexValue(s[5]).value) as char, s[6..]))
      case _ => None
  }

  function ScanBody(s: string): (r: Option<Scan<string>>)
    ensures r.Some? ==> |r.value.rest| < |s|
    decreases |s|
  {
    if s == "" then None
    else if s[0] == '"' then Some(Scan("", s[1..]))
    else
      var c := ScanChar(s);
      if c.None? then None
      else
        var more := ScanBody(c.value.rest);
        if more.None? then None else Some(Scan([c.value.value] + more.value.value, more.value.rest))
  }

  lemma HexRoundTrip(n: nat)
    requires n < 16
    ensures HexValue(HexDigit(n)) == Some(n)
  {
  }

  lemma EscapeScans(c: char, rest: string)
    ensures ScanChar(Escape(c) + rest) == Some(Scan(c, rest))
  {
    var n, s := c as nat, Escape(c) + rest;
    assert s[|Escape(c)|..] == rest;
    if n < 0x20 {
      HexRoundTrip(n / 16);
      HexRoundTrip(n % 16);
    }
  }

  /** A quoted string scans back to itself, whatever follows it. */
  lemma {:induction false} BodyScans(s: string, rest: string)
    ensures ScanBody(Body(s) + "\"" + rest) == Some(Scan(s, rest))
    decreases |s|
  {
    if s == "" {
      assert (Body(s) + "\"" + rest)[1..] == rest;
    } else {
      hide Escape, ScanChar;
      var tail := Body(s[1..]) + "\"" + rest;
      var text := Escape(s[0]) + tail;
      assert Body(s) + "\"" + rest == text;
      assert text[0] == Escape(s[0])[0];
      EscapeScans(s[0], tail);
      BodyScans(s[1..], rest);
      assert s == [s[0]] + s[1..];
    }
  }

  // ---- Integers ----

  function Digit(n: nat): char
    requires n < 10
  {
    '0' + n as char
  }

  predicate IsDigit(c: char) { '0' <= c <= '9' }

  function NatText(n: nat): (s: string)
    ensures s != "" && forall i | 0 <= i < |s| :: IsDigit(s[i])
  {
    if n < 10 then [Digit(n)] else NatText(n / 10) + [Digit(n % 10)]
  }

  function NatValue(s: string): nat
    requires forall i | 0 <= i < |s| :: IsDigit(s[i])
  {
    if s == "" then 0 else
      assert IsDigit(s[|s| - 1]);
      10 * NatValue(s[..|s| - 1]) + (s[|s| - 1] - '0') as nat
  }

  lemma {:induction false} NatRoundTrip(n: nat)
    ensures NatValue(NatText(n)) == n
  {
    if n < 10 {
      assert NatText(n)[..0] == "";
    } else {
      NatRoundTrip(n / 10);
      assert NatText(n)[..|NatText(n)| - 1] == NatText(n / 10);
    }
  }

  function IntText(n: int): string { if n < 0 then "-" + NatText(-n) else NatText(n) }

  /** How many digits stand at the front. */
  function DigitsAt(s: string): (k: nat)
    ensures k <= |s| && forall i | 0 <= i < k :: IsDigit(s[i])
  {
    if s == "" || !IsDigit(s[0]) then 0 else 1 + DigitsAt(s[1..])
  }

  predicate NoDigitNext(rest: string) { rest == "" || !IsDigit(rest[0]) }

  lemma {:induction false} DigitsEnd(d: string, rest: string)
    requires NoDigitNext(rest) && forall i | 0 <= i < |d| :: IsDigit(d[i])
    ensures DigitsAt(d + rest) == |d|
  {
    if d == "" {
      assert d + rest == rest;
    } else {
      assert (d + rest)[1..] == d[1..] + rest;
      DigitsEnd(d[1..], rest);
    }
  }

  function ScanNat(s: string): (r: Option<Scan<nat>>)
    ensures r.Some? ==> |r.value.rest| < |s|
  {
    var k := DigitsAt(s);
    if k == 0 then None else Some(Scan(NatValue(s[..k]), s[k..]))
  }

  function ScanInt(s: string): (r: Option<Scan<int>>)
    ensures r.Some? ==> |r.value.rest| < |s|
  {
    if s != "" && s[0] == '-' then
      var n := ScanNat(s[1..]);
      if n.None? then None
      else
        var v: int := n.value.value;
        Some(Scan(-v, n.value.rest))
    else
      var n := ScanNat(s);
      if n.None? then None else Some(Scan(n.value.value, n.value.rest))
  }

  lemma NatScans(n: nat, rest: string)
    requires NoDigitNext(rest)
    ensures ScanNat(NatText(n) + rest) == Some(Scan(n, rest))
  {
    var d := NatText(n);
    DigitsEnd(d, rest);
    NatRoundTrip(n);
    assert (d + rest)[..|d|] == d && (d + rest)[|d|..] == rest;
  }

  lemma NatStarts(n: nat, rest: string)
    ensures IsDigit((NatText(n) + rest)[0]) && (NatText(n) + rest)[0] != '-'
  {
    assert IsDigit(NatText(n)[0]);
  }

  lemma IntScans(n: int, rest: string)
    requires NoDigitNext(rest)
    ensures ScanInt(IntText(n) + rest) == Some(Scan(n, rest))
    ensures IsDigit((IntText(n) + rest)[0]) || (IntText(n) + rest)[0] == '-'
  {
    hide NatText, ScanNat;
    if n < 0 {
      assert (IntText(n) + rest)[1..] == NatText(-n) + rest;
      NatScans(-n, rest);
    } else {
      NatStarts(n, rest);
      NatScans(n, rest);
    }
  }
}
