/**
 * Reading one edge line: the `readLineIndices` lambda of PR_maker and the
 * part of std::stoul it relies on (base 10, result taken as a natural).
 */
module LineParser {
  import opened Wrappers
  import opened Decimal

  /** Why a data line could not be read. */
  datatype ParseError =
    | NoDigits          // std::stoul finds no digits: std::invalid_argument
    | NegatedValue      // '-' before a non-zero value: stoul negates modulo 2^64 (not modelled)
    | SeparatorPastEnd  // the line ends right after the first number: substr throws std::out_of_range

  /** A converted number and the count of characters std::stoul consumed (its `idx` result). */
  datatype Parsed = Parsed(value: nat, consumed: nat)

  /** The two indices read from a data line. */
  datatype Edge = Edge(first: nat, second: nat)

  /** The characters `isspace` accepts in the "C" locale: ' ', '\t', '\n', '\v', '\f', '\r'. */
  predicate IsSpace(c: char) {
    c == ' ' || '\t' <= c <= '\r'
  }

  /** Length of the longest whitespace prefix of `s` (see SpaceRunIsMaximal). */
  function SpaceRun(s: string): (n: nat)
    ensures n <= |s|
  {
    if |s| > 0 && IsSpace(s[0]) then 1 + SpaceRun(s[1..]) else 0
  }

  /** SpaceRun is a prefix of whitespace that cannot be extended. */
  lemma {:induction false} SpaceRunIsMaximal(s: string)
    ensures forall i :: 0 <= i < SpaceRun(s) ==> IsSpace(s[i])
    ensures SpaceRun(s) < |s| ==> !IsSpace(s[SpaceRun(s)])
  {
    if |s| > 0 && IsSpace(s[0]) {
      SpaceRunIsMaximal(s[1..]);
      assert forall i :: 1 <= i < SpaceRun(s) ==> s[i] == s[1..][i - 1];
    }
  }

  /**
   * std::stoul(s, &idx) in base 10: skip leading whitespace, accept one
   * optional sign, then convert the longest run of digits.
   */
  function Stoul(s: string): Result<Parsed, ParseError> {
    var w := SpaceRun(s);
    var signed := w < |s| && (s[w] == '+' || s[w] == '-');
    var start := if signed then w + 1 else w;
    var n := DigitRun(s[start..]);
    if n == 0 then
      Err(NoDigits)
    else
      var v := DigitsValue(s[start..][..n]);
      if signed && s[w] == '-' && v != 0 then Err(NegatedValue) else Ok(Parsed(v, start + n))
  }

  /**
   * A successful conversion consumes at least one character, ends on a
   * digit and stops before any further digit.
   */
  lemma StoulConsumesDigits(s: string)
    ensures Stoul(s).Ok? ==>
      && 0 < Stoul(s).value.consumed <= |s|
      && IsDigit(s[Stoul(s).value.consumed - 1])
      && (Stoul(s).value.consumed < |s| ==> !IsDigit(s[Stoul(s).value.consumed]))
  {
    var w := SpaceRun(s);
    var signed := w < |s| && (s[w] == '+' || s[w] == '-');
    var start := if signed then w + 1 else w;
    var t := s[start..];
    var n := DigitRun(t);
    if n > 0 {
      DigitRunIsMaximal(t);
      assert t[..n][n - 1] == t[n - 1] == s[start + n - 1];
      assert start + n < |s| ==> t[n] == s[start + n];
    }
  }

  /** On text that starts with a digit, std::stoul converts exactly the leading digit run. */
  lemma StoulOnDigit(s: string)
    requires |s| > 0 && IsDigit(s[0])
    ensures DigitRun(s) > 0
    ensures Stoul(s) == Ok(Parsed(DigitsValue(s[..DigitRun(s)]), DigitRun(s)))
  {
    assert !IsSpace(s[0]) && s[0] != '+' && s[0] != '-';
    assert SpaceRun(s) == 0;
    assert s[0..] == s;
    var n := DigitRun(s);
    assert n > 0;
    var v := DigitsValue(s[..n]);
    assert Stoul(s) == Ok(Parsed(v, n));
  }

  /**
   * readLineIndices: the first index is read from the start of the line;
   * one character after it is dropped unchecked (`substr(++pos)`); the
   * second index is read from the rest. Anything after it is ignored.
   */
  function ReadLineIndices(line: string): Result<Edge, ParseError> {
    match Stoul(line)
    case Err(e) => Err(e)
    case Ok(p) =>
      if p.consumed + 1 > |line| then Err(SeparatorPastEnd)
      else
        match Stoul(line[p.consumed + 1..])
        case Err(e) => Err(e)
        case Ok(q) => Ok(Edge(p.value, q.value))
  }

  /**
   * A line is data when its first character is a digit. An empty line is
   * not: `line[0]` of an empty std::string is the terminating '\0'.
   */
  predicate IsDataLine(line: string) {
    |line| > 0 && IsDigit(line[0])
  }

  /** How readLineIndices treats a data line. */
  lemma DataLineFields(line: string)
    requires IsDataLine(line)
    ensures var n := DigitRun(line);
      && 0 < n
      && (n == |line| ==> ReadLineIndices(line) == Err(SeparatorPastEnd))
      && (n < |line| ==>
            && !IsDigit(line[n])
            && (ReadLineIndices(line).Ok? <==> Stoul(line[n + 1..]).Ok?)
            && (ReadLineIndices(line).Ok? ==>
                  ReadLineIndices(line).value ==
                    Edge(DigitsValue(line[..n]), Stoul(line[n + 1..]).value.value)))
  {
    StoulOnDigit(line);
    DigitRunIsMaximal(line);
  }

  /** Leading whitespace before a digit run is skipped and counted as consumed. */
  lemma {:induction false} StoulSkipsSpace(ws: string, t: string)
    requires forall i :: 0 <= i < |ws| ==> IsSpace(ws[i])
    requires |t| > 0 && IsDigit(t[0])
    ensures Stoul(ws + t) == Ok(Parsed(DigitsValue(t[..DigitRun(t)]), |ws| + DigitRun(t)))
  {
    SpaceRunPrefix(ws, t);
    assert (ws + t)[|ws|..] == t;
    StoulOnDigit(t);
  }

  lemma {:induction false} SpaceRunPrefix(ws: string, t: string)
    requires forall i :: 0 <= i < |ws| ==> IsSpace(ws[i])
    requires t == [] || !IsSpace(t[0])
    ensures SpaceRun(ws + t) == |ws|
  {
    if ws != [] {
      assert (ws + t)[1..] == ws[1..] + t;
      SpaceRunPrefix(ws[1..], t);
    } else {
      assert ws + t == t;
    }
  }

  /** After whitespace and an optional sign, text that does not start with a digit has no number. */
  lemma StoulNoNumber(ws: string, t: string)
    requires forall i :: 0 <= i < |ws| ==> IsSpace(ws[i])
    requires t == [] || !IsSpace(t[0])
    requires var u := if t != [] && (t[0] == '+' || t[0] == '-') then t[1..] else t;
             u == [] || !IsDigit(u[0])
    ensures Stoul(ws + t) == Err(NoDigits)
  {
    SpaceRunPrefix(ws, t);
    assert (ws + t)[|ws|..] == t;
    if t != [] && (t[0] == '+' || t[0] == '-') {
      assert (ws + t)[|ws| + 1..] == t[1..];
    }
  }

  /** Reading printed decimal text gives back the number and consumes all of it. */
  lemma StoulDecimal(n: nat, t: string)
    requires t == [] || !IsDigit(t[0])
    ensures Stoul(NatToDecimal(n) + t) == Ok(Parsed(n, |NatToDecimal(n)|))
  {
    DigitRunOfDecimal(n, t);
    DecimalRoundTrip(n);
    StoulOnDigit(NatToDecimal(n) + t);
  }
}
