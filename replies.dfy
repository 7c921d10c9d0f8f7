/**
 * Decoding what the controller answers: `parseReply`'s acknowledgement
 * grammar, the readings `getAxisStatus`, `getEncoderVal` and
 * `getPositionVal` take from a reply, and the status word `poll` turns
 * into "moving".
 */
module Replies {
  import opened Options
  import opened CText
  import opened ArcusTypes

  // ---------------------------------------------------------------- parseReply

  /** What `parseReply` returns, and what it stored through `ax_p` and `val_p` (None: not assigned). */
  datatype ReplyParse = ReplyParse(code: int, ax: Option<int>, val: Option<int>)

  /** The width of the letter conversion, `%10[A-Z]`. */
  const CodeWidth := 10

  /**
   * `parseReply(reply, ax_p, val_p)`: `sscanf(reply, ":%10[A-Z]%i,%i", ...)`
   * must convert all three fields, or the result is -1; otherwise it is the
   * second number for a code starting with 'E' and 0 for any other code.
   * `reply` is the text before the terminating NUL.
   */
  function ParseReply(reply: string): (r: ReplyParse)
    ensures r.code != -1 ==> r.ax.Some? && r.val.Some?
    ensures r.val.Some? ==> r.ax.Some? && |reply| > 1 && r.code == (if reply[1] == 'E' then r.val.value else 0)
    ensures (reply == [] || reply[0] != ':') ==> r == ReplyParse(-1, None, None)
  {
    if reply == [] || reply[0] != ':' then ReplyParse(-1, None, None)
    else
      match ScanUpper(reply[1..], CodeWidth)
      case None => ReplyParse(-1, None, None)
      case Some(Scanned(letters, s1)) =>
        match ScanInteger(s1)
        case None => ReplyParse(-1, None, None)
        case Some(Scanned(ax, s2)) =>
          if s2 == [] || s2[0] != ',' then ReplyParse(-1, Some(ax), None)
          else
            match ScanInteger(s2[1..])
            case None => ReplyParse(-1, Some(ax), None)
            case Some(Scanned(v, _)) => ReplyParse(if letters[0] == 'E' then v else 0, Some(ax), Some(v))
  }

  /** An acknowledgement as the controller formats it, `:<code><axis>,<value>`, followed by `rest`. */
  function AckReply(letters: string, ax: int, v: int, rest: string): string {
    [':'] + (letters + (Decimal(ax) + ([','] + (Decimal(v) + rest))))
  }

  predicate IsCode(letters: string) {
    1 <= |letters| && forall i :: 0 <= i < |letters| ==> IsUpper(letters[i])
  }

  lemma DecimalStart(n: int)
    ensures Decimal(n) != [] && (Decimal(n)[0] == '-' || IsDigit(Decimal(n)[0]))
  {
  }

  /**
   * Every acknowledgement with a code of at most ten letters parses back
   * to its axis and value, and the result is the value exactly for an
   * error ('E') code.
   */
  lemma ParseAckReply(letters: string, ax: int, v: int, rest: string)
    requires IsCode(letters) && |letters| <= CodeWidth
    requires EndsNumber(rest)
    ensures ParseReply(AckReply(letters, ax, v, rest))
         == ReplyParse(if letters[0] == 'E' then v else 0, Some(ax), Some(v))
  {
    var reply := AckReply(letters, ax, v, rest);
    var s2 := [','] + (Decimal(v) + rest);
    var tail := Decimal(ax) + s2;
    assert reply[0] == ':';
    assert reply[1..] == letters + tail;
    assert ScanUpper(reply[1..], CodeWidth) == Some(Scanned(letters, tail)) by {
      DecimalStart(ax);
      SpanOfPrefix(letters, tail, IsUpper);
    }
    assert ScanInteger(tail) == Some(Scanned(ax, s2)) by {
      ScanIntegerOfDecimal(ax, s2);
    }
    assert s2[1..] == Decimal(v) + rest;
    assert ScanInteger(s2[1..]) == Some(Scanned(v, rest)) by {
      ScanIntegerOfDecimal(v, rest);
    }
    ParseReplySteps(reply, letters, tail, ax, s2, v, rest);
  }

  /** One successful run through the three conversions. */
  lemma ParseReplySteps(reply: string, letters: string, s1: string, ax: int, s2: string, v: int, s3: string)
    requires reply != [] && reply[0] == ':'
    requires ScanUpper(reply[1..], CodeWidth) == Some(Scanned(letters, s1))
    requires ScanInteger(s1) == Some(Scanned(ax, s2))
    requires s2 != [] && s2[0] == ','
    requires ScanInteger(s2[1..]) == Some(Scanned(v, s3))
    ensures ParseReply(reply) == ReplyParse(if letters[0] == 'E' then v else 0, Some(ax), Some(v))
  {
  }

  /** An upper-case letter cannot begin a number. */
  lemma LetterIsNoNumber(s: string)
    requires s != [] && IsUpper(s[0])
    ensures ScanInteger(s) == None
  {
    SkipNoSpace(s);
    assert Span(s, IsDigit) == 0;
  }

  /** A code longer than the conversion's width is cut at ten letters and the axis number fails to convert. */
  lemma OverlongCodeFails(letters: string, rest: string)
    requires IsCode(letters) && |letters| > CodeWidth
    ensures ParseReply(":" + letters + rest) == ReplyParse(-1, None, None)
  {
    var reply := ":" + letters + rest;
    var s := reply[1..];
    assert s == letters + rest;
    assert forall i :: 0 <= i < CodeWidth + 1 ==> s[i] == letters[i];
    assert Span(s, IsUpper) > CodeWidth;
    assert s[CodeWidth..][0] == letters[CodeWidth];
    LetterIsNoNumber(s[CodeWidth..]);
  }

  // ---------------------------------------------------------------- readings

  /**
   * `sscanf(s, "%d:%d:%d:%d", ...)` cut to `n` fields: the values it
   * converted, in order, up to the first field or colon that fails to match.
   */
  function ScanFields(s: string, n: nat): (fields: seq<int>)
    requires n >= 1
    ensures |fields| <= n
    decreases n
  {
    match ScanDecimal(s)
    case None => []
    case Some(Scanned(v, rest)) =>
      if n == 1 || rest == [] || rest[0] != ':' then [v] else [v] + ScanFields(rest[1..], n - 1)
  }

  /** The PMX-4ET-SA reply to a query over all four axes, followed by `rest`. */
  function QuadReply(a: int, b: int, c: int, d: int, rest: string): string {
    Decimal(a) + ([':'] + (Decimal(b) + ([':'] + (Decimal(c) + ([':'] + (Decimal(d) + rest))))))
  }

  /**
   * What a successful reading writes into `*val`, given the controller
   * model, the axis number and the bytes read; None where the source
   * leaves `*val` alone (UNKNOWN, or a PMX axis above 3) or where the
   * field it selects was not converted.
   */
  function DecodeReading(model: ControllerType, axis: int, data: string): (r: Option<int>)
    ensures model == Unknown ==> r == None
    ensures model == Pmx4etSa && !(0 <= axis <= 3) ==> r == None
  {
    var text := CString(data);
    if model == Pmx4etSa then
      var fields := ScanFields(text, 4);
      if 0 <= axis < |fields| then Some(fields[axis]) else None
    else if model != Unknown then
      match ScanDecimal(text)
      case None => None
      case Some(Scanned(v, _)) => Some(v)
    else None
  }

  lemma DecimalNulFree(n: int)
    ensures '\0' !in Decimal(n)
  {
    assert forall i :: 0 <= i < |Decimal(n)| ==> Decimal(n)[i] != '\0';
  }

  /** A reply with no NUL in it is read whole. */
  lemma NoNulReadWhole(s: string)
    requires '\0' !in s
    ensures CString(s) == s
  {
    CStringOfNulFree(s);
  }

  lemma ScanFieldsStep(s: string, n: nat, v: int, t: string)
    requires n > 1 && ScanDecimal(s) == Some(Scanned(v, [':'] + t))
    ensures ScanFields(s, n) == [v] + ScanFields(t, n - 1)
  {
    assert ([':'] + t)[1..] == t;
  }

  /** The last `k` fields of a reply, one lemma per field. */
  lemma LastField(d: int, rest: string)
    requires rest == [] || !IsDigit(rest[0])
    ensures ScanFields(Decimal(d) + rest, 1) == [d]
  {
    ScanDecimalOfDecimal(d, rest);
  }

  lemma NextField(v: int, t: string, n: nat, fields: seq<int>)
    requires n > 1 && ScanFields(t, n - 1) == fields
    ensures ScanFields(Decimal(v) + ([':'] + t), n) == [v] + fields
  {
    ScanDecimalOfDecimal(v, [':'] + t);
    ScanFieldsStep(Decimal(v) + ([':'] + t), n, v, t);
  }

  lemma ListOfFour(a: int, b: int, c: int, d: int)
    ensures [c] + [d] == [c, d] && [b] + [c, d] == [b, c, d] && [a] + [b, c, d] == [a, b, c, d]
  {
  }

  lemma QuadFields(a: int, b: int, c: int, d: int, rest: string)
    requires rest == [] || !IsDigit(rest[0])
    ensures ScanFields(QuadReply(a, b, c, d, rest), 4) == [a, b, c, d]
  {
    var s4 := Decimal(d) + rest;
    var s3 := Decimal(c) + ([':'] + s4);
    var s2 := Decimal(b) + ([':'] + s3);
    LastField(d, rest);
    NextField(c, s4, 2, [d]);
    ListOfFour(a, b, c, d);
    NextField(b, s3, 3, [c, d]);
    NextField(a, s2, 4, [b, c, d]);
  }

  /** On a PMX-4ET-SA, axis `k` in 0..3 reads the `k`-th colon-separated field. */
  lemma QuadFieldSelection(a: int, b: int, c: int, d: int, axis: int, rest: string)
    requires 0 <= axis <= 3
    requires rest == [] || (!IsDigit(rest[0]) && forall i :: 0 <= i < |rest| ==> rest[i] != '\0')
    ensures DecodeReading(Pmx4etSa, axis, QuadReply(a, b, c, d, rest)) == Some([a, b, c, d][axis])
  {
    var data := QuadReply(a, b, c, d, rest);
    DecimalNulFree(a);
    DecimalNulFree(b);
    DecimalNulFree(c);
    DecimalNulFree(d);
    assert '\0' !in rest;
    assert '\0' !in [':'];
    NoNulReadWhole(data);
    QuadFields(a, b, c, d, rest);
  }

  lemma QuadExample()
    ensures DecodeReading(Pmx4etSa, 2, "10:20:30:40") == Some(30)
  {
    assert "10:20:30:40" == QuadReply(10, 20, 30, 40, []);
    QuadFieldSelection(10, 20, 30, 40, 2, []);
  }

  /** The other known models read one leading integer, whatever the axis. */
  lemma SingleReading(model: ControllerType, axis: int, n: int, rest: string)
    requires model != Unknown && model != Pmx4etSa
    requires rest == [] || (!IsDigit(rest[0]) && forall i :: 0 <= i < |rest| ==> rest[i] != '\0')
    ensures DecodeReading(model, axis, Decimal(n) + rest) == Some(n)
  {
    var data := Decimal(n) + rest;
    DecimalNulFree(n);
    assert '\0' !in rest;
    NoNulReadWhole(data);
    ScanDecimalOfDecimal(n, rest);
  }

  // ---------------------------------------------------------------- status word

  /** `enum arcusPMXStatus`: the motion states. */
  const PmxAccelerating := 1
  const PmxDecelerating := 2
  const PmxConstantSpd := 4

  /** `enum arcusDMXStatus`: the motion states. */
  const DmxConstantSpd := 1
  const DmxAccelerating := 2
  const DmxDecelerating := 4

  /** `poll`'s switch from the status word to `*moving_p`; None for UNKNOWN, which leaves it unassigned. */
  function MovingFromStatus(model: ControllerType, v: int): Option<bool> {
    if model == Pmx4etSa then
      Some(v == PmxAccelerating || v == PmxConstantSpd || v == PmxDecelerating)
    else if model != Unknown then
      Some(v == DmxAccelerating || v == DmxConstantSpd || v == DmxDecelerating)
    else None
  }

  /**
   * Both enumerations put the motion states at 1, 2 and 4, so for every
   * known model "moving" is exactly "the status word is 1, 2 or 4": a
   * word combining bits, 3 or 5 say, is not moving.
   */
  lemma MovingIffMotionState(model: ControllerType, v: int)
    ensures MovingFromStatus(model, v) == if model == Unknown then None else Some(v in {1, 2, 4})
  {
  }
}
