/**
 * The per-axis addressing (channel letter and `@NN` prefix) and the
 * command strings each operation formats, per controller model.
 */
module Commands {
  import opened Options
  import opened CText
  import opened ArcusTypes

  // ---------------------------------------------------------------- addressing

  /** The axis letters for channels 0 to 3. */
  const ChannelLetters := "XYZU"

  /** `arcusAxis` constructor: channel 0..3 is X, Y, Z, U, anything else '?'. */
  function ChannelLetter(channel: int): (c: char)
    ensures 0 <= channel < |ChannelLetters| ==> c == ChannelLetters[channel]
    ensures !(0 <= channel < |ChannelLetters|) ==> c == '?'
  {
    if channel == 0 then 'X'
    else if channel == 1 then 'Y'
    else if channel == 2 then 'Z'
    else if channel == 3 then 'U'
    else '?'
  }

  /** `sizeof(Arcus_Com_Prefix)`. */
  const PrefixBufferSize := 4

  /** `arcusAxis` constructor: `"@%02d"` of channel+1 on a DriveMax-K-SA, empty otherwise. */
  function ComPrefix(model: ControllerType, channel: int): (p: string)
    ensures model != DmxKSa <==> p == []
    ensures model == DmxKSa ==> |p| >= 3 && p[0] == '@'
  {
    Pad2Length(channel + 1);
    if model == DmxKSa then "@" + Pad2(channel + 1) else ""
  }

  /**
   * The prefix (with its NUL) fits the four-byte buffer exactly when it
   * is empty or channel+1 prints in two characters.
   */
  lemma PrefixFits(model: ControllerType, channel: int)
    ensures |ComPrefix(model, channel)| + 1 <= PrefixBufferSize <==> model != DmxKSa || -9 <= channel + 1 <= 99
  {
    Pad2Length(channel + 1);
  }

  /** On a DriveMax-K-SA, channels 0..98 are addressed as '@' and two decimal digits spelling channel+1. */
  lemma PrefixAddressesChannel(channel: int)
    requires 0 <= channel <= 98
    ensures var p := ComPrefix(DmxKSa, channel);
      && |p| == 3 && p[0] == '@' && IsDigit(p[1]) && IsDigit(p[2])
      && DigitValue(p[1]) * 10 + DigitValue(p[2]) == channel + 1
  {
    var n := channel + 1;
    if n >= 10 {
      var s := NatString(n);
      assert s == NatString(n / 10) + [DigitChar(n % 10)];
      assert NatString(n / 10) == [DigitChar(n / 10)];
    }
  }

  /** What an axis keeps of its construction: the model, its axis number, letter and prefix. */
  datatype AxisConfig = AxisConfig(model: ControllerType, axis: int, channel: char, prefix: string)

  function ConfigFor(model: ControllerType, axis: int, channel: int): (cfg: AxisConfig)
    ensures cfg.model == model && cfg.axis == axis
    ensures cfg.channel == ChannelLetter(channel) && cfg.prefix == ComPrefix(model, channel)
  {
    AxisConfig(model, axis, ChannelLetter(channel), ComPrefix(model, channel))
  }

  predicate Known(cfg: AxisConfig) { cfg.model != Unknown }

  predicate IsPmx(cfg: AxisConfig) { cfg.model == Pmx4etSa }

  // ---------------------------------------------------------------- C casts and the timeout rule

  /** C's `(long)(a / b)` for a positive divisor: the quotient truncated toward zero. */
  function TruncDiv(a: int, b: int): (q: int)
    requires b > 0
    ensures Abs(q) * b <= Abs(a) < (Abs(q) + 1) * b
    ensures (a >= 0 ==> q >= 0) && (a <= 0 ==> q <= 0)
  {
    if a >= 0 then a / b else -((-a) / b)
  }

  /**
   * Truncation agrees with Dafny's Euclidean division except on a
   * negative dividend that is no multiple of the divisor, where it is one more.
   */
  lemma TruncDivVersusEuclidean(a: int, b: int)
    requires b > 0
    ensures (a >= 0 || a % b == 0) ==> TruncDiv(a, b) == a / b
    ensures (a < 0 && a % b != 0) ==> TruncDiv(a, b) == a / b + 1
  {
    if a < 0 {
      var q := (-a) / b;
      var r := (-a) % b;
      assert -a == q * b + r;
      if r == 0 {
        EuclideanUnique(a, b, -q, 0);
      } else {
        EuclideanUnique(a, b, -q - 1, b - r);
      }
    }
  }

  /** A quotient and remainder in range are the Euclidean ones. */
  lemma EuclideanUnique(a: int, b: int, q: int, m: int)
    requires b > 0 && 0 <= m < b && a == q * b + m
    ensures a / b == q && a % b == m
  {
    var d := q - a / b;
    assert d * b == q * b - (a / b) * b;
    if d >= 1 {
      MulAtLeast(d, b);
    } else if d <= -1 {
      MulAtLeast(-d, b);
    }
  }

  lemma {:induction false} MulAtLeast(d: int, b: int)
    requires d >= 1 && b > 0
    ensures d * b >= b
  {
    if d > 1 {
      MulAtLeast(d - 1, b);
      assert d * b == (d - 1) * b + b;
    }
  }

  /**
   * "Timeout counts as success" for every model but the PMX-4ET-SA
   * (applied after `moveCmd`, `move`, `home`, `stop`, `setPosition`,
   * `moveVelocity`).
   */
  function ForgiveTimeout(model: ControllerType, status: int): (s: int)
    ensures s == status || s == Success
    ensures s != status <==> status == Timeout && model != Pmx4etSa
  {
    if status == Timeout && model != Pmx4etSa then Success else status
  }

  // ---------------------------------------------------------------- command templates

  /** `getAxisStatus`: `<prefix>MST`, for every model. */
  function StatusCmd(cfg: AxisConfig): string {
    cfg.prefix + "MST"
  }

  /** `getEncoderVal`: `PE` on a PMX-4ET-SA, `<prefix>EX` otherwise. */
  function EncoderCmd(cfg: AxisConfig): string
    requires Known(cfg)
  {
    if IsPmx(cfg) then "PE" else cfg.prefix + "EX"
  }

  /** `getPositionVal`: `PP` on a PMX-4ET-SA, `<prefix>PX` otherwise. */
  function PositionCmd(cfg: AxisConfig): string
    requires Known(cfg)
  {
    if IsPmx(cfg) then "PP" else cfg.prefix + "PX"
  }

  /** The part of a target command before the count: the axis letter, or `<prefix>X`. */
  function TargetHead(cfg: AxisConfig): string {
    if IsPmx(cfg) then [cfg.channel] else cfg.prefix + "X"
  }

  /** `moveCmd` and the target of `move`: `<letter><count>` or `<prefix>X<count>`. */
  function TargetCmd(cfg: AxisConfig, count: int): string
    requires Known(cfg)
  {
    TargetHead(cfg) + Decimal(count)
  }

  /** The count a controller reads from a target command of this axis, if it is one. */
  function TargetOf(cfg: AxisConfig, cmd: string): Option<int> {
    var head := TargetHead(cfg);
    if |head| <= |cmd| && cmd[..|head|] == head then
      match ScanDecimal(cmd[|head|..])
      case Some(Scanned(v, rest)) => if rest == [] then Some(v) else None
      case None => None
    else None
  }

  /** A command that differs from the target head at some position is no target command. */
  lemma NotATarget(cfg: AxisConfig, cmd: string, i: int)
    requires 0 <= i < |TargetHead(cfg)| && i < |cmd| && cmd[i] != TargetHead(cfg)[i]
    ensures TargetOf(cfg, cmd).None?
  {
    var head := TargetHead(cfg);
    if |head| <= |cmd| {
      assert cmd[..|head|][i] != head[i];
    }
  }

  /** Every target command carries its count. */
  lemma TargetRoundTrip(cfg: AxisConfig, count: int)
    requires Known(cfg)
    ensures TargetOf(cfg, TargetCmd(cfg, count)) == Some(count)
  {
    var head := TargetHead(cfg);
    var cmd := TargetCmd(cfg, count);
    assert cmd[..|head|] == head && cmd[|head|..] == Decimal(count) + [];
    ScanDecimalOfDecimal(count, []);
  }

  /**
   * The three speed settings, high, low, acceleration, in that order,
   * each `<name>=<value>`; none for UNKNOWN.
   */
  function SpeedCommands(cfg: AxisConfig, high: int, low: int, accel: int): (cmds: seq<string>)
    ensures Known(cfg) ==> |cmds| == 3
    ensures !Known(cfg) ==> cmds == []
  {
    if Known(cfg) then
      var names := SpeedNames(cfg);
      [names[0] + "=" + Decimal(high), names[1] + "=" + Decimal(low), names[2] + "=" + Decimal(accel)]
    else []
  }

  /** `setSpeed(velocity)`: low speed a tenth, acceleration a thirtieth of the velocity, truncated. */
  function DefaultSpeedCommands(cfg: AxisConfig, velocity: int): seq<string> {
    SpeedCommands(cfg, velocity, TruncDiv(velocity, 10), TruncDiv(velocity, 30))
  }

  /** The value a controller reads from an assignment `<name>=<value>`: the decimal after the first '='. */
  function AssignedValue(cmd: string): Option<int> {
    var k := Span(cmd, c => c != '=');
    if k == |cmd| then None
    else
      match ScanDecimal(cmd[k + 1..])
      case Some(Scanned(v, rest)) => if rest == [] then Some(v) else None
      case None => None
  }

  lemma AssignmentRoundTrip(name: string, v: int)
    requires forall i :: 0 <= i < |name| ==> name[i] != '='
    ensures AssignedValue(name + "=" + Decimal(v)) == Some(v)
  {
    var cmd := name + "=" + Decimal(v);
    assert cmd == name + ("=" + Decimal(v));
    SpanOfPrefix(name, "=" + Decimal(v), c => c != '=');
    assert cmd[|name| + 1..] == Decimal(v) + [];
    ScanDecimalOfDecimal(v, []);
  }

  /** A prefix or axis letter that never holds '=' (true of every prefix and letter the constructor makes). */
  predicate NoEquals(cfg: AxisConfig) {
    cfg.channel != '=' && forall i :: 0 <= i < |cfg.prefix| ==> cfg.prefix[i] != '='
  }

  /** The three speed commands carry high, low and acceleration, in that order. */
  lemma SpeedCommandsCarryValues(cfg: AxisConfig, high: int, low: int, accel: int)
    requires Known(cfg) && NoEquals(cfg)
    ensures var cmds := SpeedCommands(cfg, high, low, accel);
      AssignedValue(cmds[0]) == Some(high) && AssignedValue(cmds[1]) == Some(low) && AssignedValue(cmds[2]) == Some(accel)
  {
    var cmds := SpeedCommands(cfg, high, low, accel);
    var names := SpeedNames(cfg);
    SpeedNameHasNoEquals(cfg, 0);
    SpeedNameHasNoEquals(cfg, 1);
    SpeedNameHasNoEquals(cfg, 2);
    AssignmentRoundTrip(names[0], high);
    AssignmentRoundTrip(names[1], low);
    AssignmentRoundTrip(names[2], accel);
  }

  /** The names the three speed settings assign to: `HS<letter>`, `LS<letter>`, `ACC<letter>` on a PMX-4ET-SA, else `<prefix>HSPD`, `<prefix>LSPD`, `<prefix>ACC`. */
  function SpeedNames(cfg: AxisConfig): (names: seq<string>)
    ensures |names| == 3
    ensures names[0] != names[1] && names[1] != names[2] && names[0] != names[2]
    ensures IsPmx(cfg) ==> forall k :: 0 <= k < 3 ==> |names[k]| >= 3 && names[k][|names[k]| - 1] == cfg.channel
    ensures !IsPmx(cfg) ==> forall k :: 0 <= k < 3 ==> StartsWith(names[k], cfg.prefix)
  {
    if IsPmx(cfg) then
      var names := ["HS" + [cfg.channel], "LS" + [cfg.channel], "ACC" + [cfg.channel]];
      assert names[0][0] == 'H' && names[1][0] == 'L' && |names[2]| == 4;
      names
    else
      var p := cfg.prefix;
      var names := [p + "HSPD", p + "LSPD", p + "ACC"];
      assert names[0][|p|] == 'H' && names[1][|p|] == 'L' && |names[2]| == |p| + 3;
      names
  }

  lemma SpeedNameHasNoEquals(cfg: AxisConfig, k: int)
    requires NoEquals(cfg) && 0 <= k < 3
    ensures forall i :: 0 <= i < |SpeedNames(cfg)[k]| ==> SpeedNames(cfg)[k][i] != '='
  {
    var n := SpeedNames(cfg)[k];
    if IsPmx(cfg) {
      assert n == ["HS", "LS", "ACC"][k] + [cfg.channel];
    } else {
      assert n == cfg.prefix + ["HSPD", "LSPD", "ACC"][k];
    }
  }

  /** The one-argument form on axis X of a PMX-4ET-SA, velocity 1000. */
  lemma DefaultSpeedExample()
    ensures DefaultSpeedCommands(ConfigFor(Pmx4etSa, 0, 0), 1000) == ["HSX=1000", "LSX=100", "ACCX=33"]
  {
    assert TruncDiv(1000, 10) == 100 && TruncDiv(1000, 30) == 33;
    assert ConfigFor(Pmx4etSa, 0, 0).channel == 'X';
    assert NatString(1) == "1" && NatString(3) == "3";
    assert NatString(10) == "10" && NatString(33) == "33";
    assert NatString(100) == "100";
    assert NatString(1000) == "1000";
    var cmds := DefaultSpeedCommands(ConfigFor(Pmx4etSa, 0, 0), 1000);
    assert cmds == SpeedCommands(ConfigFor(Pmx4etSa, 0, 0), 1000, 100, 33);
    assert cmds[0] == "HS" + "X" + "=" + "1000";
    assert cmds[1] == "LS" + "X" + "=" + "100";
    assert cmds[2] == "ACC" + "X" + "=" + "33";
    assert "HS" + "X" + "=" + "1000" == "HSX=1000";
    assert "LS" + "X" + "=" + "100" == "LSX=100";
    assert "ACC" + "X" + "=" + "33" == "ACCX=33";
  }

  /** `move`'s low speed: a tenth of the top speed when `min_vel < 100`, else `min_vel`. */
  function LowSpeedFor(minVel: int, maxVel: int): (low: int)
    ensures minVel >= 100 ==> low == minVel
    ensures minVel < 100 ==> Abs(low) * 10 <= Abs(maxVel) < (Abs(low) + 1) * 10
    ensures minVel < 100 ==> (maxVel >= 0 ==> low >= 0) && (maxVel <= 0 ==> low <= 0)
  {
    if minVel < 100 then TruncDiv(maxVel, 10) else minVel
  }

  /** For a reverse move with a low `min_vel`, the low speed rounds toward zero: one more than the Euclidean tenth unless `max_vel` is a multiple of ten. */
  lemma LowSpeedForReverseMove(minVel: int, maxVel: int)
    requires minVel < 100 && maxVel < 0
    ensures LowSpeedFor(minVel, maxVel) == if maxVel % 10 == 0 then maxVel / 10 else maxVel / 10 + 1
  {
    TruncDivVersusEuclidean(maxVel, 10);
  }

  /** `move`: `<prefix>INC` for a relative move, `<prefix>ABS` otherwise, on every model. */
  function ModeCmd(cfg: AxisConfig, relative: bool): string {
    cfg.prefix + (if relative then "INC" else "ABS")
  }

  /** Enable the outputs: `EO<axis+1>=1` on a PMX-4ET-SA, `<prefix>EO=1` otherwise. */
  function EnableCmd(cfg: AxisConfig): string
    requires Known(cfg)
  {
    if IsPmx(cfg) then "EO" + Decimal(cfg.axis + 1) + "=1" else cfg.prefix + "EO=1"
  }

  /** `home` and `moveVelocity`: '-' for a negative velocity, '+' otherwise. */
  function Direction(maxVel: int): char {
    if maxVel < 0 then '-' else '+'
  }

  /** `home`: `H<letter><dir>` or `<prefix>H<dir>`. */
  function HomeCmd(cfg: AxisConfig, dir: char): string
    requires Known(cfg)
  {
    if IsPmx(cfg) then "H" + [cfg.channel, dir] else cfg.prefix + "H" + [dir]
  }

  /** `moveVelocity`: `J<letter><dir>` or `<prefix>J<dir>`. */
  function JogCmd(cfg: AxisConfig, dir: char): string
    requires Known(cfg)
  {
    if IsPmx(cfg) then "J" + [cfg.channel, dir] else cfg.prefix + "J" + [dir]
  }

  /** `stop`: `STOP<letter>` or `<prefix>STOP`. */
  function StopCmd(cfg: AxisConfig): string
    requires Known(cfg)
  {
    if IsPmx(cfg) then "STOP" + [cfg.channel] else cfg.prefix + "STOP"
  }

  predicate StartsWith(s: string, p: string) {
    |p| <= |s| && s[..|p|] == p
  }

  lemma AppendStartsWith(p: string, t: string)
    ensures StartsWith(p + t, p)
  {
    assert (p + t)[..|p|] == p;
  }

  /** On a DMX-type controller every command an axis sends starts with its address prefix (empty on a DMX-ETH). */
  lemma DmxCommandsCarryPrefix(cfg: AxisConfig, count: int, relative: bool, dir: char)
    requires Known(cfg) && !IsPmx(cfg)
    ensures var p := cfg.prefix;
      && StartsWith(StatusCmd(cfg), p) && StartsWith(EncoderCmd(cfg), p) && StartsWith(PositionCmd(cfg), p)
      && StartsWith(TargetCmd(cfg, count), p) && StartsWith(ModeCmd(cfg, relative), p)
      && StartsWith(EnableCmd(cfg), p) && StartsWith(HomeCmd(cfg, dir), p) && StartsWith(JogCmd(cfg, dir), p)
      && StartsWith(StopCmd(cfg), p)
  {
    var p := cfg.prefix;
    AppendStartsWith(p, "MST");
    AppendStartsWith(p, "EX");
    AppendStartsWith(p, "PX");
    assert TargetCmd(cfg, count) == p + ("X" + Decimal(count));
    AppendStartsWith(p, "X" + Decimal(count));
    AppendStartsWith(p, if relative then "INC" else "ABS");
    AppendStartsWith(p, "EO=1");
    assert HomeCmd(cfg, dir) == p + ("H" + [dir]);
    AppendStartsWith(p, "H" + [dir]);
    assert JogCmd(cfg, dir) == p + ("J" + [dir]);
    AppendStartsWith(p, "J" + [dir]);
    AppendStartsWith(p, "STOP");
  }

  /** The same holds for the speed settings. */
  lemma DmxSpeedCommandsCarryPrefix(cfg: AxisConfig, high: int, low: int, accel: int)
    requires Known(cfg) && !IsPmx(cfg)
    ensures forall c :: c in SpeedCommands(cfg, high, low, accel) ==> StartsWith(c, cfg.prefix)
  {
    var p := cfg.prefix;
    SettingCarriesPrefix(p, "HSPD", high);
    SettingCarriesPrefix(p, "LSPD", low);
    SettingCarriesPrefix(p, "ACC", accel);
  }

  lemma SettingCarriesPrefix(p: string, name: string, v: int)
    ensures StartsWith(p + name + "=" + Decimal(v), p)
  {
    assert p + name + "=" + Decimal(v) == p + (name + "=" + Decimal(v));
    AppendStartsWith(p, name + "=" + Decimal(v));
  }

  /**
   * On a PMX-4ET-SA every command for one axis names it by its letter,
   * while the encoder and position queries name no axis: their reply
   * holds all four.
   */
  lemma PmxCommandsNameAxis(cfg: AxisConfig, count: int, dir: char)
    requires IsPmx(cfg)
    ensures TargetCmd(cfg, count)[0] == cfg.channel
    ensures |HomeCmd(cfg, dir)| == 3 && HomeCmd(cfg, dir)[1] == cfg.channel
    ensures |JogCmd(cfg, dir)| == 3 && JogCmd(cfg, dir)[1] == cfg.channel
    ensures |StopCmd(cfg)| == 5 && StopCmd(cfg)[4] == cfg.channel
    ensures EncoderCmd(cfg) == "PE" && PositionCmd(cfg) == "PP"
  {
  }

  /** The three speed settings name the axis by its letter too. */
  lemma PmxSpeedCommandsNameAxis(cfg: AxisConfig, high: int, low: int, accel: int)
    requires IsPmx(cfg)
    ensures forall c :: c in SpeedCommands(cfg, high, low, accel) ==> cfg.channel in c
  {
    SettingNamesLetter("HS", cfg.channel, high);
    SettingNamesLetter("LS", cfg.channel, low);
    SettingNamesLetter("ACC", cfg.channel, accel);
  }

  lemma SettingNamesLetter(head: string, letter: char, v: int)
    ensures letter in head + [letter] + "=" + Decimal(v)
  {
    assert (head + [letter] + "=" + Decimal(v))[|head|] == letter;
  }

  /** The prefixes and letters the constructor makes never contain '='. */
  lemma ConstructedConfigHasNoEquals(model: ControllerType, axis: int, channel: int)
    ensures NoEquals(ConfigFor(model, axis, channel))
  {
    var p := ComPrefix(model, channel);
    if model == DmxKSa {
      var n := channel + 1;
      assert p == "@" + Pad2(n);
      DecimalNoEquals(n);
      if 0 <= n < 10 {
        assert Pad2(n) == "0" + NatString(n);
      }
    }
  }

  lemma DecimalNoEquals(n: int)
    ensures forall i :: 0 <= i < |Decimal(n)| ==> Decimal(n)[i] != '='
    ensures forall i :: 0 <= i < |NatString(Abs(n))| ==> NatString(Abs(n))[i] != '='
  {
  }
}
