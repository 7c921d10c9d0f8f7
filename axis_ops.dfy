/**
 * What each axis operation does to the link, as a function of the axis
 * configuration, its arguments and the replies to come: the commands it
 * sends in order, the status it returns, and whether it raises the
 * problem and communication-error flags. The methods of `Driver.Axis`
 * are proved against these.
 */
module AxisOps {
  import opened Options
  import opened CText
  import opened ArcusTypes
  import opened AsynTransport
  import opened RetryLoop
  import opened Replies
  import opened Commands

  /** The status returned (and left in `comStatus_`), what went over the link, the script left, and whether the flags were raised. */
  datatype Outcome = Outcome(status: int, events: seq<Event>, rest: seq<Reply>, fault: bool)

  // ---------------------------------------------------------------- readings

  /** A reading: its status, the new `*val`, what went over the link, the script left. */
  datatype Reading = Reading(status: int, value: int, events: seq<Event>, rest: seq<Reply>)

  /**
   * `getAxisStatus`, `getEncoderVal`, `getPositionVal`: the retry loop
   * that reuses `nbytesOut` as the next write length, then the reply
   * decoded into `*val` only on success.
   */
  function ReadRun(cmd: string, model: ControllerType, axis: int, val: int, script: seq<Reply>): (r: Reading)
    ensures r.status != Success ==> r.value == val
  {
    var run := Retry(cmd, |cmd|, script, 0, true);
    var v := if run.last.status == Success then DecodeReading(model, axis, run.last.data).GetOr(val) else val;
    Reading(run.last.status, v, run.events, run.rest)
  }

  /** While every write is complete, a reading sends its command like `sendCmd` and takes the reply's value. */
  lemma ReadRunLikeExchange(cmd: string, model: ControllerType, axis: int, val: int, script: seq<Reply>)
    requires forall j :: 0 <= j < MaxAttempts ==> Nth(script, j).written == AllWritten
    ensures var r := ReadRun(cmd, model, axis, val, script);
      var x := Exchange(cmd, script);
      && r.status == x.last.status && r.events == x.events && r.events == RetryPattern(cmd, x.attempts)
      && r.value == (if x.last.status == Success then DecodeReading(model, axis, x.last.data).GetOr(val) else val)
  {
    ReuseHarmlessOnFullWrites(cmd, |cmd|, script, 0);
    ExchangeFollowsPattern(cmd, script);
  }

  // ---------------------------------------------------------------- poll

  /**
   * `poll`'s outcome: the status, what went over the link, the script
   * left, the encoder and motor positions published (None: not reached),
   * `*moving_p` (None: not assigned), and whether the flags were raised.
   */
  datatype PollOutcome = PollOutcome(status: int, events: seq<Event>, rest: seq<Reply>,
                                     encoder: Option<int>, position: Option<int>, moving: Option<bool>, fault: bool)

  /** `poll`, with `stale` the value `val` holds before the first reading assigns it. */
  function PollRun(cfg: AxisConfig, stale: int, script: seq<Reply>): (o: PollOutcome)
    requires Known(cfg)
    ensures o.fault <==> o.status != Success && o.moving.None?
    ensures o.position.Some? ==> o.encoder.Some?
    ensures o.moving.Some? <==> o.position.Some?
  {
    var e := ReadRun(EncoderCmd(cfg), cfg.model, cfg.axis, stale, script);
    if e.status != Success then
      PollOutcome(e.status, e.events, e.rest, None, None, None, true)
    else
      var p := ReadRun(PositionCmd(cfg), cfg.model, cfg.axis, e.value, e.rest);
      if p.status != Success then
        PollOutcome(p.status, e.events + p.events, p.rest, Some(e.value), None, None, true)
      else
        var st := ReadRun(StatusCmd(cfg), cfg.model, cfg.axis, p.value, p.rest);
        PollOutcome(st.status, e.events + p.events + st.events, st.rest,
                    Some(e.value), Some(p.value), MovingFromStatus(cfg.model, st.value), false)
  }

  /**
   * A failed status reading does not stop `poll`: it returns that
   * failure without raising the flags, and "moving" is computed from
   * what `val` still holds, the motor position just read.
   */
  lemma PollStatusFailureUsesPosition(cfg: AxisConfig, stale: int, script: seq<Reply>)
    requires Known(cfg)
    ensures var o := PollRun(cfg, stale, script);
      o.position.Some? && o.status != Success ==>
        !o.fault && o.moving == MovingFromStatus(cfg.model, o.position.value)
  {
  }

  /**
   * `poll` stops at the first failed position reading: a failed encoder
   * reading raises the flags and returns with only its own traffic, so
   * no position or status query is sent; a failed motor-position reading
   * publishes the encoder position, raises the flags and returns before
   * the status query.
   */
  lemma PollStopsOnReadFailure(cfg: AxisConfig, stale: int, script: seq<Reply>)
    requires Known(cfg)
    ensures var o := PollRun(cfg, stale, script);
      var e := ReadRun(EncoderCmd(cfg), cfg.model, cfg.axis, stale, script);
      var p := ReadRun(PositionCmd(cfg), cfg.model, cfg.axis, e.value, e.rest);
      && (e.status != Success ==>
            o.fault && o.status == e.status && o.events == e.events && o.rest == e.rest && o.encoder.None?)
      && (e.status == Success && p.status != Success ==>
            && o.fault && o.status == p.status && o.events == e.events + p.events && o.rest == p.rest
            && o.encoder == Some(e.value) && o.position.None?)
      && (e.status == Success && p.status == Success ==>
            o.encoder == Some(e.value) && o.position == Some(p.value) && !o.fault)
  {
  }

  /**
   * On a link that only ever times out, `poll` writes nothing but its
   * encoder query (or a prefix of it, as the reading loop may shorten
   * its writes), raises the flags and reports the timeout.
   */
  lemma PollOnTimeoutLink(cfg: AxisConfig, stale: int, script: seq<Reply>)
    requires Known(cfg) && TimesOut(script)
    ensures var o := PollRun(cfg, stale, script);
      && o.status == Timeout && o.fault && o.encoder.None?
      && forall e :: e in o.events && e.Sent? ==> e.bytes <= EncoderCmd(cfg)
  {
    var c := EncoderCmd(cfg);
    RetryOnTimeoutLink(c, |c|, script, 0, true);
    RetryWritesPrefixes(c, |c|, script, 0, true);
  }

  /** A reading answered at once sends its command once and decodes the answer. */
  lemma ReadAnsweredAtOnce(cmd: string, model: ControllerType, axis: int, val: int, data: string, tail: seq<Reply>)
    ensures ReadRun(cmd, model, axis, val, [Answer(data)] + tail)
         == Reading(Success, DecodeReading(model, axis, data).GetOr(val), [Sent(cmd)], tail)
  {
    NextOfCons(Answer(data), tail);
    assert cmd[..|cmd|] == cmd;
  }

  /** A PMX-4ET-SA's answer to a query of all four axes. */
  function QuadData(fields: seq<int>): string
    requires |fields| == 4
  {
    QuadReply(fields[0], fields[1], fields[2], fields[3], [])
  }

  lemma QuadDataSelects(fields: seq<int>, axis: int)
    requires |fields| == 4 && 0 <= axis <= 3
    ensures DecodeReading(Pmx4etSa, axis, QuadData(fields)) == Some(fields[axis])
  {
    QuadFieldSelection(fields[0], fields[1], fields[2], fields[3], axis, []);
    FourSelect(fields, axis);
  }

  lemma FourSelect(fields: seq<int>, axis: int)
    requires |fields| == 4 && 0 <= axis <= 3
    ensures [fields[0], fields[1], fields[2], fields[3]][axis] == fields[axis]
  {
  }

  /** A reply that answers at once with `data`. */
  function Answer(data: string): Reply {
    Reply(Success, AllWritten, data)
  }

  /**
   * `poll` on a link that answers the three queries at once: each value
   * is decoded from its own reply, a value that does not decode keeps
   * what `val` held before.
   */
  lemma PollAnsweredAtOnce(cfg: AxisConfig, stale: int, enc: string, pos: string, st: string)
    requires Known(cfg)
    ensures var o := PollRun(cfg, stale, [Answer(enc), Answer(pos), Answer(st)]);
      var e := DecodeReading(cfg.model, cfg.axis, enc).GetOr(stale);
      var p := DecodeReading(cfg.model, cfg.axis, pos).GetOr(e);
      var m := DecodeReading(cfg.model, cfg.axis, st).GetOr(p);
      && o.status == Success && !o.fault
      && o.encoder == Some(e) && o.position == Some(p) && o.moving == MovingFromStatus(cfg.model, m)
      && o.events == [Sent(EncoderCmd(cfg)), Sent(PositionCmd(cfg)), Sent(StatusCmd(cfg))]
      && o.rest == []
  {
    var script := [Answer(enc), Answer(pos), Answer(st)];
    assert script == [Answer(enc)] + ([Answer(pos)] + ([Answer(st)] + []));
    var e := DecodeReading(cfg.model, cfg.axis, enc).GetOr(stale);
    var p := DecodeReading(cfg.model, cfg.axis, pos).GetOr(e);
    ReadAnsweredAtOnce(EncoderCmd(cfg), cfg.model, cfg.axis, stale, enc, [Answer(pos)] + ([Answer(st)] + []));
    ReadAnsweredAtOnce(PositionCmd(cfg), cfg.model, cfg.axis, e, pos, [Answer(st)] + []);
    ReadAnsweredAtOnce(StatusCmd(cfg), cfg.model, cfg.axis, p, st, []);
  }

  /**
   * On a PMX-4ET-SA that answers every query at once, axis k in 0..3
   * publishes the k-th field of the encoder and position replies, and is
   * moving exactly when the k-th status field is 1, 2 or 4.
   */
  lemma PmxPollOnReliableLink(cfg: AxisConfig, stale: int, enc: seq<int>, pos: seq<int>, st: seq<int>)
    requires IsPmx(cfg) && 0 <= cfg.axis <= 3
    requires |enc| == 4 && |pos| == 4 && |st| == 4
    ensures var o := PollRun(cfg, stale, [Answer(QuadData(enc)), Answer(QuadData(pos)), Answer(QuadData(st))]);
      && o.status == Success && !o.fault
      && o.encoder == Some(enc[cfg.axis]) && o.position == Some(pos[cfg.axis])
      && o.moving == Some(st[cfg.axis] in {1, 2, 4})
      && o.events == [Sent("PE"), Sent("PP"), Sent(StatusCmd(cfg))]
      && o.rest == []
  {
    var k := cfg.axis;
    QuadDataSelects(enc, k);
    QuadDataSelects(pos, k);
    QuadDataSelects(st, k);
    PollAnsweredAtOnce(cfg, stale, QuadData(enc), QuadData(pos), QuadData(st));
    MovingIffMotionState(cfg.model, st[k]);
  }

  // ---------------------------------------------------------------- single commands

  /** `moveCmd(count)`: one target command, a timeout forgiven for non-PMX models. */
  function MoveCmdRun(cfg: AxisConfig, count: int, script: seq<Reply>): (o: Outcome)
    requires Known(cfg)
    ensures !o.fault
    ensures o.status == Timeout ==> IsPmx(cfg)
  {
    var r := Exchange(TargetCmd(cfg, count), script);
    Outcome(ForgiveTimeout(cfg.model, r.last.status), r.events, r.rest, false)
  }

  /** `stop(acceleration)`: one stop command (the acceleration is not sent); a failure raises the flags. */
  function StopRun(cfg: AxisConfig, script: seq<Reply>): (o: Outcome)
    requires Known(cfg)
    ensures o.fault <==> o.status != Success
    ensures o.status == Timeout ==> IsPmx(cfg)
  {
    var r := Exchange(StopCmd(cfg), script);
    var s := ForgiveTimeout(cfg.model, r.last.status);
    Outcome(s, r.events, r.rest, s != Success)
  }

  /**
   * On a link that only ever times out, `moveCmd` and `stop` make all
   * five attempts at their one command; a DMX-type controller then
   * reports success, a PMX-4ET-SA the timeout (and `stop` raises the flags).
   */
  lemma MoveCmdOnTimeoutLink(cfg: AxisConfig, count: int, script: seq<Reply>)
    requires Known(cfg) && TimesOut(script)
    ensures var o := MoveCmdRun(cfg, count, script);
      && (IsPmx(cfg) ==> o.status == Timeout)
      && (!IsPmx(cfg) ==> o.status == Success)
      && o.events == RetryPattern(TargetCmd(cfg, count), MaxAttempts)
  {
    RetryOnTimeoutLink(TargetCmd(cfg, count), |TargetCmd(cfg, count)|, script, 0, false);
    ExchangeFollowsPattern(TargetCmd(cfg, count), script);
  }

  lemma StopOnTimeoutLink(cfg: AxisConfig, script: seq<Reply>)
    requires Known(cfg) && TimesOut(script)
    ensures var o := StopRun(cfg, script);
      && (IsPmx(cfg) ==> o.status == Timeout && o.fault)
      && (!IsPmx(cfg) ==> o.status == Success && !o.fault)
      && o.events == RetryPattern(StopCmd(cfg), MaxAttempts)
  {
    RetryOnTimeoutLink(StopCmd(cfg), |StopCmd(cfg)|, script, 0, false);
    ExchangeFollowsPattern(StopCmd(cfg), script);
  }

  /** On a link that answers at once, `moveCmd` sends its target command once and reports success. */
  lemma MoveCmdOnReliableLink(cfg: AxisConfig, count: int, script: seq<Reply>)
    requires Known(cfg) && Answers(script, 1)
    ensures MoveCmdRun(cfg, count, script) == Outcome(Success, Sends([TargetCmd(cfg, count)]), script[1..], false)
  {
    var c := TargetCmd(cfg, count);
    assert c[..|c|] == c;
    assert Exchange(c, script) == Run(script[0], 1, [Sent(c)], script[1..]);
  }

  /** On a link that answers at once, `stop` sends its stop command once and reports success. */
  lemma StopOnReliableLink(cfg: AxisConfig, script: seq<Reply>)
    requires Known(cfg) && Answers(script, 1)
    ensures StopRun(cfg, script) == Outcome(Success, Sends([StopCmd(cfg)]), script[1..], false)
  {
    var c := StopCmd(cfg);
    assert c[..|c|] == c;
    assert Exchange(c, script) == Run(script[0], 1, [Sent(c)], script[1..]);
  }

  // ---------------------------------------------------------------- speed

  /** `setSpeed(velocity, lowSpeed, accel)`: the three settings, the status of the last (success if none was sent). */
  function SetSpeedRun(cfg: AxisConfig, high: int, low: int, accel: int, script: seq<Reply>): (s: Session)
    ensures !Known(cfg) ==> s == Session(Success, [], script)
    ensures forall e :: e in s.events && e.Sent? ==> e.bytes in SpeedCommands(cfg, high, low, accel)
  {
    DialogSendsOnly(SpeedCommands(cfg, high, low, accel), Success, script);
    Dialog(SpeedCommands(cfg, high, low, accel), Success, script)
  }

  /** `setSpeed(velocity)`: the three-setting form with a tenth and a thirtieth of the velocity, truncated. */
  function DefaultSpeedRun(cfg: AxisConfig, velocity: int, script: seq<Reply>): (s: Session)
    ensures s == SetSpeedRun(cfg, velocity, TruncDiv(velocity, 10), TruncDiv(velocity, 30), script)
  {
    Dialog(DefaultSpeedCommands(cfg, velocity), Success, script)
  }

  /** UNKNOWN sends no speed settings and reports success; a known model reports its acceleration setting's status. */
  lemma SetSpeedStatus(cfg: AxisConfig, high: int, low: int, accel: int, script: seq<Reply>)
    ensures var s := SetSpeedRun(cfg, high, low, accel, script);
      && (!Known(cfg) ==> s == Session(Success, [], script))
      && (Known(cfg) ==>
            var cmds := SpeedCommands(cfg, high, low, accel);
            var pre := Dialog(cmds[..2], Success, script);
            s.status == Exchange(cmds[2], pre.rest).last.status)
  {
    if Known(cfg) {
      var cmds := SpeedCommands(cfg, high, low, accel);
      assert cmds == cmds[..2] + [cmds[2]];
      DialogSnoc(cmds[..2], cmds[2], Success, script);
    }
  }

  // ---------------------------------------------------------------- move, home, jog

  /** After `move`'s speed settings: the mode, then (known models) enable and target. */
  function MoveCommands(cfg: AxisConfig, position: int, relative: bool): (cmds: seq<string>)
    ensures |cmds| >= 1 && cmds[0] == ModeCmd(cfg, relative)
  {
    [ModeCmd(cfg, relative)] + (if Known(cfg) then [EnableCmd(cfg), TargetCmd(cfg, position)] else [])
  }

  /**
   * `move`: the speeds (low speed from `LowSpeedFor`); a speed failure
   * other than a forgiven timeout raises the flags and ends the move;
   * otherwise the move commands follow, whatever their own statuses,
   * and the last one's status is returned, a timeout forgiven.
   */
  function MoveRun(cfg: AxisConfig, position: int, relative: bool, minVel: int, maxVel: int, accel: int,
                   script: seq<Reply>): (o: Outcome)
    ensures var sp := SetSpeedRun(cfg, maxVel, LowSpeedFor(minVel, maxVel), accel, script);
      var s0 := ForgiveTimeout(cfg.model, sp.status);
      && (o.fault <==> s0 != Success)
      && (o.fault ==> o.status == s0 && o.events == sp.events && o.rest == sp.rest)
      && (!o.fault ==>
            var d := Dialog(MoveCommands(cfg, position, relative), Success, sp.rest);
            o.status == ForgiveTimeout(cfg.model, d.status) && o.events == sp.events + d.events && o.rest == d.rest)
  {
    var sp := SetSpeedRun(cfg, maxVel, LowSpeedFor(minVel, maxVel), accel, script);
    var s0 := ForgiveTimeout(cfg.model, sp.status);
    if s0 != Success then Outcome(s0, sp.events, sp.rest, true)
    else
      var d := Dialog(MoveCommands(cfg, position, relative), s0, sp.rest);
      Outcome(ForgiveTimeout(cfg.model, d.status), sp.events + d.events, d.rest, false)
  }

  /** After `home`'s speed settings (known models): enable, then home in the direction of `max_vel`. */
  function HomeCommands(cfg: AxisConfig, maxVel: int): seq<string> {
    if Known(cfg) then [EnableCmd(cfg), HomeCmd(cfg, Direction(maxVel))] else []
  }

  /** `home`: as `move`, but the speed status is not forgiven, and the home commands follow. */
  function HomeRun(cfg: AxisConfig, minVel: int, maxVel: int, accel: int, script: seq<Reply>): (o: Outcome)
    ensures var sp := SetSpeedRun(cfg, maxVel, minVel, accel, script);
      && (o.fault <==> sp.status != Success)
      && (o.fault ==> o.status == sp.status && o.events == sp.events && o.rest == sp.rest)
      && (!o.fault ==>
            var d := Dialog(HomeCommands(cfg, maxVel), Success, sp.rest);
            o.status == ForgiveTimeout(cfg.model, d.status) && o.events == sp.events + d.events && o.rest == d.rest)
  {
    var sp := SetSpeedRun(cfg, maxVel, minVel, accel, script);
    if sp.status != Success then Outcome(sp.status, sp.events, sp.rest, true)
    else
      var d := Dialog(HomeCommands(cfg, maxVel), sp.status, sp.rest);
      Outcome(ForgiveTimeout(cfg.model, d.status), sp.events + d.events, d.rest, false)
  }

  /** After `moveVelocity`'s speed settings (known models): enable, then jog in the direction of `max_vel`. */
  function JogCommands(cfg: AxisConfig, maxVel: int): seq<string> {
    if Known(cfg) then [EnableCmd(cfg), JogCmd(cfg, Direction(maxVel))] else []
  }

  /** `moveVelocity`: the top speed is `|max_vel|`, the direction its sign; otherwise as `home`. */
  function MoveVelocityRun(cfg: AxisConfig, minVel: int, maxVel: int, accel: int, script: seq<Reply>): (o: Outcome)
    ensures var sp := SetSpeedRun(cfg, Abs(maxVel), minVel, accel, script);
      && (o.fault <==> sp.status != Success)
      && (o.fault ==> o.status == sp.status && o.events == sp.events && o.rest == sp.rest)
      && (!o.fault ==>
            var d := Dialog(JogCommands(cfg, maxVel), Success, sp.rest);
            o.status == ForgiveTimeout(cfg.model, d.status) && o.events == sp.events + d.events && o.rest == d.rest)
  {
    var sp := SetSpeedRun(cfg, Abs(maxVel), minVel, accel, script);
    if sp.status != Success then Outcome(sp.status, sp.events, sp.rest, true)
    else
      var d := Dialog(JogCommands(cfg, maxVel), sp.status, sp.rest);
      Outcome(ForgiveTimeout(cfg.model, d.status), sp.events + d.events, d.rest, false)
  }

  /**
   * `move` raises the flags exactly when its speed settings fail (a
   * timeout forgiven for non-PMX models), and then it has sent nothing
   * but speed settings: no mode, enable or target command.
   */
  lemma MoveStopsOnSpeedFailure(cfg: AxisConfig, position: int, relative: bool, minVel: int, maxVel: int, accel: int,
                                script: seq<Reply>)
    ensures var o := MoveRun(cfg, position, relative, minVel, maxVel, accel, script);
      var speeds := SpeedCommands(cfg, maxVel, LowSpeedFor(minVel, maxVel), accel);
      && (o.fault <==> ForgiveTimeout(cfg.model, Dialog(speeds, Success, script).status) != Success)
      && (o.fault ==> o.status != Success && forall e :: e in o.events && e.Sent? ==> e.bytes in speeds)
  {
    DialogSendsOnly(SpeedCommands(cfg, maxVel, LowSpeedFor(minVel, maxVel), accel), Success, script);
  }

  /** `home` raises the flags exactly when its speed settings fail, timeouts included, and then has sent nothing else. */
  lemma HomeStopsOnSpeedFailure(cfg: AxisConfig, minVel: int, maxVel: int, accel: int, script: seq<Reply>)
    ensures var o := HomeRun(cfg, minVel, maxVel, accel, script);
      var speeds := SpeedCommands(cfg, maxVel, minVel, accel);
      && (o.fault <==> Dialog(speeds, Success, script).status != Success)
      && (o.fault ==> o.status != Success && forall e :: e in o.events && e.Sent? ==> e.bytes in speeds)
  {
    DialogSendsOnly(SpeedCommands(cfg, maxVel, minVel, accel), Success, script);
  }

  /** `moveVelocity` raises the flags exactly when its speed settings fail, timeouts included, and then has sent nothing else. */
  lemma MoveVelocityStopsOnSpeedFailure(cfg: AxisConfig, minVel: int, maxVel: int, accel: int, script: seq<Reply>)
    ensures var o := MoveVelocityRun(cfg, minVel, maxVel, accel, script);
      var speeds := SpeedCommands(cfg, Abs(maxVel), minVel, accel);
      && (o.fault <==> Dialog(speeds, Success, script).status != Success)
      && (o.fault ==> o.status != Success && forall e :: e in o.events && e.Sent? ==> e.bytes in speeds)
  {
    DialogSendsOnly(SpeedCommands(cfg, Abs(maxVel), minVel, accel), Success, script);
  }

  /**
   * Unlike `move`, `home` does not forgive a timed-out speed setting: on
   * a link that only times out it raises the flags and reports the
   * timeout on every known model, DMX-type controllers included.
   */
  lemma HomeOnTimeoutLink(cfg: AxisConfig, minVel: int, maxVel: int, accel: int, script: seq<Reply>)
    requires Known(cfg) && TimesOut(script)
    ensures var o := HomeRun(cfg, minVel, maxVel, accel, script);
      && o.status == Timeout && o.fault
      && o.events == SetSpeedRun(cfg, maxVel, minVel, accel, script).events
  {
    DialogOnTimeoutLink(SpeedCommands(cfg, maxVel, minVel, accel), Success, script);
  }

  /** `moveVelocity` likewise fails on a link that only times out, whatever the known model. */
  lemma MoveVelocityOnTimeoutLink(cfg: AxisConfig, minVel: int, maxVel: int, accel: int, script: seq<Reply>)
    requires Known(cfg) && TimesOut(script)
    ensures var o := MoveVelocityRun(cfg, minVel, maxVel, accel, script);
      && o.status == Timeout && o.fault
      && o.events == SetSpeedRun(cfg, Abs(maxVel), minVel, accel, script).events
  {
    DialogOnTimeoutLink(SpeedCommands(cfg, Abs(maxVel), minVel, accel), Success, script);
  }

  /**
   * On a link that only ever times out, a DMX-type controller's `move`
   * goes through every command and reports success, while a
   * PMX-4ET-SA's stops after the speed settings and reports the timeout.
   */
  lemma MoveOnTimeoutLink(cfg: AxisConfig, position: int, relative: bool, minVel: int, maxVel: int, accel: int,
                          script: seq<Reply>)
    requires Known(cfg) && TimesOut(script)
    ensures var o := MoveRun(cfg, position, relative, minVel, maxVel, accel, script);
      && (IsPmx(cfg) ==> o.status == Timeout && o.fault)
      && (!IsPmx(cfg) ==>
            && o.status == Success && !o.fault
            && o.events == SetSpeedRun(cfg, maxVel, LowSpeedFor(minVel, maxVel), accel, script).events
                         + Dialog(MoveCommands(cfg, position, relative), Success,
                                  SetSpeedRun(cfg, maxVel, LowSpeedFor(minVel, maxVel), accel, script).rest).events)
  {
    var sp := SetSpeedRun(cfg, maxVel, LowSpeedFor(minVel, maxVel), accel, script);
    DialogOnTimeoutLink(SpeedCommands(cfg, maxVel, LowSpeedFor(minVel, maxVel), accel), Success, script);
    DialogOnTimeoutLink(MoveCommands(cfg, position, relative), Success, sp.rest);
  }

  /** A link that answers every exchange at once. */
  predicate Answers(script: seq<Reply>, n: nat) {
    n <= |script| && forall j :: 0 <= j < n ==> script[j].status == Success
  }

  /** What remains of a link that answers the next `n` exchanges, once `k` of them are done. */
  lemma AnswersLeft(script: seq<Reply>, n: nat, k: nat)
    requires Answers(script, n) && k <= n
    ensures Answers(script[k..], n - k) && script[k..][n - k..] == script[n..]
  {
    assert forall j :: 0 <= j < n - k ==> script[k..][j] == script[j + k];
  }

  /** The three speed settings on a link that answers at once. */
  lemma SpeedsOnReliableLink(cfg: AxisConfig, high: int, low: int, accel: int, script: seq<Reply>)
    requires Known(cfg) && Answers(script, 3)
    ensures SetSpeedRun(cfg, high, low, accel, script) == Session(Success, Sends(SpeedCommands(cfg, high, low, accel)), script[3..])
  {
    ReliableDialog(SpeedCommands(cfg, high, low, accel), Success, script);
  }

  /** Commands after the speed settings, on a link that answers them all at once. */
  lemma TailOnReliableLink(cmds: seq<string>, script: seq<Reply>)
    requires cmds != [] && Answers(script, 3 + |cmds|)
    ensures Dialog(cmds, Success, script[3..]) == Session(Success, Sends(cmds), script[3 + |cmds|..])
  {
    AnswersLeft(script, 3 + |cmds|, 3);
    ReliableDialog(cmds, Success, script[3..]);
  }

  lemma SendsAppend(a: seq<string>, b: seq<string>)
    ensures Sends(a + b) == Sends(a) + Sends(b)
  {
  }

  /**
   * On a link that answers at once, `move` sends exactly the three speed
   * settings, the mode, the enable and the target, in that order, and
   * reports success.
   */
  lemma MoveOnReliableLink(cfg: AxisConfig, position: int, relative: bool, minVel: int, maxVel: int, accel: int,
                           script: seq<Reply>)
    requires Known(cfg) && Answers(script, 6)
    ensures var o := MoveRun(cfg, position, relative, minVel, maxVel, accel, script);
      && o.status == Success && !o.fault
      && o.events == Sends(SpeedCommands(cfg, maxVel, LowSpeedFor(minVel, maxVel), accel)
                          + [ModeCmd(cfg, relative), EnableCmd(cfg), TargetCmd(cfg, position)])
      && o.rest == script[6..]
  {
    var speeds := SpeedCommands(cfg, maxVel, LowSpeedFor(minVel, maxVel), accel);
    var moves := MoveCommands(cfg, position, relative);
    assert moves == [ModeCmd(cfg, relative), EnableCmd(cfg), TargetCmd(cfg, position)];
    AnswersLeft(script, 6, 0);
    SpeedsOnReliableLink(cfg, maxVel, LowSpeedFor(minVel, maxVel), accel, script);
    TailOnReliableLink(moves, script);
    SendsAppend(speeds, moves);
  }

  /** `home` on a link that answers at once: speeds, enable, and home in the direction of `max_vel`. */
  lemma HomeOnReliableLink(cfg: AxisConfig, minVel: int, maxVel: int, accel: int, script: seq<Reply>)
    requires Known(cfg) && Answers(script, 5)
    ensures var o := HomeRun(cfg, minVel, maxVel, accel, script);
      && o.status == Success && !o.fault
      && o.events == Sends(SpeedCommands(cfg, maxVel, minVel, accel) + [EnableCmd(cfg), HomeCmd(cfg, Direction(maxVel))])
      && o.rest == script[5..]
  {
    var speeds := SpeedCommands(cfg, maxVel, minVel, accel);
    AnswersLeft(script, 5, 0);
    SpeedsOnReliableLink(cfg, maxVel, minVel, accel, script);
    TailOnReliableLink(HomeCommands(cfg, maxVel), script);
    SendsAppend(speeds, HomeCommands(cfg, maxVel));
  }

  /** `moveVelocity` on a link that answers at once: speeds with top speed |max_vel|, enable, and jog in its direction. */
  lemma MoveVelocityOnReliableLink(cfg: AxisConfig, minVel: int, maxVel: int, accel: int, script: seq<Reply>)
    requires Known(cfg) && Answers(script, 5)
    ensures var o := MoveVelocityRun(cfg, minVel, maxVel, accel, script);
      && o.status == Success && !o.fault
      && o.events == Sends(SpeedCommands(cfg, Abs(maxVel), minVel, accel) + [EnableCmd(cfg), JogCmd(cfg, Direction(maxVel))])
      && o.rest == script[5..]
  {
    var speeds := SpeedCommands(cfg, Abs(maxVel), minVel, accel);
    AnswersLeft(script, 5, 0);
    SpeedsOnReliableLink(cfg, Abs(maxVel), minVel, accel, script);
    TailOnReliableLink(JogCommands(cfg, maxVel), script);
    SendsAppend(speeds, JogCommands(cfg, maxVel));
  }

  // ---------------------------------------------------------------- setPosition

  /**
   * The commands `setPosition` sends, as written: enable, absolute mode,
   * and absolute mode again, because the third command is formatted
   * with `printf(cmd, ...)`, which leaves `cmd` as it was.
   */
  function SetPositionCommands(cfg: AxisConfig): seq<string> {
    if Known(cfg) then [EnableCmd(cfg), ModeCmd(cfg, false), ModeCmd(cfg, false)] else []
  }

  /** The commands evidently intended: the third sets the position. */
  function IntendedSetPositionCommands(cfg: AxisConfig, position: int): seq<string> {
    if Known(cfg) then [EnableCmd(cfg), ModeCmd(cfg, false), TargetCmd(cfg, position)] else []
  }

  /**
   * `setPosition`: the run starts from the previous `comStatus_` (which
   * it returns, a timeout forgiven, when nothing is sent); the last
   * status, a timeout forgiven, is returned and a failure raises the flags.
   */
  function SetPositionRun(cfg: AxisConfig, commands: seq<string>, comStatus: int, script: seq<Reply>): (o: Outcome)
    ensures o.fault <==> o.status != Success
    ensures o.status == Timeout ==> IsPmx(cfg)
  {
    var d := Dialog(commands, comStatus, script);
    var s := ForgiveTimeout(cfg.model, d.status);
    Outcome(s, d.events, d.rest, s != Success)
  }

  /** As written, no command `setPosition` sends to an axis the constructor made carries a target position. */
  lemma SetPositionSendsNoPosition(model: ControllerType, axis: int, channel: int)
    requires model != Unknown
    ensures var cfg := ConfigFor(model, axis, channel);
      forall c :: c in SetPositionCommands(cfg) ==> TargetOf(cfg, c).None?
  {
    var cfg := ConfigFor(model, axis, channel);
    var en := EnableCmd(cfg);
    var ab := ModeCmd(cfg, false);
    var i := |cfg.prefix|;
    assert en[i] == 'E' && ab[i] == 'A';
    assert TargetHead(cfg)[i] != 'E' && TargetHead(cfg)[i] != 'A';
    NotATarget(cfg, en, i);
    NotATarget(cfg, ab, i);
  }

  /** The intended commands do: the third one carries exactly the requested position. */
  lemma IntendedSetPositionSendsPosition(cfg: AxisConfig, position: int)
    requires Known(cfg)
    ensures var cmds := IntendedSetPositionCommands(cfg, position);
      |cmds| == 3 && TargetOf(cfg, cmds[2]) == Some(position)
  {
    TargetRoundTrip(cfg, position);
  }

  /**
   * On a link that only ever times out, a known model's `setPosition`
   * ends in a timeout: a DMX-type controller forgives it and reports
   * success, a PMX-4ET-SA reports it and raises the flags.
   */
  lemma SetPositionOnTimeoutLink(cfg: AxisConfig, comStatus: int, script: seq<Reply>)
    requires Known(cfg) && TimesOut(script)
    ensures var o := SetPositionRun(cfg, SetPositionCommands(cfg), comStatus, script);
      && (IsPmx(cfg) ==> o.status == Timeout && o.fault)
      && (!IsPmx(cfg) ==> o.status == Success && !o.fault)
  {
    DialogOnTimeoutLink(SetPositionCommands(cfg), comStatus, script);
  }

  /** On a link that answers at once, a known model's `setPosition` sends its three commands in order and reports success, whatever `comStatus_` held. */
  lemma SetPositionOnReliableLink(cfg: AxisConfig, comStatus: int, script: seq<Reply>)
    requires Known(cfg) && Answers(script, 3)
    ensures SetPositionRun(cfg, SetPositionCommands(cfg), comStatus, script)
         == Outcome(Success, Sends(SetPositionCommands(cfg)), script[3..], false)
  {
    ReliableDialog(SetPositionCommands(cfg), comStatus, script);
  }

  /** For UNKNOWN nothing is sent and the previous status comes back, a timeout forgiven. */
  lemma SetPositionUnknown(cfg: AxisConfig, comStatus: int, script: seq<Reply>)
    requires !Known(cfg)
    ensures SetPositionRun(cfg, SetPositionCommands(cfg), comStatus, script)
         == Outcome(ForgiveTimeout(cfg.model, comStatus), [], script, ForgiveTimeout(cfg.model, comStatus) != Success)
  {
  }
}
