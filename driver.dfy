/**
 * The driver's objects: the controller, which detects its model and owns
 * the retry loop over the link, and the axes, whose methods send the
 * commands of `AxisOps` one `sendCmd` at a time and keep `comStatus_`
 * and the motor record's status flags.
 */
module Driver {
  import opened Options
  import opened CText
  import opened ArcusTypes
  import opened AsynTransport
  import opened RetryLoop
  import opened Replies
  import opened Detection
  import opened Commands
  import opened AxisOps

  /** The link's state once `events` went out and `rest` is what the script still holds. */
  ghost predicate After(t: Transport, log0: seq<Event>, events: seq<Event>, rest: seq<Reply>)
    reads t
  {
    t.script == rest && t.log == log0 + events
  }

  /**
   * One more `sendCmd` after a run: if the link stood at the end of the
   * run of `cmds`, it stands at the end of the run of `cmds + [c]` once
   * `c` is exchanged.
   */
  lemma DialogExtend(cmds: seq<string>, c: string, status0: int, script0: seq<Reply>, log0: seq<Event>, log: seq<Event>)
    requires log == log0 + Dialog(cmds, status0, script0).events + Exchange(c, Dialog(cmds, status0, script0).rest).events
    ensures log == log0 + Dialog(cmds + [c], status0, script0).events
  {
    DialogSnoc(cmds, c, status0, script0);
  }

  lemma ConcatAssoc<T>(a: seq<T>, b: seq<T>, c: seq<T>)
    ensures a + (b + c) == a + b + c
  {
  }

  /**
   * A failed turn of the retry loop that is not the last: if the link
   * stood where the rest of the loop would take it to the loop's end, it
   * still does after the write and the reconnect cycle.
   */
  lemma RetryTurn(cmd: string, len: nat, script: seq<Reply>, pass: nat, reuseWritten: bool,
                  whole: Run, log0: seq<Event>, log1: seq<Event>, log: seq<Event>)
    requires pass + 1 < MaxAttempts && len <= |cmd| && Next(script).status != Success
    requires var now := Retry(cmd, len, script, pass, reuseWritten);
      now.last == whole.last && now.rest == whole.rest && log0 + whole.events == log1 + now.events
    requires log == log1 + [Sent(cmd[..len])] + Cycle(pass)
    ensures var next := Retry(cmd, if reuseWritten then WrittenCount(Next(script), len) else len, Rest(script), pass + 1, reuseWritten);
      next.last == whole.last && next.rest == whole.rest && log0 + whole.events == log + next.events
  {
    RetryContinues(cmd, len, script, pass, reuseWritten);
    var next := Retry(cmd, if reuseWritten then WrittenCount(Next(script), len) else len, Rest(script), pass + 1, reuseWritten);
    ConcatAssoc(log1, [Sent(cmd[..len])] + Cycle(pass), next.events);
    ConcatAssoc(log1, [Sent(cmd[..len])], Cycle(pass));
  }

  /** The axis's entries in the motor parameter library this driver writes. */
  datatype MotorParams = MotorParams(problem: bool, commsError: bool, done: bool,
                                     encoderPosition: int, position: int,
                                     hasEncoder: bool, gainSupport: bool)
  {
    /** `motorStatusProblem_` and `motorStatusCommsError_` set to 1. */
    function WithFault(): (p: MotorParams)
      ensures p.problem && p.commsError
      ensures p.(problem := problem, commsError := commsError) == this
    {
      this.(problem := true, commsError := true)
    }

    /** The flags an outcome leaves: raised on a fault, untouched otherwise. */
    function Raise(fault: bool): (p: MotorParams)
      ensures p.(problem := problem, commsError := commsError) == this
      ensures p.problem == (problem || fault) && p.commsError == (commsError || fault)
    {
      if fault then WithFault() else this
    }

    /**
     * What `poll` publishes: the positions and the done flag it reached,
     * the flags raised on a fault and never cleared, nothing else changed.
     */
    function Polled(o: PollOutcome): (p: MotorParams)
      ensures p.encoderPosition == o.encoder.GetOr(encoderPosition)
      ensures p.position == o.position.GetOr(position)
      ensures p.done == (if o.moving.Some? then !o.moving.value else done)
      ensures p.problem == (problem || o.fault) && p.commsError == (commsError || o.fault)
      ensures p.hasEncoder == hasEncoder && p.gainSupport == gainSupport
    {
      var p0 := Raise(o.fault);
      var p1 := if o.encoder.Some? then p0.(encoderPosition := o.encoder.value) else p0;
      var p2 := if o.position.Some? then p1.(position := o.position.value) else p1;
      if o.moving.Some? then p2.(done := !o.moving.value) else p2
    }
  }

  /** The parameter library's values before the axis writes any. */
  const InitialParams := MotorParams(false, false, false, 0, 0, false, false)

  class Controller {
    /** The asyn octet and common connections to the controller's I/O port. */
    const transport: Transport
    /** `ArcusModel`, detected once at construction. */
    const model: ControllerType
    /** `pAxes_`: the axes created so far, by axis number. */
    var axes: map<int, Axis>

    /**
     * `arcusController`: probe with `ID`, and with `@01ID` if nothing
     * came back, then recognise the model in the last reply read.
     */
    constructor (transport: Transport)
      modifies transport
      ensures this.transport == transport && axes == map[]
      ensures var d := DetectRun(old(transport.script));
        model == d.model && After(transport, old(transport.log), d.events, d.rest)
    {
      var reply := transport.WriteRead(IdProbe);
      if |reply.data| == 0 {
        reply := transport.WriteRead(AddressedIdProbe);
      }
      this.transport := transport;
      model := Classify(reply.data);
      axes := map[];
    }

    /**
     * The retry loop of `sendCmd` and of the three readings: write and
     * read until success or the fifth attempt, cycling the connection
     * before every attempt after the second. With `reuseWritten` the
     * length of each retry is what the previous attempt wrote.
     */
    method WriteReadRetry(cmd: string, reuseWritten: bool) returns (status: int, reply: Reply)
      modifies transport
      ensures var r := Retry(cmd, |cmd|, old(transport.script), 0, reuseWritten);
        reply == r.last && status == r.last.status && After(transport, old(transport.log), r.events, r.rest)
    {
      ghost var whole := Retry(cmd, |cmd|, transport.script, 0, reuseWritten);
      ghost var log0 := transport.log;
      var pass := 0;
      var len: nat := |cmd|;
      while true
        invariant 0 <= pass < MaxAttempts && len <= |cmd|
        invariant var now := Retry(cmd, len, transport.script, pass, reuseWritten);
          now.last == whole.last && now.rest == whole.rest && log0 + whole.events == transport.log + now.events
        decreases MaxAttempts - pass
      {
        ghost var script1 := transport.script;
        ghost var log1 := transport.log;
        ghost var len1 := len;
        reply := transport.WriteRead(cmd[..len]);
        status := reply.status;
        if status == Success {
          RetryEnds(cmd, len1, script1, pass, reuseWritten);
          break;
        }
        pass := pass + 1;
        if pass == MaxAttempts {
          RetryEnds(cmd, len1, script1, pass - 1, reuseWritten);
          break;
        }
        ghost var log2 := transport.log;
        if pass > 1 {
          status := transport.DisconnectDevice();
          status := transport.ConnectDevice();
          ConcatAssoc(log2, [Disconnected], [Reconnected]);
          assert [Disconnected] + [Reconnected] == Cycle(pass - 1);
        }
        if reuseWritten {
          len := WrittenCount(reply, len);
        }
        RetryTurn(cmd, len1, script1, pass - 1, reuseWritten, whole, log0, log1, transport.log);
      }
      status := reply.status;
    }

    /** `sendCmd`: one command through the retry loop, the reply discarded. */
    method SendCmd(cmd: string) returns (status: int)
      modifies transport
      ensures var r := Exchange(cmd, old(transport.script));
        status == r.last.status && After(transport, old(transport.log), r.events, r.rest)
    {
      var reply;
      status, reply := WriteReadRetry(cmd, false);
    }
  }

  class Axis {
    const ctl: Controller
    /** `axis_`. */
    const axisNo: int
    /** `channel_`. */
    const channel: char
    /** `Arcus_Com_Prefix`. */
    const prefix: string
    /** `comStatus_`. */
    var comStatus: int
    var params: MotorParams

    function Config(): AxisConfig {
      AxisConfig(ctl.model, axisNo, channel, prefix)
    }

    /**
     * `arcusAxis`: register with the controller, derive letter and prefix
     * from the channel, read the motion status once, and on success
     * declare an encoder and gain support.
     */
    constructor (ctl: Controller, axis: int, channel: int)
      modifies ctl, ctl.transport
      ensures this.ctl == ctl && axisNo == axis
      ensures Config() == ConfigFor(ctl.model, axis, channel)
      ensures ctl.axes == old(ctl.axes)[axis := this]
      ensures var r := ReadRun(StatusCmd(ConfigFor(ctl.model, axis, channel)), ctl.model, axis, 0, old(ctl.transport.script));
        && comStatus == r.status
        && After(ctl.transport, old(ctl.transport.log), r.events, r.rest)
        && params == (if r.status == Success then InitialParams.(hasEncoder := true, gainSupport := true) else InitialParams)
    {
      this.ctl := ctl;
      this.channel := ChannelLetter(channel);
      prefix := ComPrefix(ctl.model, channel);
      axisNo := axis;
      params := InitialParams;
      new;
      ctl.axes := ctl.axes[axis := this];
      var val;
      comStatus, val := GetAxisStatus(axis, 0);
      if comStatus == Success {
        params := params.(hasEncoder := true, gainSupport := true);
      }
    }

    /** The shared body of the three readings: the retry loop, then the reply decoded into `val` on success. */
    method Read(cmd: string, axis: int, val: int) returns (status: int, newVal: int)
      modifies ctl.transport
      ensures var r := ReadRun(cmd, ctl.model, axis, val, old(ctl.transport.script));
        status == r.status && newVal == r.value && After(ctl.transport, old(ctl.transport.log), r.events, r.rest)
    {
      var reply;
      status, reply := ctl.WriteReadRetry(cmd, true);
      newVal := val;
      if status == Success {
        match DecodeReading(ctl.model, axis, reply.data)
        case Some(v) => newVal := v;
        case None =>
      }
    }

    /** `getAxisStatus`: `<prefix>MST`, on every model. */
    method GetAxisStatus(axis: int, val: int) returns (status: int, newVal: int)
      modifies ctl.transport
      ensures var r := ReadRun(StatusCmd(Config()), ctl.model, axis, val, old(ctl.transport.script));
        status == r.status && newVal == r.value && After(ctl.transport, old(ctl.transport.log), r.events, r.rest)
    {
      status, newVal := Read(StatusCmd(Config()), axis, val);
    }

    /** `getEncoderVal`. */
    method GetEncoderVal(axis: int, val: int) returns (status: int, newVal: int)
      requires Known(Config())
      modifies ctl.transport
      ensures var r := ReadRun(EncoderCmd(Config()), ctl.model, axis, val, old(ctl.transport.script));
        status == r.status && newVal == r.value && After(ctl.transport, old(ctl.transport.log), r.events, r.rest)
    {
      status, newVal := Read(EncoderCmd(Config()), axis, val);
    }

    /** `getPositionVal`. */
    method GetPositionVal(axis: int, val: int) returns (status: int, newVal: int)
      requires Known(Config())
      modifies ctl.transport
      ensures var r := ReadRun(PositionCmd(Config()), ctl.model, axis, val, old(ctl.transport.script));
        status == r.status && newVal == r.value && After(ctl.transport, old(ctl.transport.log), r.events, r.rest)
    {
      status, newVal := Read(PositionCmd(Config()), axis, val);
    }

    /**
     * `poll`: encoder, then position, then motion status, stopping (with
     * the flags raised) at a failed encoder or position reading; `stale`
     * is what `val` holds before the first reading, `movingIn` what
     * `*moving_p` holds on entry.
     */
    method Poll(stale: int, movingIn: bool) returns (status: int, moving: bool)
      requires Known(Config())
      modifies this, ctl.transport
      ensures var o := PollRun(Config(), stale, old(ctl.transport.script));
        && status == o.status && comStatus == o.status
        && moving == o.moving.GetOr(movingIn)
        && params == old(params).Polled(o)
        && After(ctl.transport, old(ctl.transport.log), o.events, o.rest)
    {
      ghost var script0 := ctl.transport.script;
      ghost var log0 := ctl.transport.log;
      ghost var cfg := Config();
      ghost var params0 := params;
      moving := movingIn;
      var val := stale;
      comStatus, val := GetEncoderVal(axisNo, val);
      ghost var e := ReadRun(EncoderCmd(cfg), cfg.model, cfg.axis, stale, script0);
      if comStatus != Success {
        params := params.WithFault();
        ghost var o := PollOutcome(e.status, e.events, e.rest, None, None, None, true);
        assert PollRun(cfg, stale, script0) == o;
        assert params == params0.Polled(o);
        return comStatus, moving;
      }
      params := params.(encoderPosition := val);
      ghost var log1 := ctl.transport.log;
      comStatus, val := GetPositionVal(axisNo, val);
      ghost var p := ReadRun(PositionCmd(cfg), cfg.model, cfg.axis, e.value, e.rest);
      ConcatAssoc(log0, e.events, p.events);
      if comStatus != Success {
        params := params.WithFault();
        ghost var o := PollOutcome(p.status, e.events + p.events, p.rest, Some(e.value), None, None, true);
        assert PollRun(cfg, stale, script0) == o;
        assert params == params0.Polled(o);
        return comStatus, moving;
      }
      params := params.(position := val);
      comStatus, val := GetAxisStatus(axisNo, val);
      ghost var st := ReadRun(StatusCmd(cfg), cfg.model, cfg.axis, p.value, p.rest);
      ConcatAssoc(log0, e.events + p.events, st.events);
      var m := MovingFromStatus(ctl.model, val);
      moving := m.value;
      params := params.(done := !moving);
      status := comStatus;
      ghost var o := PollOutcome(st.status, e.events + p.events + st.events, st.rest, Some(e.value), Some(p.value), m, false);
      assert PollRun(cfg, stale, script0) == o;
      assert params == params0.Polled(o);
    }

    /** `moveCmd`: the target command alone, a timeout forgiven for non-PMX models. */
    method MoveCmd(count: int) returns (status: int)
      requires Known(Config())
      modifies this, ctl.transport
      ensures var o := MoveCmdRun(Config(), count, old(ctl.transport.script));
        && status == o.status && comStatus == o.status && params == old(params)
        && After(ctl.transport, old(ctl.transport.log), o.events, o.rest)
    {
      comStatus := ctl.SendCmd(TargetCmd(Config(), count));
      if comStatus == Timeout && ctl.model != Pmx4etSa {
        comStatus := Success;
      }
      status := comStatus;
    }

    /** Sends three commands in a row, returning the last status. */
    method SendThree(cmds: seq<string>, ghost status0: int) returns (status: int)
      requires |cmds| == 3
      modifies ctl.transport
      ensures var s := Dialog(cmds, status0, old(ctl.transport.script));
        status == s.status && After(ctl.transport, old(ctl.transport.log), s.events, s.rest)
    {
      ghost var script0 := ctl.transport.script;
      ghost var log0 := ctl.transport.log;
      status := SendTwo(cmds[..2], status0);
      status := ctl.SendCmd(cmds[2]);
      DialogSnoc(cmds[..2], cmds[2], status0, script0);
      DialogExtend(cmds[..2], cmds[2], status0, script0, log0, ctl.transport.log);
      assert cmds[..2] + [cmds[2]] == cmds;
    }

    /** Sends two commands in a row, returning the last status. */
    method SendTwo(cmds: seq<string>, ghost status0: int) returns (status: int)
      requires |cmds| == 2
      modifies ctl.transport
      ensures var s := Dialog(cmds, status0, old(ctl.transport.script));
        status == s.status && After(ctl.transport, old(ctl.transport.log), s.events, s.rest)
    {
      ghost var script0 := ctl.transport.script;
      ghost var log0 := ctl.transport.log;
      status := ctl.SendCmd(cmds[0]);
      DialogSnoc([], cmds[0], status0, script0);
      DialogExtend([], cmds[0], status0, script0, log0, ctl.transport.log);
      assert [] + [cmds[0]] == cmds[..1];
      status := ctl.SendCmd(cmds[1]);
      DialogSnoc(cmds[..1], cmds[1], status0, script0);
      DialogExtend(cmds[..1], cmds[1], status0, script0, log0, ctl.transport.log);
      assert cmds[..1] + [cmds[1]] == cmds;
    }

    /** `setSpeed(velocity, lowSpeed, accel)`: the last setting's status, success when none is sent; `comStatus_` untouched. */
    method SetSpeedLimits(high: int, low: int, accel: int) returns (status: int)
      modifies ctl.transport
      ensures var s := SetSpeedRun(Config(), high, low, accel, old(ctl.transport.script));
        status == s.status && After(ctl.transport, old(ctl.transport.log), s.events, s.rest)
    {
      status := Success;
      if Known(Config()) {
        status := SendThree(SpeedCommands(Config(), high, low, accel), Success);
      }
    }

    /** `setSpeed(velocity)`: low speed and acceleration a tenth and a thirtieth of the velocity, truncated. */
    method SetSpeed(velocity: int) returns (status: int)
      modifies ctl.transport
      ensures var s := DefaultSpeedRun(Config(), velocity, old(ctl.transport.script));
        status == s.status && After(ctl.transport, old(ctl.transport.log), s.events, s.rest)
    {
      status := Success;
      if Known(Config()) {
        status := SendThree(DefaultSpeedCommands(Config(), velocity), Success);
      }
    }

    /** `move`. */
    method Move(position: int, relative: bool, minVel: int, maxVel: int, accel: int) returns (status: int)
      modifies this, ctl.transport
      ensures var o := MoveRun(Config(), position, relative, minVel, maxVel, accel, old(ctl.transport.script));
        && status == o.status && comStatus == o.status && params == old(params).Raise(o.fault)
        && After(ctl.transport, old(ctl.transport.log), o.events, o.rest)
    {
      ghost var script0 := ctl.transport.script;
      ghost var log0 := ctl.transport.log;
      var cfg := Config();
      var newMin := if minVel < 100 then TruncDiv(maxVel, 10) else minVel;
      ghost var sp := SetSpeedRun(cfg, maxVel, newMin, accel, script0);
      ghost var o := MoveRun(cfg, position, relative, minVel, maxVel, accel, script0);
      comStatus := SetSpeedLimits(maxVel, newMin, accel);
      if comStatus == Timeout && ctl.model != Pmx4etSa {
        comStatus := Success;
      }
      assert comStatus == ForgiveTimeout(cfg.model, sp.status);
      if comStatus != Success {
        params := params.WithFault();
        assert o == Outcome(comStatus, sp.events, sp.rest, true);
        return comStatus;
      }
      var mode := ModeCmd(cfg, relative);
      comStatus := ctl.SendCmd(mode);
      ghost var r1 := Exchange(mode, sp.rest);
      var tail: seq<string> := [];
      if Known(cfg) {
        tail := [EnableCmd(cfg), TargetCmd(cfg, position)];
        comStatus := SendTwo(tail, r1.last.status);
      }
      ghost var d2 := Dialog(tail, r1.last.status, r1.rest);
      DialogCons(mode, tail, Success, sp.rest);
      assert [mode] + tail == MoveCommands(cfg, position, relative);
      ConcatAssoc(log0, sp.events, r1.events);
      ConcatAssoc(log0 + sp.events, r1.events, d2.events);
      ConcatAssoc(log0, sp.events, r1.events + d2.events);
      if comStatus == Timeout && ctl.model != Pmx4etSa {
        comStatus := Success;
      }
      status := comStatus;
      assert o == Outcome(status, sp.events + (r1.events + d2.events), d2.rest, false);
    }

    /** `home`: speeds (not forgiven), then enable and home in the direction of `max_vel`; `forwards` is not used. */
    method Home(minVel: int, maxVel: int, accel: int, forwards: int) returns (status: int)
      modifies this, ctl.transport
      ensures var o := HomeRun(Config(), minVel, maxVel, accel, old(ctl.transport.script));
        && status == o.status && comStatus == o.status && params == old(params).Raise(o.fault)
        && After(ctl.transport, old(ctl.transport.log), o.events, o.rest)
    {
      ghost var script0 := ctl.transport.script;
      ghost var log0 := ctl.transport.log;
      var cfg := Config();
      var direction := if maxVel < 0 then '-' else '+';
      ghost var sp := SetSpeedRun(cfg, maxVel, minVel, accel, script0);
      ghost var o := HomeRun(cfg, minVel, maxVel, accel, script0);
      comStatus := SetSpeedLimits(maxVel, minVel, accel);
      if comStatus != Success {
        params := params.WithFault();
        assert o == Outcome(comStatus, sp.events, sp.rest, true);
        return comStatus;
      }
      var cmds: seq<string> := [];
      if Known(cfg) {
        cmds := [EnableCmd(cfg), HomeCmd(cfg, direction)];
        comStatus := SendTwo(cmds, Success);
      }
      ghost var d := Dialog(cmds, Success, sp.rest);
      assert cmds == HomeCommands(cfg, maxVel);
      ConcatAssoc(log0, sp.events, d.events);
      if comStatus == Timeout && ctl.model != Pmx4etSa {
        comStatus := Success;
      }
      status := comStatus;
      assert o == Outcome(status, sp.events + d.events, d.rest, false);
    }

    /** `moveVelocity`: speeds with top speed `|max_vel|` (not forgiven), then enable and jog in its direction. */
    method MoveVelocity(minVel: int, maxVel: int, accel: int) returns (status: int)
      modifies this, ctl.transport
      ensures var o := MoveVelocityRun(Config(), minVel, maxVel, accel, old(ctl.transport.script));
        && status == o.status && comStatus == o.status && params == old(params).Raise(o.fault)
        && After(ctl.transport, old(ctl.transport.log), o.events, o.rest)
    {
      ghost var script0 := ctl.transport.script;
      ghost var log0 := ctl.transport.log;
      var cfg := Config();
      var speed := if maxVel < 0 then -maxVel else maxVel;
      var direction := if maxVel < 0 then '-' else '+';
      ghost var sp := SetSpeedRun(cfg, speed, minVel, accel, script0);
      ghost var o := MoveVelocityRun(cfg, minVel, maxVel, accel, script0);
      comStatus := SetSpeedLimits(speed, minVel, accel);
      if comStatus != Success {
        params := params.WithFault();
        assert o == Outcome(comStatus, sp.events, sp.rest, true);
        return comStatus;
      }
      var cmds: seq<string> := [];
      if Known(cfg) {
        cmds := [EnableCmd(cfg), JogCmd(cfg, direction)];
        comStatus := SendTwo(cmds, Success);
      }
      ghost var d := Dialog(cmds, Success, sp.rest);
      assert cmds == JogCommands(cfg, maxVel);
      ConcatAssoc(log0, sp.events, d.events);
      if comStatus == Timeout && ctl.model != Pmx4etSa {
        comStatus := Success;
      }
      status := comStatus;
      assert o == Outcome(status, sp.events + d.events, d.rest, false);
    }

    /** `stop`: the stop command, a timeout forgiven for non-PMX models, a failure raising the flags; the acceleration is not used. */
    method Stop(acceleration: int) returns (status: int)
      requires Known(Config())
      modifies this, ctl.transport
      ensures var o := StopRun(Config(), old(ctl.transport.script));
        && status == o.status && comStatus == o.status && params == old(params).Raise(o.fault)
        && After(ctl.transport, old(ctl.transport.log), o.events, o.rest)
    {
      comStatus := ctl.SendCmd(StopCmd(Config()));
      if comStatus == Timeout && ctl.model != Pmx4etSa {
        comStatus := Success;
      }
      if comStatus != Success {
        params := params.WithFault();
      }
      status := comStatus;
    }

    /**
     * `setPosition`, as written: enable, absolute mode, and absolute mode
     * again (the position is never sent); UNKNOWN sends nothing and
     * returns the previous `comStatus_`.
     */
    method SetPosition(position: int) returns (status: int)
      modifies this, ctl.transport
      ensures var o := SetPositionRun(Config(), SetPositionCommands(Config()), old(comStatus), old(ctl.transport.script));
        && status == o.status && comStatus == o.status && params == old(params).Raise(o.fault)
        && After(ctl.transport, old(ctl.transport.log), o.events, o.rest)
    {
      var cfg := Config();
      if Known(cfg) {
        var cmd := EnableCmd(cfg);
        var enable := cmd;
        cmd := ModeCmd(cfg, false);
        // `printf(cmd, ...)` prints and leaves `cmd` holding the mode command
        comStatus := SendThree([enable, cmd, cmd], comStatus);
      }
      if comStatus == Timeout && ctl.model != Pmx4etSa {
        comStatus := Success;
      }
      if comStatus != Success {
        params := params.WithFault();
      }
      status := comStatus;
    }
  }

  /**
   * `arcusCreateAxis`, given what `findAsynPortDriver` found for the
   * controller port: no axis when the port is unknown or the axis number
   * is taken, otherwise a new axis, returned whatever its first status
   * reading gave.
   */
  method CreateAxis(pC: Controller?, axisNumber: int, channel: int) returns (a: Axis?)
    modifies if pC == null then {} else {pC, pC.transport}
    ensures pC == null ==> a == null
    ensures pC != null && axisNumber in old(pC.axes) ==>
      a == null && pC.axes == old(pC.axes) && pC.transport.script == old(pC.transport.script) && pC.transport.log == old(pC.transport.log)
    ensures pC != null && axisNumber !in old(pC.axes) ==>
      && a != null && fresh(a) && a.ctl == pC
      && a.Config() == ConfigFor(pC.model, axisNumber, channel)
      && pC.axes == old(pC.axes)[axisNumber := a]
      && var r := ReadRun(StatusCmd(a.Config()), pC.model, axisNumber, 0, old(pC.transport.script));
         a.comStatus == r.status && After(pC.transport, old(pC.transport.log), r.events, r.rest)
  {
    if pC == null {
      return null;
    }
    if axisNumber in pC.axes {
      return null;
    }
    a := new Axis(pC, axisNumber, channel);
  }
}
