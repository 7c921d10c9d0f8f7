/**
 * The command channel: one command/reply exchange retried at most five
 * times, with a disconnect/reconnect of the device before every retry
 * after the second failed attempt (`sendCmd`, and the same loop in
 * `getAxisStatus`, `getEncoderVal` and `getPositionVal`), and runs of
 * such exchanges one after another.
 *
 * These functions say what the loop does to a scripted link; the loop
 * itself is `Driver.Controller.WriteReadRetry`.
 */
module RetryLoop {
  import opened ArcusTypes
  import opened AsynTransport

  /** The loops stop once `++pass == 5`. */
  const MaxAttempts := 5

  /** The reply the `j`-th `writeRead` (from 0) gets from a script. */
  function Nth(script: seq<Reply>, j: nat): Reply {
    if j == 0 then Next(script) else Nth(Rest(script), j - 1)
  }

  /** A script once `j` replies have been taken from it. */
  function Drop(script: seq<Reply>, j: nat): seq<Reply> {
    if j == 0 then script else Drop(Rest(script), j - 1)
  }

  /** The result of a retry loop: the last reply, the number of attempts, what went over the link, and the script left. */
  datatype Run = Run(last: Reply, attempts: nat, events: seq<Event>, rest: seq<Reply>)

  /**
   * The retry loop entered with `pass` failures behind it and `len` bytes
   * of `cmd` to write. With `reuseWritten` the byte count of the next
   * attempt is the `nbytesOut` of the previous one, as in the three
   * reading loops, which pass `&outCount` both as the length to write and
   * as where `writeRead` stores what it wrote; `sendCmd` keeps the two apart.
   */
  function Retry(cmd: string, len: nat, script: seq<Reply>, pass: nat, reuseWritten: bool): (r: Run)
    requires pass < MaxAttempts
    ensures 1 <= r.attempts <= MaxAttempts - pass
    decreases MaxAttempts - pass
  {
    var reply := Next(script);
    var sent := Sent(cmd[..Clip(cmd, len)]);
    if reply.status == Success || pass + 1 == MaxAttempts then
      Run(reply, 1, [sent], Rest(script))
    else
      var r := Retry(cmd, NextLength(cmd, len, reply, reuseWritten), Rest(script), pass + 1, reuseWritten);
      Run(r.last, r.attempts + 1, [sent] + Cycle(pass) + r.events, r.rest)
  }

  /** The bytes of `cmd` a write of `len` bytes sends. */
  function Clip(cmd: string, len: nat): (n: nat)
    ensures n <= |cmd| && (len <= |cmd| ==> n == len)
  {
    if len <= |cmd| then len else |cmd|
  }

  /** The length the next attempt writes after `reply`. */
  function NextLength(cmd: string, len: nat, reply: Reply, reuseWritten: bool): nat {
    if reuseWritten then WrittenCount(reply, Clip(cmd, len)) else len
  }

  /** The disconnect/reconnect cycle after failed attempt `pass + 1`: none after the first. */
  function Cycle(pass: nat): seq<Event> {
    if pass + 1 > 1 then [Disconnected, Reconnected] else []
  }

  /** The loop's last turn: the attempt that succeeds, or the fifth. */
  lemma RetryEnds(cmd: string, len: nat, script: seq<Reply>, pass: nat, reuseWritten: bool)
    requires pass < MaxAttempts && len <= |cmd|
    requires Next(script).status == Success || pass + 1 == MaxAttempts
    ensures Retry(cmd, len, script, pass, reuseWritten) == Run(Next(script), 1, [Sent(cmd[..len])], Rest(script))
  {
  }

  /** Any other turn: the failed attempt, the cycle after the second and later failures, then the rest of the loop. */
  lemma RetryContinues(cmd: string, len: nat, script: seq<Reply>, pass: nat, reuseWritten: bool)
    requires pass < MaxAttempts && len <= |cmd|
    requires Next(script).status != Success && pass + 1 < MaxAttempts
    ensures var r := Retry(cmd, len, script, pass, reuseWritten);
      var next := Retry(cmd, if reuseWritten then WrittenCount(Next(script), len) else len, Rest(script), pass + 1, reuseWritten);
      && r.last == next.last && r.rest == next.rest
      && r.events == [Sent(cmd[..len])] + Cycle(pass) + next.events
  {
  }

  /** `sendCmd(cmd)`: one to five attempts, ending on a success or on the fifth failure. */
  function Exchange(cmd: string, script: seq<Reply>): (r: Run)
    ensures 1 <= r.attempts <= MaxAttempts
    ensures r.last.status == Success || r.attempts == MaxAttempts
  {
    RetryEndsWell(cmd, |cmd|, script, 0, false);
    Retry(cmd, |cmd|, script, 0, false)
  }

  /** The `j`-th reply is the first one left once `j` have been taken. */
  lemma {:induction false} NthDrop(script: seq<Reply>, j: nat)
    ensures Next(Drop(script, j)) == Nth(script, j)
    ensures Rest(Drop(script, j)) == Drop(Rest(script), j)
  {
    if j > 0 {
      NthDrop(Rest(script), j - 1);
    }
  }

  /** One failed attempt, then the loop goes on with one reply fewer. */
  lemma RetryStep(cmd: string, len: nat, script: seq<Reply>, pass: nat, reuseWritten: bool)
    requires pass < MaxAttempts
    requires Next(script).status != Success && pass + 1 < MaxAttempts
    ensures var r := Retry(cmd, len, script, pass, reuseWritten);
      var r' := Retry(cmd, NextLength(cmd, len, Next(script), reuseWritten), Rest(script), pass + 1, reuseWritten);
      r.attempts == r'.attempts + 1 && r.last == r'.last && r.rest == r'.rest
  {
  }

  /** The last attempt: the one that succeeds, or the fifth. */
  lemma RetryStops(cmd: string, len: nat, script: seq<Reply>, pass: nat, reuseWritten: bool)
    requires pass < MaxAttempts
    requires Next(script).status == Success || pass + 1 == MaxAttempts
    ensures var r := Retry(cmd, len, script, pass, reuseWritten);
      r.attempts == 1 && r.last == Next(script) && r.rest == Rest(script)
  {
  }

  /** The loop returns the reply of its last attempt. */
  lemma {:induction false} RetryLast(cmd: string, len: nat, script: seq<Reply>, pass: nat, reuseWritten: bool)
    requires pass < MaxAttempts
    ensures var r := Retry(cmd, len, script, pass, reuseWritten);
      r.last == Nth(script, r.attempts - 1)
    decreases MaxAttempts - pass
  {
    if Next(script).status == Success || pass + 1 == MaxAttempts {
      RetryStops(cmd, len, script, pass, reuseWritten);
    } else {
      var len' := NextLength(cmd, len, Next(script), reuseWritten);
      RetryStep(cmd, len, script, pass, reuseWritten);
      RetryLast(cmd, len', Rest(script), pass + 1, reuseWritten);
    }
  }

  /** The last attempt succeeded or was the fifth. */
  lemma {:induction false} RetryEndsWell(cmd: string, len: nat, script: seq<Reply>, pass: nat, reuseWritten: bool)
    requires pass < MaxAttempts
    ensures var r := Retry(cmd, len, script, pass, reuseWritten);
      r.last.status == Success || pass + r.attempts == MaxAttempts
    decreases MaxAttempts - pass
  {
    if Next(script).status == Success || pass + 1 == MaxAttempts {
      RetryStops(cmd, len, script, pass, reuseWritten);
    } else {
      var len' := NextLength(cmd, len, Next(script), reuseWritten);
      RetryStep(cmd, len, script, pass, reuseWritten);
      RetryEndsWell(cmd, len', Rest(script), pass + 1, reuseWritten);
    }
  }

  /** Each attempt takes one reply from the script. */
  lemma {:induction false} RetryRest(cmd: string, len: nat, script: seq<Reply>, pass: nat, reuseWritten: bool)
    requires pass < MaxAttempts
    ensures var r := Retry(cmd, len, script, pass, reuseWritten);
      r.rest == Drop(script, r.attempts)
    decreases MaxAttempts - pass
  {
    if Next(script).status == Success || pass + 1 == MaxAttempts {
      RetryStops(cmd, len, script, pass, reuseWritten);
      assert Drop(script, 1) == Drop(Rest(script), 0);
    } else {
      var len' := NextLength(cmd, len, Next(script), reuseWritten);
      RetryStep(cmd, len, script, pass, reuseWritten);
      RetryRest(cmd, len', Rest(script), pass + 1, reuseWritten);
    }
  }

  /** Every attempt before the last one failed. */
  lemma {:induction false} RetryFailuresBefore(cmd: string, len: nat, script: seq<Reply>, pass: nat, reuseWritten: bool, j: nat)
    requires pass < MaxAttempts
    requires j < Retry(cmd, len, script, pass, reuseWritten).attempts - 1
    ensures Nth(script, j).status != Success
    decreases MaxAttempts - pass
  {
    if Next(script).status == Success || pass + 1 == MaxAttempts {
    } else if j > 0 {
      var len' := NextLength(cmd, len, Next(script), reuseWritten);
      RetryStep(cmd, len, script, pass, reuseWritten);
      RetryFailuresBefore(cmd, len', Rest(script), pass + 1, reuseWritten, j - 1);
    }
  }

  lemma RetryStopsAt(cmd: string, len: nat, script: seq<Reply>, pass: nat, reuseWritten: bool)
    requires pass < MaxAttempts
    ensures var r := Retry(cmd, len, script, pass, reuseWritten);
      && (forall j :: 0 <= j < r.attempts - 1 ==> Nth(script, j).status != Success)
      && r.last == Nth(script, r.attempts - 1)
      && (r.last.status == Success || pass + r.attempts == MaxAttempts)
      && r.rest == Drop(script, r.attempts)
  {
    var r := Retry(cmd, len, script, pass, reuseWritten);
    RetryLast(cmd, len, script, pass, reuseWritten);
    RetryEndsWell(cmd, len, script, pass, reuseWritten);
    RetryRest(cmd, len, script, pass, reuseWritten);
    forall j | 0 <= j < r.attempts - 1
      ensures Nth(script, j).status != Success
    {
      RetryFailuresBefore(cmd, len, script, pass, reuseWritten, j);
    }
  }

  /**
   * At most five attempts, stopping at the first success; the reply (and
   * so the status) returned is that of the last `writeRead`, and each
   * attempt takes one reply from the script.
   */
  lemma RetryStopsAtFirstSuccess(cmd: string, script: seq<Reply>, reuseWritten: bool)
    ensures var r := Retry(cmd, |cmd|, script, 0, reuseWritten);
      && 1 <= r.attempts <= MaxAttempts
      && (forall j :: 0 <= j < r.attempts - 1 ==> Nth(script, j).status != Success)
      && r.last == Nth(script, r.attempts - 1)
      && (r.last.status == Success || r.attempts == MaxAttempts)
      && r.rest == Drop(script, r.attempts)
  {
    RetryStopsAt(cmd, |cmd|, script, 0, reuseWritten);
  }

  // ---------------------------------------------------------------- what the link sees

  /**
   * `k` resends of `cmd` where every resend but the first is preceded by
   * a disconnect and a reconnect.
   */
  function Resends(cmd: string, k: nat): seq<Event>
    requires k >= 1
  {
    if k == 1 then [Sent(cmd)] else [Sent(cmd), Disconnected, Reconnected] + Resends(cmd, k - 1)
  }

  /**
   * The reference pattern of `n` attempts: one send, one plain resend,
   * then resends each after a reconnect cycle (after failures 2, 3 and 4).
   */
  function RetryPattern(cmd: string, n: nat): seq<Event>
    requires n >= 1
  {
    if n == 1 then [Sent(cmd)] else [Sent(cmd)] + Resends(cmd, n - 1)
  }

  lemma {:induction false} RetryResends(cmd: string, script: seq<Reply>, pass: nat)
    requires 1 <= pass < MaxAttempts
    ensures var r := Retry(cmd, |cmd|, script, pass, false); r.events == Resends(cmd, r.attempts)
    decreases MaxAttempts - pass
  {
    assert cmd[..|cmd|] == cmd;
    if Next(script).status == Success || pass + 1 == MaxAttempts {
      RetryEnds(cmd, |cmd|, script, pass, false);
      assert Resends(cmd, 1) == [Sent(cmd)];
    } else {
      RetryStep(cmd, |cmd|, script, pass, false);
      RetryContinues(cmd, |cmd|, script, pass, false);
      RetryResends(cmd, Rest(script), pass + 1);
      var r' := Retry(cmd, |cmd|, Rest(script), pass + 1, false);
      assert [Sent(cmd)] + Cycle(pass) + r'.events == [Sent(cmd), Disconnected, Reconnected] + r'.events;
      assert Resends(cmd, r'.attempts + 1) == [Sent(cmd), Disconnected, Reconnected] + Resends(cmd, r'.attempts);
    }
  }

  /** `sendCmd` writes the whole command each time, with reconnect cycles exactly where the pattern puts them. */
  lemma ExchangeFollowsPattern(cmd: string, script: seq<Reply>)
    ensures var r := Exchange(cmd, script); r.events == RetryPattern(cmd, r.attempts)
  {
    assert cmd[..|cmd|] == cmd;
    var reply := Next(script);
    if reply.status != Success {
      RetryResends(cmd, Rest(script), 1);
      var r' := Retry(cmd, |cmd|, Rest(script), 1, false);
      assert Exchange(cmd, script).events == [Sent(cmd)] + r'.events;
    }
  }

  function CountDisconnects(events: seq<Event>): nat {
    if events == [] then 0 else (if events[0] == Disconnected then 1 else 0) + CountDisconnects(events[1..])
  }

  function CountSends(events: seq<Event>): nat {
    if events == [] then 0 else (if events[0].Sent? then 1 else 0) + CountSends(events[1..])
  }

  lemma {:induction false} CountsAppend(a: seq<Event>, b: seq<Event>)
    ensures CountDisconnects(a + b) == CountDisconnects(a) + CountDisconnects(b)
    ensures CountSends(a + b) == CountSends(a) + CountSends(b)
  {
    if a == [] {
      assert a + b == b;
    } else {
      assert (a + b)[1..] == a[1..] + b;
      CountsAppend(a[1..], b);
    }
  }

  lemma {:induction false} ResendsCounts(cmd: string, k: nat)
    requires k >= 1
    ensures CountSends(Resends(cmd, k)) == k && CountDisconnects(Resends(cmd, k)) == k - 1
  {
    if k > 1 {
      ResendsCounts(cmd, k - 1);
      var cycle := [Sent(cmd), Disconnected, Reconnected];
      assert cycle[1..] == [Disconnected, Reconnected] && cycle[1..][1..] == [Reconnected] && cycle[1..][1..][1..] == [];
      assert CountSends([Reconnected]) == 0 && CountDisconnects([Reconnected]) == 0;
      assert CountSends(cycle[1..]) == 0 && CountDisconnects(cycle[1..]) == 1;
      CountsAppend(cycle, Resends(cmd, k - 1));
    }
  }

  /** `n` attempts make `n` writes and `n - 2` reconnect cycles (none for one or two attempts). */
  lemma RetryPatternCounts(cmd: string, n: nat)
    requires n >= 1
    ensures CountSends(RetryPattern(cmd, n)) == n
    ensures CountDisconnects(RetryPattern(cmd, n)) == if n <= 2 then 0 else n - 2
  {
    if n > 1 {
      ResendsCounts(cmd, n - 1);
      assert [Sent(cmd)][1..] == [];
      CountsAppend([Sent(cmd)], Resends(cmd, n - 1));
    }
  }

  /** Five attempts: one plain resend, then three resends each after a reconnect cycle. */
  lemma FiveAttemptPattern(cmd: string)
    ensures RetryPattern(cmd, 5) == [Sent(cmd), Sent(cmd), Disconnected, Reconnected, Sent(cmd),
                                     Disconnected, Reconnected, Sent(cmd), Disconnected, Reconnected, Sent(cmd)]
  {
    assert Resends(cmd, 2) == [Sent(cmd), Disconnected, Reconnected, Sent(cmd)];
    assert Resends(cmd, 3) == [Sent(cmd), Disconnected, Reconnected] + Resends(cmd, 2);
    assert Resends(cmd, 4) == [Sent(cmd), Disconnected, Reconnected] + Resends(cmd, 3);
  }

  /** A link that never succeeds: five attempts and three reconnect cycles, the last failure returned. */
  lemma AlwaysFailingLink(cmd: string, script: seq<Reply>)
    requires forall j :: 0 <= j < MaxAttempts ==> Nth(script, j).status != Success
    ensures var r := Exchange(cmd, script);
      && r.attempts == 5
      && r.last == Nth(script, 4) && r.last.status != Success
      && r.events == [Sent(cmd), Sent(cmd), Disconnected, Reconnected, Sent(cmd),
                      Disconnected, Reconnected, Sent(cmd), Disconnected, Reconnected, Sent(cmd)]
  {
    var r := Exchange(cmd, script);
    RetryStopsAtFirstSuccess(cmd, script, false);
    assert Nth(script, r.attempts - 1).status != Success;
    assert r.attempts == 5;
    ExchangeFollowsPattern(cmd, script);
    FiveAttemptPattern(cmd);
  }

  /** Four failures then a success: success, on the fifth attempt, after three reconnect cycles. */
  lemma FourFailuresThenSuccess(cmd: string, script: seq<Reply>)
    requires forall j :: 0 <= j < 4 ==> Nth(script, j).status != Success
    requires Nth(script, 4).status == Success
    ensures var r := Exchange(cmd, script);
      && r.attempts == 5 && r.last.status == Success
      && CountDisconnects(r.events) == 3
  {
    RetryStopsAtFirstSuccess(cmd, script, false);
    ExchangeFollowsPattern(cmd, script);
    RetryPatternCounts(cmd, 5);
  }

  /** The reading loops behave as `sendCmd` as long as every failed write is reported complete. */
  lemma {:induction false} ReuseHarmlessOnFullWrites(cmd: string, len: nat, script: seq<Reply>, pass: nat)
    requires pass < MaxAttempts && len == |cmd|
    requires forall j :: 0 <= j < MaxAttempts - pass ==> Nth(script, j).written == AllWritten
    ensures Retry(cmd, len, script, pass, true) == Retry(cmd, len, script, pass, false)
    decreases MaxAttempts - pass
  {
    var reply := Next(script);
    assert reply == Nth(script, 0);
    if !(reply.status == Success || pass + 1 == MaxAttempts) {
      forall j | 0 <= j < MaxAttempts - (pass + 1)
        ensures Nth(Rest(script), j).written == AllWritten
      {
        assert Nth(Rest(script), j) == Nth(script, j + 1);
      }
      assert WrittenCount(reply, len) == len;
      ReuseHarmlessOnFullWrites(cmd, len, Rest(script), pass + 1);
    }
  }

  /** But a failed attempt that reports a short write makes the next attempt send only that much. */
  lemma ShortWriteShrinksRetry()
    ensures Retry("MST", 3, [Reply(AsynError, PartlyWritten(0), ""), Reply(Success, AllWritten, "0")], 0, true).events
         == [Sent("MST"), Sent("")]
  {
    var script := [Reply(AsynError, PartlyWritten(0), ""), Reply(Success, AllWritten, "0")];
    assert Next(script).status == AsynError && Rest(script) == [script[1]];
    var r' := Retry("MST", 0, [script[1]], 1, true);
    assert r'.events == [Sent("MST"[..0])];
    assert "MST"[..0] == "" && "MST"[..3] == "MST";
  }

  // ---------------------------------------------------------------- runs of exchanges

  /** A run of `sendCmd` calls: the status of the last one (`status0` when there are none). */
  datatype Session = Session(status: int, events: seq<Event>, rest: seq<Reply>)

  function Dialog(cmds: seq<string>, status0: int, script: seq<Reply>): Session
    decreases |cmds|
  {
    if cmds == [] then Session(status0, [], script)
    else
      var r := Exchange(cmds[0], script);
      var s := Dialog(cmds[1..], r.last.status, r.rest);
      Session(s.status, r.events + s.events, s.rest)
  }

  /** Each command written once, in order. */
  function Sends(cmds: seq<string>): (events: seq<Event>)
    ensures |events| == |cmds|
    ensures forall i :: 0 <= i < |cmds| ==> events[i] == Sent(cmds[i])
  {
    if cmds == [] then [] else [Sent(cmds[0])] + Sends(cmds[1..])
  }

  /** On a link that answers every command at once, a run sends exactly its commands, in order. */
  lemma {:induction false} ReliableDialog(cmds: seq<string>, status0: int, script: seq<Reply>)
    requires |cmds| <= |script|
    requires forall j :: 0 <= j < |cmds| ==> script[j].status == Success
    ensures var s := Dialog(cmds, status0, script);
      && s.events == Sends(cmds)
      && s.status == (if cmds == [] then status0 else Success)
      && s.rest == script[|cmds|..]
    decreases |cmds|
  {
    if cmds != [] {
      assert cmds[0][..|cmds[0]|] == cmds[0];
      assert Exchange(cmds[0], script) == Run(script[0], 1, [Sent(cmds[0])], script[1..]);
      assert forall j :: 0 <= j < |cmds| - 1 ==> script[1..][j] == script[j + 1];
      ReliableDialog(cmds[1..], Success, script[1..]);
      assert script[1..][|cmds| - 1..] == script[|cmds|..];
    }
  }

  /** A run that starts with `c` is the exchange of `c` followed by the run of the rest, from that exchange's status. */
  lemma DialogCons(c: string, cmds: seq<string>, status0: int, script: seq<Reply>)
    ensures var r := Exchange(c, script);
      var s := Dialog(cmds, r.last.status, r.rest);
      Dialog([c] + cmds, status0, script) == Session(s.status, r.events + s.events, s.rest)
  {
    assert ([c] + cmds)[1..] == cmds;
  }

  /**
   * Appending a command appends its exchange: the run's status becomes
   * that exchange's status (earlier failures are forgotten), and its
   * events follow the earlier ones.
   */
  lemma {:induction false} DialogSnoc(cmds: seq<string>, c: string, status0: int, script: seq<Reply>)
    ensures var s := Dialog(cmds, status0, script);
      var r := Exchange(c, s.rest);
      Dialog(cmds + [c], status0, script) == Session(r.last.status, s.events + r.events, r.rest)
    decreases |cmds|
  {
    if cmds == [] {
      assert cmds + [c] == [c];
      var r := Exchange(c, script);
      assert Dialog([c][1..], r.last.status, r.rest) == Session(r.last.status, [], r.rest);
      assert r.events + [] == [] + r.events;
    } else {
      var r0 := Exchange(cmds[0], script);
      assert (cmds + [c])[1..] == cmds[1..] + [c];
      DialogSnoc(cmds[1..], c, r0.last.status, r0.rest);
      var s' := Dialog(cmds[1..], r0.last.status, r0.rest);
      var r := Exchange(c, s'.rest);
      assert r0.events + (s'.events + r.events) == (r0.events + s'.events) + r.events;
    }
  }

  /** Only the run's own commands (whole) go over the link. */
  lemma {:induction false} RetrySendsOnly(cmd: string, script: seq<Reply>, pass: nat)
    requires pass < MaxAttempts
    ensures forall e :: e in Retry(cmd, |cmd|, script, pass, false).events && e.Sent? ==> e.bytes == cmd
    decreases MaxAttempts - pass
  {
    assert cmd[..|cmd|] == cmd;
    var reply := Next(script);
    if !(reply.status == Success || pass + 1 == MaxAttempts) {
      RetrySendsOnly(cmd, Rest(script), pass + 1);
    }
  }

  /** Whatever the write lengths, every write of the loop is a prefix of its command. */
  lemma {:induction false} RetryWritesPrefixes(cmd: string, len: nat, script: seq<Reply>, pass: nat, reuseWritten: bool)
    requires pass < MaxAttempts
    ensures forall e :: e in Retry(cmd, len, script, pass, reuseWritten).events && e.Sent? ==> e.bytes <= cmd
    decreases MaxAttempts - pass
  {
    var reply := Next(script);
    assert cmd[..Clip(cmd, len)] <= cmd;
    if !(reply.status == Success || pass + 1 == MaxAttempts) {
      RetryWritesPrefixes(cmd, NextLength(cmd, len, reply, reuseWritten), Rest(script), pass + 1, reuseWritten);
    }
  }

  lemma {:induction false} DialogSendsOnly(cmds: seq<string>, status0: int, script: seq<Reply>)
    ensures forall e :: e in Dialog(cmds, status0, script).events && e.Sent? ==> e.bytes in cmds
    decreases |cmds|
  {
    if cmds != [] {
      var r := Exchange(cmds[0], script);
      RetrySendsOnly(cmds[0], script, 0);
      DialogSendsOnly(cmds[1..], r.last.status, r.rest);
      forall e | e in Dialog(cmds, status0, script).events && e.Sent?
        ensures e.bytes in cmds
      {
        var s := Dialog(cmds[1..], r.last.status, r.rest);
        assert e in r.events || e in s.events;
        if e in s.events {
          assert e.bytes in cmds[1..];
        }
      }
    }
  }

  /** A link on which every exchange times out (an empty script is one). */
  predicate TimesOut(script: seq<Reply>) {
    forall j :: 0 <= j < |script| ==> script[j].status == Timeout
  }

  lemma {:induction false} RetryOnTimeoutLink(cmd: string, len: nat, script: seq<Reply>, pass: nat, reuseWritten: bool)
    requires pass < MaxAttempts && TimesOut(script)
    ensures var r := Retry(cmd, len, script, pass, reuseWritten);
      r.last.status == Timeout && TimesOut(r.rest)
    decreases MaxAttempts - pass
  {
    var reply := Next(script);
    if !(reply.status == Success || pass + 1 == MaxAttempts) {
      RetryOnTimeoutLink(cmd, NextLength(cmd, len, reply, reuseWritten), Rest(script), pass + 1, reuseWritten);
    }
  }

  /** On such a link every non-empty run ends in a timeout. */
  lemma {:induction false} DialogOnTimeoutLink(cmds: seq<string>, status0: int, script: seq<Reply>)
    requires TimesOut(script)
    ensures var s := Dialog(cmds, status0, script);
      s.status == (if cmds == [] then status0 else Timeout) && TimesOut(s.rest)
    decreases |cmds|
  {
    if cmds != [] {
      var r := Exchange(cmds[0], script);
      RetryOnTimeoutLink(cmds[0], |cmds[0]|, script, 0, false);
      DialogOnTimeoutLink(cmds[1..], r.last.status, r.rest);
    }
  }
}
