/**
 * The asyn octet/common I/O the driver talks through, replaced by a
 * scripted oracle: each `writeRead` takes the next scripted reply, and
 * every write and every disconnect/reconnect is appended to a log.
 */
module AsynTransport {
  import opened ArcusTypes

  /** How much of the command a `writeRead` reports as written (its `nbytesOut`). */
  datatype Written = AllWritten | PartlyWritten(count: nat)

  /** One `writeRead` outcome: its asyn status, `nbytesOut`, and the bytes read (their length is `nbytesIn`). */
  datatype Reply = Reply(status: int, written: Written, data: string)

  /** What the link sees. */
  datatype Event = Sent(bytes: string) | Disconnected | Reconnected

  /** A device that never answers: the write goes out, the read times out empty. */
  const NoAnswer := Reply(Timeout, AllWritten, "")

  /** The reply the next `writeRead` gets from a script. */
  function Next(script: seq<Reply>): Reply {
    if script == [] then NoAnswer else script[0]
  }

  /** The script after one `writeRead`. */
  function Rest(script: seq<Reply>): seq<Reply> {
    if script == [] then [] else script[1..]
  }

  lemma NextOfCons(r: Reply, script: seq<Reply>)
    ensures Next([r] + script) == r && Rest([r] + script) == script
  {
  }

  /** `nbytesOut` of a reply to a write of `len` bytes. */
  function WrittenCount(r: Reply, len: nat): (n: nat)
    ensures n <= len
  {
    match r.written
    case AllWritten => len
    case PartlyWritten(k) => if k < len then k else len
  }

  class Transport {
    /** Replies still to come, in order. */
    var script: seq<Reply>
    /** Everything sent so far, with the reconnect cycles in between. */
    var log: seq<Event>
    /** What `disconnectDevice` and `connectDevice` report. */
    const linkStatus: int

    constructor (script: seq<Reply>, linkStatus: int)
      ensures this.script == script && log == [] && this.linkStatus == linkStatus
    {
      this.script := script;
      log := [];
      this.linkStatus := linkStatus;
    }

    /** `pasynOctetSyncIO->writeRead`. */
    method WriteRead(bytes: string) returns (reply: Reply)
      modifies this
      ensures reply == Next(old(script)) && script == Rest(old(script))
      ensures log == old(log) + [Sent(bytes)]
    {
      reply := Next(script);
      script := Rest(script);
      log := log + [Sent(bytes)];
    }

    /** `pasynCommonSyncIO->disconnectDevice`. */
    method DisconnectDevice() returns (status: int)
      modifies this
      ensures status == linkStatus && script == old(script)
      ensures log == old(log) + [Disconnected]
    {
      status := linkStatus;
      log := log + [Disconnected];
    }

    /** `pasynCommonSyncIO->connectDevice`. */
    method ConnectDevice() returns (status: int)
      modifies this
      ensures status == linkStatus && script == old(script)
      ensures log == old(log) + [Reconnected]
    {
      status := linkStatus;
      log := log + [Reconnected];
    }
  }
}
