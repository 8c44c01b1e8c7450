/** The objects the endpoints write to: the downstream writer and the two kinds
    of connection objects. What they do with a write is up to the environment. */
module Transport {
  import opened Wire
  import opened Stream

  /** stdout at the client, the target at the server. */
  class Writer {
    var contents: seq<byte>
    var closes: nat
    var stalls: nat        // how many writes failed or took nothing
    var shut: nat          // how often it was closed as a whole

    constructor ()
      ensures contents == [] && closes == 0 && stalls == 0 && shut == 0
    {
      contents, closes, stalls, shut := [], 0, 0, 0;
    }

    /** Takes some prefix of the bytes and may fail; both are the environment's choice. */
    method Write(p: seq<byte>) returns (n: nat, err: bool)
      modifies this`contents, this`stalls
      ensures n <= |p| && contents == old(contents) + p[..n] && stalls == old(stalls) + if err || n == 0 then 1 else 0
    {
      n :| 0 <= n <= |p|;
      err := *;
      contents := contents + p[..n];
      if err || n == 0 {
        stalls := stalls + 1;
      }
    }

    method CloseWrite()
      modifies this`closes
      ensures closes == old(closes) + 1
    {
      closes := closes + 1;
    }

    method Shut()
      modifies this`shut
      ensures shut == old(shut) + 1
    {
      shut := shut + 1;
    }
  }

  /** The server's map of sessions. */
  class Registry<T> {
    var entries: map<Sid, T>

    constructor ()
      ensures entries == map[]
    {
      entries := map[];
    }

    method Insert(sid: Sid, value: T)
      modifies this
      ensures entries == old(entries)[sid := value]
    {
      entries := entries[sid := value];
    }

    method Delete(sid: Sid)
      modifies this
      ensures entries == old(entries) - {sid}
    {
      entries := entries - {sid};
    }
  }

  /** `writeAll`: keeps writing until everything is taken, an error comes, or the
      writer takes nothing without saying why. */
  method WriteAll(w: Writer, p: seq<byte>) returns (written: nat, err: bool)
    modifies w`contents, w`stalls
    ensures written <= |p| && w.contents == old(w.contents) + p[..written]
    ensures !err ==> written == |p|
    ensures w.stalls == old(w.stalls) + if err then 1 else 0
  {
    written := 0;
    var rest := p;
    while |rest| > 0
      invariant written <= |p| && rest == p[written..]
      invariant w.contents == old(w.contents) + p[..written] && w.stalls == old(w.stalls)
      decreases |rest|
    {
      var n, failed := w.Write(rest);
      assert p[..written] + rest[..n] == p[..written + n];
      written := written + n;
      rest := rest[n..];
      if failed {
        return written, true;
      }
      if n == 0 {
        return written, true;
      }
    }
    err := false;
  }

  /** How much one send adds to the failures of its connection. */
  function Failed(ok: bool): nat {
    if ok then 0 else 1
  }

  function Failures(io: Io): nat {
    Failed(io.sendOk) + Failed(io.tailOk)
  }

  /** `clientConn` and `serverConn`: a connection with the epoch of its accept,
      at the server also with its session; `sent` is what got through, `failures`
      counts what did not. */
  class Link {
    const conn: Conn
    const session: Sid
    const epoch: nat
    var sent: seq<Frame>
    var failures: nat
    var shut: bool         // whether its WebSocket was closed

    constructor (conn: Conn, session: Sid, epoch: nat)
      ensures this.conn == conn && this.session == session && this.epoch == epoch
      ensures sent == [] && failures == 0 && !shut
    {
      this.conn, this.session, this.epoch := conn, session, epoch;
      sent, failures, shut := [], 0, false;
    }

    /** `writeFrame` on the bare WebSocket, as a hello goes out: nothing is filled in. */
    method WriteFrame(f: Frame) returns (ok: bool)
      modifies this`sent, this`failures
      ensures sent == old(sent) + if ok then [f] else []
      ensures failures == old(failures) + Failed(ok)
    {
      ok := *;
      if ok {
        sent := sent + [f];
      } else {
        failures := failures + 1;
      }
    }

    method Close()
      modifies this`shut
      ensures shut
    {
      shut := true;
    }

    /** `send`; only hellos do not come this way. */
    method Send(f: Frame) returns (ok: bool)
      requires !f.Hello?
      modifies this`sent, this`failures
      ensures sent == old(sent) + if ok then [Stamp(f, session, epoch)] else []
      ensures failures == old(failures) + Failed(ok)
    {
      ok := WriteFrame(Stamp(f, session, epoch));
    }
  }

  lemma NextOf(all: seq<Frame>, k: nat)
    requires k < |all|
    ensures all[k] == all[k..][0] && all[..k] + [all[k]] == all[..k + 1] && all[k..][1..] == all[k + 1..]
  {
  }

  /** `sendDataChunks`, and the loop of `replayClientBytes`: one frame per
      mebibyte, stopping at the first one that cannot be sent. */
  method SendDataChunks(link: Link, session: Sid, dir: Direction, offset: nat, data: seq<byte>) returns (ok: bool)
    modifies link`sent, link`failures
    ensures link.failures == old(link.failures) + Failed(ok)
    ensures var all := Chunks(if session == 0 then link.session else session, link.epoch, dir, offset, data);
            && (ok ==> link.sent == old(link.sent) + all)
            && (!ok ==> exists k | 0 <= k < |all| :: link.sent == old(link.sent) + all[..k])
  {
    ghost var all := Chunks(if session == 0 then link.session else session, link.epoch, dir, offset, data);
    ghost var before := link.sent;
    ghost var k := 0;
    var at: nat, rest := offset, data;
    while |rest| > 0
      invariant 0 <= k <= |all|
      invariant all[k..] == Chunks(if session == 0 then link.session else session, link.epoch, dir, at, rest)
      invariant link.sent == before + all[..k] && link.failures == old(link.failures)
      decreases |rest|
    {
      var n := if |rest| < MAX_PAYLOAD then |rest| else MAX_PAYLOAD;
      NextOf(all, k);
      var sentOk := link.Send(Data(session, 0, dir, at, rest[..n]));
      if !sentOk {
        return false;
      }
      k := k + 1;
      at := at + n;
      rest := rest[n..];
    }
    assert all[..k] == all;
    ok := true;
  }
}
