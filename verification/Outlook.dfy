/** How many bytes stdout can still come to hold, read off the queues that lead to it. */
module Outlook {
  import opened Wire
  import opened Stream
  import opened ClientModel
  import opened Reading
  import opened Fifo

  /** The client reads this frame and goes on. */
  predicate Taken(f: Frame, rx: nat) {
    match f
    case Data(_, _, _, offset, payload) => offset == rx || offset + |payload| <= rx
    case Fin(_, _, _, offset) => offset == rx
    case Ack(_, _, _, _) => true
    case _ => f.Unstamped()
  }

  function RxAfter(f: Frame, rx: nat): nat {
    if f.Data? && f.offset == rx then rx + |f.payload| else rx
  }

  /** A write error of stdout inside this frame leaves it at `m`. */
  predicate StopsAt(f: Frame, rx: nat, m: nat) {
    f.Data? && f.offset == rx < m < rx + |f.payload|
  }

  /** Whether stdout can get from `rx` bytes to `m`, when `q` waits on the active
      connection and `h` behind the accept of a pending handshake: by reading `q`
      on, and by committing the handshake at some point and reading `h` instead. */
  predicate Comes(q: seq<Frame>, h: Option<seq<Frame>>, rx: nat, m: nat)
    decreases h.Some?, |q|
  {
    || rx == m
    || (h.Some? && Comes(h.value, None, rx, m))
    || (q != [] && (StopsAt(q[0], rx, m) || (Taken(q[0], rx) && Comes(q[1..], h, RxAfter(q[0], rx), m))))
  }

  /** What waits on the active connection. */
  function Ahead(s: Fifo): seq<Frame> {
    if s.net.client.active.Some? then Queue(s.downQ, s.net.client.active.value) else []
  }

  function Committable(q: seq<Frame>): Option<seq<Frame>> {
    if q != [] && q[0].Accept? then Some(q[1..]) else None
  }

  /** What waits behind the accept of the pending handshake, if that has come. */
  function Behind(s: Fifo): Option<seq<Frame>> {
    if s.net.hand.Some? && !s.net.client.finished then Committable(Queue(s.downQ, s.net.hand.value.conn)) else None
  }

  /** Whether stdout can still come to hold `m` bytes without anything new from the server. */
  predicate Coming(s: Fifo, m: nat) {
    Comes(Ahead(s), Behind(s), s.net.client.rx, m)
  }

  // ---- queues that bring no more than others ----

  /** A queue that is longer brings no less. */
  lemma {:induction false} ComesOfMore(q: seq<Frame>, h: Option<seq<Frame>>, q': seq<Frame>, h': Option<seq<Frame>>,
                                       rx: nat, m: nat)
    requires Comes(q, h, rx, m) && q <= q' && (h.Some? ==> h'.Some? && h.value <= h'.value)
    ensures Comes(q', h', rx, m)
    decreases h.Some?, |q|
  {
    if rx != m {
      if h.Some? && Comes(h.value, None, rx, m) {
        ComesOfMore(h.value, None, h'.value, None, rx, m);
      } else if !StopsAt(q[0], rx, m) {
        ComesOfMore(q[1..], h, q'[1..], h', RxAfter(q[0], rx), m);
      }
    }
  }

  predicate Chatter(q: seq<Frame>) {
    forall f | f in q :: f.Unstamped()
  }

  function With(h: Option<seq<Frame>>, more: seq<Frame>): Option<seq<Frame>> {
    if h.Some? then Some(h.value + more) else None
  }

  /** Errors, pings and pongs at the end of a queue bring nothing. */
  lemma {:induction false} ComesOfChatter(q: seq<Frame>, j: seq<Frame>, h: Option<seq<Frame>>, k: seq<Frame>,
                                          rx: nat, m: nat)
    requires Chatter(j) && Chatter(k) && Comes(q + j, With(h, k), rx, m)
    ensures Comes(q, h, rx, m)
    decreases h.Some?, |q| + |j|
  {
    if rx != m {
      if h.Some? && Comes(h.value + k, None, rx, m) {
        ComesOfChatter(h.value, k, None, [], rx, m);
      } else if q == [] {
        assert q + j == j && j[0] in j && [] + j[1..] == j[1..];
        ComesOfChatter([], j[1..], h, k, rx, m);
      } else {
        assert (q + j)[0] == q[0] && (q + j)[1..] == q[1..] + j;
        if !StopsAt(q[0], rx, m) {
          ComesOfChatter(q[1..], j, h, k, RxAfter(q[0], rx), m);
        }
      }
    }
  }

  /** Without data nothing comes. */
  lemma {:induction false} ComesOfNothing(q: seq<Frame>, h: Option<seq<Frame>>, rx: nat, m: nat)
    requires Comes(q, h, rx, m)
    requires (forall f | f in q :: !f.Data?) && (h.Some? ==> forall f | f in h.value :: !f.Data?)
    ensures rx == m
    decreases h.Some?, |q|
  {
    if rx != m {
      if h.Some? && Comes(h.value, None, rx, m) {
        ComesOfNothing(h.value, None, rx, m);
      } else {
        assert q[0] in q;
        ComesOfNothing(q[1..], h, rx, m);
      }
    }
  }

  /** A queue the client can walk over brings what a fin in it stands for, if
      nothing before the fin ends the client. */
  lemma {:induction false} FinComes(q: seq<Frame>, k: nat, h: Option<seq<Frame>>, rx: nat)
    requires k < |q| && q[k].Fin? && Walk(q, rx).Some?
    requires forall i | 0 <= i < k :: !q[i].Close? && !q[i].Accept? && !q[i].Hello?
    ensures Comes(q, h, rx, q[k].offset)
  {
    if k > 0 {
      assert Walk(q[1..], RxAfter(q[0], rx)).Some? && Taken(q[0], rx);
      assert q[1..][k - 1] == q[k] && forall i | 0 <= i < k - 1 :: q[1..][i] == q[i + 1];
      FinComes(q[1..], k - 1, h, RxAfter(q[0], rx));
    }
  }

  // ---- one frame at the client ----

  /** What a frame that waits on the active connection is. */
  ghost predicate Fits(cl: Client, c: Conn, f: Frame) {
    && cl.active == Some(c) && !cl.finished && !f.Hello?
    && (f.Unstamped() ==> f.Epoch() != cl.epoch)
    && (!f.Unstamped() ==> Current(cl, c, f))
    && (f.Data? || f.Fin? ==> f.dir == ServerToClient)
    && (f.Ack? ==> f.dir == ClientToServer && Advance(cl.snd, f.received).Moved?)
  }

  /** Where reading it leaves the client: going on behind it, or ended. */
  lemma AfterRead(cl: Client, c: Conn, epoch: nat, f: Frame, io: Io)
    requires Fits(cl, c, f)
    ensures var c' := Receive(cl, c, epoch, f, io).client;
            if c'.finished then
              c'.active.None? && (c'.rx == cl.rx || c'.rx == RxAfter(f, cl.rx) || StopsAt(f, cl.rx, c'.rx))
              && (c'.rx != cl.rx ==> Taken(f, cl.rx))
            else
              c'.active == cl.active && Taken(f, cl.rx) && c'.rx == RxAfter(f, cl.rx)
  {
  }

  /** When nothing goes wrong it goes on behind every frame it takes. */
  lemma GoesOn(cl: Client, c: Conn, epoch: nat, f: Frame)
    requires Fits(cl, c, f) && Taken(f, cl.rx)
    ensures var c' := Receive(cl, c, epoch, f, FINE).client;
            && c'.active == cl.active && !c'.finished && c'.rx == RxAfter(f, cl.rx)
            && c'.stdin == cl.stdin && c'.session == cl.session
  {
  }

  /** And a write error stops it inside a frame where it likes. */
  lemma StopsThere(cl: Client, c: Conn, epoch: nat, f: Frame, m: nat)
    requires Fits(cl, c, f) && StopsAt(f, cl.rx, m)
    ensures var c' := Receive(cl, c, epoch, f, Io(m - cl.rx, true, true, true)).client;
            c'.rx == m && c'.stdin == cl.stdin && c'.session == cl.session
  {
  }

  /** Reading a frame brings nothing that was not coming. */
  lemma ReadBack(cl: Client, c: Conn, epoch: nat, q: seq<Frame>, h: Option<seq<Frame>>, io: Io, m: nat)
    requires q != [] && Fits(cl, c, q[0])
    requires var c' := Receive(cl, c, epoch, q[0], io).client;
             Comes(if c'.active.Some? then q[1..] else [], if c'.finished then None else h, c'.rx, m)
    ensures Comes(q, h, cl.rx, m)
  {
    AfterRead(cl, c, epoch, q[0], io);
  }
}
