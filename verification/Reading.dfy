/** What a queue of frames does to the receive offset of the end that reads it. */
module Reading {
  import opened Wire
  import opened Stream

  /** Reading the queue with receive offset `rx`: the offset afterwards, or None
      when some data frame leaves a gap or overlaps partially, or some fin is not
      at the receive offset. */
  function Walk(q: seq<Frame>, rx: nat): Option<nat> {
    if q == [] then Some(rx)
    else
      match q[0]
      case Data(_, _, _, offset, payload) =>
        (match Judge(rx, offset, |payload|)
         case Fresh => Walk(q[1..], rx + |payload|)
         case Duplicate => Walk(q[1..], rx)
         case _ => None)
      case Fin(_, _, _, offset) => if offset == rx then Walk(q[1..], rx) else None
      case _ => Walk(q[1..], rx)
  }

  /** Frames that neither data nor fin: they leave every receive offset alone. */
  predicate Plain(f: Frame) {
    !f.Data? && !f.Fin?
  }

  lemma {:induction false} WalkPlain(q: seq<Frame>, rx: nat)
    requires forall f | f in q :: Plain(f)
    ensures Walk(q, rx) == Some(rx)
  {
    if q != [] {
      assert Plain(q[0]);
      WalkPlain(q[1..], rx);
    }
  }

  lemma {:induction false} WalkConcat(a: seq<Frame>, b: seq<Frame>, rx: nat)
    ensures Walk(a + b, rx) == match Walk(a, rx) case None => None case Some(m) => Walk(b, m)
  {
    if a == [] {
      assert a + b == b;
    } else {
      assert (a + b)[1..] == a[1..] + b;
      match a[0]
      case Data(_, _, _, offset, payload) =>
        WalkConcat(a[1..], b, if Judge(rx, offset, |payload|).Fresh? then rx + |payload| else rx);
      case _ => WalkConcat(a[1..], b, rx);
    }
  }

  lemma WalkPrefix(q: seq<Frame>, k: nat, rx: nat)
    requires k <= |q| && Walk(q, rx).Some?
    ensures Walk(q[..k], rx).Some?
  {
    assert q == q[..k] + q[k..];
    WalkConcat(q[..k], q[k..], rx);
  }

  lemma {:induction false} WalkChunks(session: Sid, epoch: nat, dir: Direction, offset: nat, data: seq<byte>)
    ensures Walk(Chunks(session, epoch, dir, offset, data), offset) == Some(offset + |data|)
    decreases |data|
  {
    if data != [] {
      var n := if |data| < MAX_PAYLOAD then |data| else MAX_PAYLOAD;
      var head := Data(session, epoch, dir, offset, data[..n]);
      var tail := Chunks(session, epoch, dir, offset + n, data[n..]);
      assert ([head] + tail)[1..] == tail;
      WalkChunks(session, epoch, dir, offset + n, data[n..]);
    }
  }

  // ---- an unbroken chain of data, as a fresh replay is ----

  /** Every data frame starts where the one before it ended, the first at `from`,
      and a fin, if any, stands at the end. */
  function Chain(q: seq<Frame>, from: nat): Option<nat> {
    if q == [] then Some(from)
    else
      match q[0]
      case Data(_, _, _, offset, payload) => if offset == from then Chain(q[1..], from + |payload|) else None
      case Fin(_, _, _, offset) =>
        if offset == from && (forall f | f in q[1..] :: !f.Data?) then Chain(q[1..], from) else None
      case _ => Chain(q[1..], from)
  }

  predicate Straddles(f: Frame, rx: nat) {
    f.Data? && f.offset < rx < f.offset + |f.payload|
  }

  lemma {:induction false} ChainGrows(q: seq<Frame>, from: nat)
    requires Chain(q, from).Some?
    ensures from <= Chain(q, from).value
    ensures forall f | f in q && f.Data? :: from <= f.offset && f.offset + |f.payload| <= Chain(q, from).value
    ensures forall f | f in q && f.Fin? :: f.offset == Chain(q, from).value
  {
    if q != [] {
      assert q == [q[0]] + q[1..];
      match q[0]
      case Data(_, _, _, offset, payload) => ChainGrows(q[1..], from + |payload|);
      case Fin(_, _, _, _) =>
        ChainGrows(q[1..], from);
        ChainWithoutData(q[1..], from);
      case _ => ChainGrows(q[1..], from);
    }
  }

  lemma {:induction false} ChainWithoutData(q: seq<Frame>, from: nat)
    requires forall f | f in q :: !f.Data?
    ensures Chain(q, from).Some? ==> Chain(q, from) == Some(from)
    ensures (forall f | f in q && f.Fin? :: f.offset == from) ==> Chain(q, from) == Some(from)
  {
    if q != [] {
      assert q[0] in q;
      assert forall f | f in q[1..] :: f in q;
      ChainWithoutData(q[1..], from);
    }
  }

  lemma {:induction false} ChainConcat(a: seq<Frame>, b: seq<Frame>, from: nat)
    requires Chain(a, from).Some?
    requires (exists f :: f in a && f.Fin?) ==> forall f | f in b :: !f.Data?
    ensures Chain(a + b, from) == Chain(b, Chain(a, from).value)
  {
    if a == [] {
      assert a + b == b;
    } else {
      assert (a + b)[1..] == a[1..] + b;
      assert a == [a[0]] + a[1..];
      assert (exists f :: f in a[1..] && f.Fin?) ==> exists f :: f in a && f.Fin?;
      match a[0]
      case Data(_, _, _, offset, payload) => ChainConcat(a[1..], b, from + |payload|);
      case Fin(_, _, _, _) =>
        assert a[0] in a && a[0].Fin?;
        ChainConcat(a[1..], b, from);
      case _ => ChainConcat(a[1..], b, from);
    }
  }

  lemma {:induction false} ChainPrefix(q: seq<Frame>, k: nat, from: nat)
    requires k <= |q| && Chain(q, from).Some?
    ensures Chain(q[..k], from).Some?
  {
    if k > 0 {
      assert q[..k][1..] == q[1..][..k - 1];
      match q[0]
      case Data(_, _, _, offset, payload) => ChainPrefix(q[1..], k - 1, from + |payload|);
      case _ => ChainPrefix(q[1..], k - 1, from);
    }
  }

  lemma {:induction false} ChainPlain(q: seq<Frame>, from: nat)
    requires forall f | f in q :: Plain(f)
    ensures Chain(q, from) == Some(from)
  {
    if q != [] {
      assert Plain(q[0]);
      ChainPlain(q[1..], from);
    }
  }

  lemma {:induction false} ChainChunks(session: Sid, epoch: nat, dir: Direction, offset: nat, data: seq<byte>)
    ensures Chain(Chunks(session, epoch, dir, offset, data), offset) == Some(offset + |data|)
    ensures forall f | f in Chunks(session, epoch, dir, offset, data) :: f.Data? && f.session == session
    decreases |data|
  {
    if data != [] {
      var n := if |data| < MAX_PAYLOAD then |data| else MAX_PAYLOAD;
      var head := Data(session, epoch, dir, offset, data[..n]);
      var tail := Chunks(session, epoch, dir, offset + n, data[n..]);
      assert ([head] + tail)[1..] == tail;
      ChainChunks(session, epoch, dir, offset + n, data[n..]);
    }
  }

  /** A reader that stands at or behind the start of a chain passes over it
      without an error exactly when no frame of it straddles the receive offset;
      it then ends at the end of the chain, or where it stood if that is further. */
  lemma {:induction false} WalkOverChain(q: seq<Frame>, from: nat, rx: nat)
    requires Chain(q, from).Some? && from <= rx
    requires forall f | f in q && f.Fin? :: rx <= f.offset
    ensures Walk(q, rx).Some? <==> forall f | f in q :: !Straddles(f, rx)
    ensures Walk(q, rx).Some? ==> Walk(q, rx).value == if rx < Chain(q, from).value then Chain(q, from).value else rx
    decreases |q|
  {
    if q == [] {
    } else {
      assert q == [q[0]] + q[1..];
      match q[0]
      case Data(_, _, _, offset, payload) =>
        if from == rx {
          WalkOverChain(q[1..], from + |payload|, from + |payload|) by { ChainGrows(q[1..], from + |payload|); }
          ChainGrows(q, from);
          NoStraddleAtStart(q, from);
          NoStraddleAtStart(q[1..], from + |payload|);
        } else if from + |payload| <= rx {
          WalkOverChain(q[1..], from + |payload|, rx);
        } else {
          assert q[0] in q && Straddles(q[0], rx);
        }
      case Fin(_, _, _, offset) =>
        assert q[0] in q;
        WalkOverChain(q[1..], from, rx);
        ChainWithoutData(q[1..], from);
      case _ => WalkOverChain(q[1..], from, rx);
    }
  }

  /** Read from its very start, a chain straddles nothing. */
  lemma NoStraddleAtStart(q: seq<Frame>, from: nat)
    requires Chain(q, from).Some?
    ensures forall f | f in q :: !Straddles(f, from)
  {
    ChainGrows(q, from);
  }
}
