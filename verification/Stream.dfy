/** The two halves every endpoint has for a byte direction: a sender with its
    replay buffer, and the receive-offset test. */
module Stream {
  import opened Wire

  /** `next`, `ack`, the replay buffer and the offset of its first byte. */
  datatype Sender = Sender(next: nat, ack: nat, buf: seq<byte>, bufFrom: nat)

  const TWO_TO_64: nat := 0x1_0000_0000_0000_0000

  /** Subtraction of unsigned 64-bit numbers, with its wrap-around. */
  function Sub64(a: nat, b: nat): int {
    if b <= a then a - b else a - b + TWO_TO_64
  }

  datatype Advanced =
    | Moved(sender: Sender)
    | AheadOfSender
    | OutsideBuffer

  /** `advanceC2SAckLocked` and `advanceS2CAckLocked`. */
  function Advance(s: Sender, offset: nat): Advanced {
    if offset < s.ack then Moved(s)
    else if offset > s.next then AheadOfSender
    else
      var drop := Sub64(offset, s.bufFrom);
      if drop < 0 || drop > |s.buf| then OutsideBuffer
      else Moved(Sender(s.next, offset, s.buf[drop..], offset))
  }

  /** Appending bytes that were just read. */
  function Push(s: Sender, p: seq<byte>): Sender {
    s.(next := s.next + |p|, buf := s.buf + p)
  }

  const EMPTY_SENDER: Sender := Sender(0, 0, [], 0)

  /** The replay buffer is exactly the part of `stream` that is not acknowledged. */
  ghost predicate Tracks(s: Sender, stream: seq<byte>) {
    && s.next == |stream|
    && s.ack == s.bufFrom <= s.next
    && s.buf == stream[s.bufFrom..]
  }

  /** On a tracking sender an ack is refused exactly when it exceeds what was
      sent; the buffer test behind it, with its unsigned difference, never fires. */
  lemma AdvanceTracks(s: Sender, stream: seq<byte>, offset: nat)
    requires Tracks(s, stream)
    ensures Advance(s, offset).Moved? <==> offset <= |stream|
    ensures !Advance(s, offset).OutsideBuffer?
    ensures offset <= |stream| ==>
              var s' := Advance(s, offset).sender;
              Tracks(s', stream) && s'.ack == if offset < s.ack then s.ack else offset
    ensures offset <= |stream| ==> |Advance(s, offset).sender.buf| <= |s.buf|
  {
    if s.ack <= offset <= |stream| {
      assert s.buf[offset - s.bufFrom..] == stream[offset..];
    }
  }

  lemma PushTracks(s: Sender, stream: seq<byte>, p: seq<byte>)
    requires Tracks(s, stream)
    ensures Tracks(Push(s, p), stream + p)
  {
    assert (stream + p)[s.bufFrom..] == stream[s.bufFrom..] + p;
  }

  /** What the receiver makes of a data frame. */
  datatype Verdict = Fresh | Duplicate | Partial | Gap

  function Judge(rx: nat, offset: nat, len: nat): Verdict {
    if offset < rx then (if offset + len <= rx then Duplicate else Partial)
    else if offset > rx then Gap
    else Fresh
  }

  /** `seg` is the piece of `stream` that starts at `offset`. */
  ghost predicate Piece(stream: seq<byte>, offset: nat, seg: seq<byte>) {
    offset + |seg| <= |stream| && seg == stream[offset..offset + |seg|]
  }

  lemma PieceOfLonger(stream: seq<byte>, longer: seq<byte>, offset: nat, seg: seq<byte>)
    requires Piece(stream, offset, seg) && stream <= longer
    ensures Piece(longer, offset, seg)
  {
    assert longer[..|stream|] == stream;
    assert longer[offset..offset + |seg|] == stream[offset..offset + |seg|];
  }

  /** Writing a prefix of the fresh piece keeps the sink a prefix of the source. */
  lemma FreshKeepsPrefix(stream: seq<byte>, sink: seq<byte>, seg: seq<byte>, n: nat)
    requires sink <= stream && Piece(stream, |sink|, seg) && n <= |seg|
    ensures sink + seg[..n] <= stream
  {
    assert stream[..|sink|] == sink;
    assert stream[..|sink| + n] == stream[..|sink|] + stream[|sink|..|sink| + |seg|][..n];
  }

  /** The data frames `sendDataChunks` and `replayClientBytes` cut a buffer into. */
  function Chunks(session: Sid, epoch: nat, dir: Direction, offset: nat, data: seq<byte>): seq<Frame>
    decreases |data|
  {
    if data == [] then []
    else
      var n := if |data| < MAX_PAYLOAD then |data| else MAX_PAYLOAD;
      [Data(session, epoch, dir, offset, data[..n])] + Chunks(session, epoch, dir, offset + n, data[n..])
  }

  /** Every chunk but the last is of full size, and none is empty. */
  lemma {:induction false} ChunksAreFull(session: Sid, epoch: nat, dir: Direction, offset: nat, data: seq<byte>)
    ensures Full(Chunks(session, epoch, dir, offset, data))
    decreases |data|
  {
    if data != [] {
      var n := if |data| < MAX_PAYLOAD then |data| else MAX_PAYLOAD;
      ChunksAreFull(session, epoch, dir, offset + n, data[n..]);
      FullFrom(Data(session, epoch, dir, offset, data[..n]), Chunks(session, epoch, dir, offset + n, data[n..]));
    }
  }

  ghost predicate Full(chunks: seq<Frame>) {
    && (forall k | 0 <= k < |chunks| :: chunks[k].Data? && 0 < |chunks[k].payload| <= 1048576)
    && (forall k | 0 <= k < |chunks| - 1 :: |chunks[k].payload| == 1048576)
  }

  lemma FullFrom(f: Frame, rest: seq<Frame>)
    requires f.Data? && 0 < |f.payload| <= 1048576 && (rest == [] || |f.payload| == 1048576) && Full(rest)
    ensures Full([f] + rest)
  {
  }

  /** Every chunk is stamped as asked and is a piece of the stream the data came from. */
  lemma {:induction false} ChunksArePieces(session: Sid, epoch: nat, dir: Direction, offset: nat, data: seq<byte>,
                                           stream: seq<byte>)
    requires Piece(stream, offset, data)
    ensures forall f | f in Chunks(session, epoch, dir, offset, data) ::
              f.Data? && f.session == session && f.epoch == epoch && f.dir == dir && Piece(stream, f.offset, f.payload)
    decreases |data|
  {
    if data != [] {
      var n := if |data| < MAX_PAYLOAD then |data| else MAX_PAYLOAD;
      assert stream[offset..offset + |data|][..n] == stream[offset..offset + n];
      assert stream[offset..offset + |data|][n..] == stream[offset + n..offset + |data|];
      ChunksArePieces(session, epoch, dir, offset + n, data[n..], stream);
    }
  }
}
