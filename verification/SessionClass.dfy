/** One end of a TCP connection (src/common/asio_wrapper/session.cpp): a coalescing write queue with one
    write in flight, and a reader of length-prefixed frames. The socket is two byte queues. */
module SessionClass {
  import opened Types
  import opened Framing

  datatype ReadState = NotReading | ReadingLength | ReadingBody

  datatype ConnectionState = Connected | LengthError | ReadZero | ReadError | WriteError

  /** Completed writes, the write in flight and the queued buffers are together the frames of everything
      sent, in order; and unless a write is under way there is nothing left to write. */
  ghost predicate QueueOk(written: Bytes, inFlight: Bytes, writeBufs: seq<Bytes>, sent: seq<Bytes>, writing: bool) {
    && written + inFlight + Flatten(writeBufs) == Frames(sent)
    && (!writing ==> inFlight == [] && writeBufs == [])
  }

  /** What the reads have taken is the frames of what was delivered and the start `pending` of one more:
      nothing, the length of a body not yet read, or a length that did not fit. */
  ghost predicate TakenOk(taken: Bytes, delivered: seq<Bytes>, pending: Bytes, reading: ReadState, length: nat, state: ConnectionState) {
    && taken == Frames(delivered) + pending && Fits(delivered)
    && (match reading
        case ReadingBody => length <= MAX_LENGTH && pending == ToNetwork(length)
        case ReadingLength => pending == [] && state != LengthError
        case NotReading =>
          match state
          case LengthError => |pending| == 4 && TooLong(pending)
          case ReadZero => pending == [] || (length <= MAX_LENGTH && pending == ToNetwork(length))
          case ReadError => pending == [] || (length <= MAX_LENGTH && pending == ToNetwork(length))
          case _ => pending == [])
  }

  lemma FlattenTwoMore(bufs: seq<Bytes>, a: Bytes, b: Bytes)
    ensures Flatten(bufs + [a] + [b]) == Flatten(bufs) + (a + b)
  {
    FlattenAppend(bufs + [a], [b]);
    FlattenAppend(bufs, [a]);
    assert Flatten([a]) == a && Flatten([b]) == b by {
      assert [a][1..] == [] && [b][1..] == [];
    }
    Regroup(Flatten(bufs), a, b);
  }

  lemma Regroup<T>(a: seq<T>, b: seq<T>, c: seq<T>)
    ensures a + b + c == a + (b + c)
  {
  }

  lemma QueueOneMore(written: Bytes, inFlight: Bytes, bufs: seq<Bytes>, sent: seq<Bytes>, content: Bytes)
    requires written + inFlight + Flatten(bufs) == Frames(sent)
    ensures written + inFlight + Flatten(bufs + [ToNetwork(|content|)] + [content]) == Frames(sent + [content])
  {
    var frame := Frame(content);
    FramesOneMore(sent, content);
    FlattenTwoMore(bufs, ToNetwork(|content|), content);
    Regroup(written + inFlight, Flatten(bufs), frame);
  }

  lemma TakenOneMore(delivered: seq<Bytes>, message: Bytes)
    requires Fits(delivered) && |message| <= MAX_LENGTH
    ensures Frames(delivered) + ToNetwork(|message|) + message == Frames(delivered + [message]) && Fits(delivered + [message])
  {
    FramesOneMore(delivered, message);
  }

  class Session {
    var length: nat
    const data: array<byte>
    var writing: bool
    var writeBufs: seq<Bytes>
    var haveClosed: bool
    var state: ConnectionState

    /** The asynchronous operations under way: the read asked for, and the bytes given to the write. */
    var reading: ReadState
    var inFlight: Bytes
    /** What the socket has received and no read has taken. */
    var arrived: Bytes

    ghost var sent: seq<Bytes>          // the contents given to do_write, in call order
    ghost var written: Bytes            // the bytes of completed writes
    ghost var taken: Bytes              // the bytes taken by completed reads
    ghost var delivered: seq<Bytes>     // the messages handed to on_message_
    ghost var pending: Bytes

    ghost predicate WriterOk()
      reads `written, `inFlight, `writeBufs, `sent, `writing
    {
      QueueOk(written, inFlight, writeBufs, sent, writing)
    }

    ghost predicate ReaderOk()
      reads `taken, `delivered, `pending, `reading, `length, `state, `haveClosed
    {
      && data.Length == 65535
      && TakenOk(taken, delivered, pending, reading, length, state)
      && (state == LengthError ==> haveClosed)
      && (reading != NotReading ==> state == if haveClosed then WriteError else Connected)
    }

    constructor ()
      ensures WriterOk() && ReaderOk() && fresh(data)
      ensures sent == [] && written == [] && taken == [] && delivered == [] && arrived == []
      ensures !writing && !haveClosed && reading == NotReading && state == Connected
    {
      length, writing, writeBufs, haveClosed := 0, false, [], false;
      data := new byte[65535];
      reading, inFlight, arrived, state := NotReading, [], [], Connected;
      sent, written, taken, delivered, pending := [], [], [], [], [];
    }

    // ----- Writing -----

    /** Gathers the queued buffers into the buffers of one write. */
    method Gather() returns (bufs: Bytes)
      ensures bufs == Flatten(writeBufs)
    {
      bufs := [];
      var i := 0;
      while i < |writeBufs|
        invariant 0 <= i <= |writeBufs|
        invariant bufs == Flatten(writeBufs[..i])
      {
        assert writeBufs[..i + 1] == writeBufs[..i] + [writeBufs[i]];
        FlattenAppend(writeBufs[..i], [writeBufs[i]]);
        assert [writeBufs[i]][1..] == [];
        bufs := bufs + writeBufs[i];
        i := i + 1;
      }
      assert writeBufs[..i] == writeBufs;
    }

    /** Queues the frame of `content`, and starts a write if none is under way. */
    method DoWrite(content: Bytes)
      requires WriterOk()
      modifies `sent, `writeBufs, `writing, `inFlight
      ensures WriterOk() && writing
      ensures sent == old(sent) + [content]
      ensures old(writing) ==> inFlight == old(inFlight) && writeBufs == old(writeBufs) + [ToNetwork(|content|)] + [content]
      ensures !old(writing) ==> inFlight == Frame(content) && writeBufs == []
    {
      QueueOneMore(written, inFlight, writeBufs, sent, content);
      sent := sent + [content];
      writeBufs := writeBufs + [ToNetwork(|content|)];
      writeBufs := writeBufs + [content];
      if !writing {
        FlattenTwoMore([], ToNetwork(|content|), content);
        var bufs := Gather();
        writeBufs := [];
        writing := true;
        inFlight := bufs;
      }
    }

    /** The write in flight has completed: another one is started for what has been queued meanwhile, or
        on_write_complete_ is called. It is called exactly when `writing` goes from true to false, and
        then everything sent has been written. */
    method WriteCompletes() returns (complete: bool)
      requires WriterOk() && writing
      modifies `written, `writeBufs, `writing, `inFlight
      ensures WriterOk()
      ensures complete == !writing == (old(writeBufs) == [])
      ensures complete ==> written == Frames(sent)
      ensures written == old(written) + old(inFlight)
      ensures !complete ==> inFlight == Flatten(old(writeBufs)) && writeBufs == []
    {
      written := written + inFlight;
      var bufs := Gather();
      if writeBufs == [] {
        writing := false;
        complete := true;
      } else {
        writeBufs := [];
        complete := false;
      }
      inFlight := bufs;
    }

    /** onClose: the close event fires once. */
    method OnClose() returns (closes: bool)
      modifies `haveClosed
      ensures haveClosed && closes == !old(haveClosed)
    {
      closes := !haveClosed;
      haveClosed := true;
    }

    /** A write has failed. The read asked for, if any, is left to fail on the closed socket. */
    method WriteFails() returns (closes: bool)
      requires ReaderOk() && writing && state == Connected
      modifies `state, `haveClosed
      ensures ReaderOk() && haveClosed && state == WriteError && closes == !old(haveClosed)
    {
      state := WriteError;
      closes := OnClose();
    }

    // ----- Reading -----

    /** read_next_message: asks for one more message. */
    method ReadNextMessage()
      requires ReaderOk() && reading == NotReading && !haveClosed && state == Connected
      modifies `reading
      ensures ReaderOk() && reading == ReadingLength
    {
      reading := ReadingLength;
    }

    /** Bytes arrive, in chunks of any size. */
    method Arrive(chunk: Bytes)
      modifies `arrived
      ensures arrived == old(arrived) + chunk
    {
      arrived := arrived + chunk;
    }

    /** Whether the bytes of the read asked for have all arrived. */
    predicate CanComplete()
      reads `reading, `arrived, `length
    {
      match reading
      case NotReading => false
      case ReadingLength => |arrived| >= 4
      case ReadingBody => |arrived| >= length
    }

    /** read_length's completion: a body is asked for, or the connection is closed if its length does not
        fit the buffer, and then nothing further is delivered. */
    method LengthRead() returns (closes: bool)
      requires ReaderOk() && reading == ReadingLength && CanComplete() && !haveClosed
      modifies `length, `reading, `state, `haveClosed, `arrived, `taken, `pending
      ensures ReaderOk()
      ensures taken == old(taken) + old(arrived)[..4] && arrived == old(arrived)[4..]
      ensures
        var w := old(arrived);
        length == w[0] as nat * 16777216 + w[1] as nat * 65536 + w[2] as nat * 256 + w[3] as nat == Length(w)
      ensures closes == (length > data.Length - 1) == TooLong(old(arrived)) && data.Length == 65535
      ensures if closes then haveClosed && state == LengthError && reading == NotReading
              else !haveClosed && state == Connected && reading == ReadingBody
    {
      var word := arrived[..4];
      taken, pending, arrived := taken + word, word, arrived[4..];
      length := Number(word);
      NetworkRoundTrip(0, word);
      NumberIs(word);
      if length > MAX_LENGTH {
        assert word[..4] == word;
        reading, state := NotReading, LengthError;
        closes := OnClose();
      } else {
        reading := ReadingBody;
        closes := false;
      }
    }

    /** read_body's completion: the body is copied into the buffer and on_message_ is called with it. */
    method BodyRead()
      requires ReaderOk() && reading == ReadingBody && CanComplete() && !haveClosed
      modifies `reading, `arrived, `taken, `pending, `delivered, data
      ensures ReaderOk() && reading == NotReading && state == Connected && !haveClosed
      ensures length <= data.Length && data[..length] == old(arrived)[..length]
      ensures delivered == old(delivered) + [old(arrived)[..length]]
      ensures taken == old(taken) + old(arrived)[..length] && arrived == old(arrived)[length..]
    {
      var i := 0;
      while i < length
        invariant 0 <= i <= length <= data.Length
        invariant data[..i] == arrived[..i]
        modifies data
      {
        data[i] := arrived[i];
        i := i + 1;
      }
      ghost var message := arrived[..length];
      TakenOneMore(delivered, message);
      delivered := delivered + [message];
      taken, pending, arrived := taken + message, [], arrived[length..];
      reading := NotReading;
    }

    /** The read asked for fails, at the end of the stream or otherwise: nothing further is delivered, and the close
        event fires unless it has before. */
    method ReadFails(endOfStream: bool) returns (closes: bool)
      requires ReaderOk() && reading != NotReading && (endOfStream ==> !CanComplete())
      modifies `reading, `state, `haveClosed
      ensures ReaderOk() && haveClosed && closes == !old(haveClosed) && reading == NotReading
      ensures state == if endOfStream then ReadZero else ReadError
    {
      reading, state := NotReading, if endOfStream then ReadZero else ReadError;
      closes := OnClose();
    }
  }

  // ----- Whole streams -----

  /** No read that has been asked for can complete, and one has been asked for unless the connection is
      closed for a length that does not fit. */
  ghost predicate Settled(s: Session)
    reads s
  {
    !s.CanComplete() && Asking(s)
  }

  ghost predicate Asking(s: Session)
    reads s
  {
    && (s.state == Connected || s.state == LengthError)
    && (s.haveClosed <==> s.state == LengthError) && (s.haveClosed <==> s.reading == NotReading)
  }

  lemma RestIncomplete(pending: Bytes, reading: ReadState, length: nat, state: ConnectionState, arrived: Bytes)
    requires
      match reading
      case ReadingBody => length <= MAX_LENGTH && pending == ToNetwork(length) && |arrived| < length && state != LengthError
      case ReadingLength => pending == [] && |arrived| < 4 && state != LengthError
      case NotReading => |pending| == 4 && TooLong(pending) && state == LengthError
    ensures !Complete(pending + arrived)
    ensures state == LengthError <==> TooLong(pending + arrived)
  {
    var rest := pending + arrived;
    if pending == [] {
      assert |rest| < 4;
    } else {
      assert rest[..4] == pending == pending[..4];
      if reading == ReadingBody {
        NetworkRoundTrip(length, pending);
        assert Length(rest) == length;
      }
    }
  }

  lemma SettledIs(taken: Bytes, delivered: seq<Bytes>, pending: Bytes, reading: ReadState, length: nat, state: ConnectionState, arrived: Bytes)
    requires TakenOk(taken, delivered, pending, reading, length, state)
    requires reading == ReadingLength ==> |arrived| < 4
    requires reading == ReadingBody ==> |arrived| < length
    requires reading == NotReading <==> state == LengthError
    ensures delivered == Parsed(taken + arrived)
    ensures state == LengthError <==> TooLong(Unparsed(taken + arrived))
  {
    Regroup(Frames(delivered), pending, arrived);
    ParseFrames(delivered, pending + arrived);
    RestIncomplete(pending, reading, length, state, arrived);
    assert delivered + [] == delivered;
  }

  lemma SettledParsed(s: Session)
    requires s.ReaderOk() && Settled(s)
    ensures s.delivered == Parsed(s.taken + s.arrived)
    ensures s.haveClosed <==> TooLong(Unparsed(s.taken + s.arrived))
  {
    SettledIs(s.taken, s.delivered, s.pending, s.reading, s.length, s.state, s.arrived);
  }

  lemma Splits<T>(a: seq<T>, b: seq<T>, k: nat)
    requires k <= |b|
    ensures a + b[..k] + b[k..] == a + b
  {
    assert b == b[..k] + b[k..];
  }

  /** Completes reads, and asks for the next message after each, as long as bytes are there for it. */
  method Settle(s: Session)
    requires s.ReaderOk() && Asking(s)
    modifies s, s.data
    ensures s.ReaderOk() && Settled(s) && s.taken + s.arrived == old(s.taken + s.arrived)
  {
    while s.CanComplete()
      invariant s.ReaderOk() && Asking(s) && s.taken + s.arrived == old(s.taken + s.arrived)
      decreases |s.arrived|, s.reading == ReadingBody
    {
      ghost var taken, arrived := s.taken, s.arrived;
      if s.reading == ReadingLength {
        Splits(taken, arrived, 4);
        var _ := s.LengthRead();
      } else {
        Splits(taken, arrived, s.length);
        s.BodyRead();
        s.ReadNextMessage();
      }
    }
  }

  /** A reader that asks for the next message after each one. Whatever the chunks, it delivers exactly the
      messages whose frames are complete in what has arrived, in order, and closes exactly at a length that
      does not fit. */
  method ReceiveAll(s: Session, chunks: seq<Bytes>)
    requires s.ReaderOk() && !s.haveClosed && s.reading == ReadingLength && s.taken == [] && s.arrived == []
    modifies s, s.data
    ensures s.ReaderOk() && Settled(s)
    ensures s.delivered == Parsed(Flatten(chunks))
    ensures s.haveClosed <==> TooLong(Unparsed(Flatten(chunks)))
  {
    var i := 0;
    while i < |chunks|
      invariant 0 <= i <= |chunks|
      invariant s.ReaderOk() && Settled(s) && s.taken + s.arrived == Flatten(chunks[..i])
    {
      FlattenNext(chunks, i);
      assert s.taken + (s.arrived + chunks[i]) == (s.taken + s.arrived) + chunks[i];
      s.Arrive(chunks[i]);
      Settle(s);
      i := i + 1;
    }
    assert chunks[..i] == chunks;
    SettledParsed(s);
  }

  lemma FlattenNext(chunks: seq<Bytes>, i: nat)
    requires i < |chunks|
    ensures Flatten(chunks[..i + 1]) == Flatten(chunks[..i]) + chunks[i]
  {
    assert chunks[..i + 1] == chunks[..i] + [chunks[i]];
    FlattenAppend(chunks[..i], [chunks[i]]);
    assert [chunks[i]][1..] == [];
  }

  /** Two ends make a FIFO channel. The bytes of the write in flight may arrive before its completion is handled.
      Whatever part of the bytes written or in flight at one end has arrived at the other, what the other has delivered
      is a prefix of what the one has sent; and it is everything once nothing is queued and all has arrived. */
  lemma SessionsAreFifo(w: Session, r: Session)
    requires w.WriterOk() && r.ReaderOk() && Settled(r) && Fits(w.sent)
    requires r.taken + r.arrived <= w.written + w.inFlight
    ensures r.delivered <= w.sent && !r.haveClosed
    ensures w.writeBufs == [] && r.taken + r.arrived == w.written + w.inFlight ==> r.delivered == w.sent
  {
    SettledParsed(r);
    var all := Frames(w.sent);
    assert all == (w.written + w.inFlight) + Flatten(w.writeBufs);
    PrefixParsed(w.sent, r.taken + r.arrived);
  }
}
