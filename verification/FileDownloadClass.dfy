/** The download client's receive loop (examples/file_download.cpp), over all the messages it gets. */
module FileDownloadClass {
  import opened Types
  import opened FileBlocks
  import DM = DownloaderModel

  /** Handles `msgs` one after the other until the download has ended. */
  function HandleAll(d: DM.Downloader, msgs: seq<Message>): DM.DownloaderResult
    decreases |msgs|
  {
    if msgs == [] || d.phase != DM.Receiving then DM.DownloaderResult(d, [])
    else
      var r := DM.OnMessage(d, msgs[0]);
      var rest := HandleAll(r.downloader, msgs[1..]);
      DM.DownloaderResult(rest.downloader, r.sends + rest.sends)
  }

  class FileDownload {
    /** What has been written to the file, and what has been sent. */
    var written: Bytes
    var sends: seq<Message>

    constructor ()
      ensures written == [] && sends == []
    {
      written, sends := [], [];
    }

    method SendMessage(msg: Message)
      modifies `sends
      ensures sends == old(sends) + [msg]
    {
      sends := sends + [msg];
    }

    /** Asks for the file, then reads messages as long as there are any. */
    method Run(id: Md5, incoming: seq<Message>) returns (phase: DM.DownloaderPhase)
      requires written == [] && sends == []
      modifies this
      ensures
        var r := HandleAll(DM.OnConnection(id).downloader, incoming);
        && DM.Downloader(phase, id, written) == r.downloader
        && sends == DM.OnConnection(id).sends + r.sends
    {
      SendMessage(DownloadRequest(id, []));
      phase := DM.Receiving;
      ghost var all := HandleAll(DM.OnConnection(id).downloader, incoming);
      var i := 0;
      while i < |incoming| && phase == DM.Receiving
        invariant 0 <= i <= |incoming|
        invariant HandleAll(DM.Downloader(phase, id, written), incoming[i..]).downloader == all.downloader
        invariant sends + HandleAll(DM.Downloader(phase, id, written), incoming[i..]).sends == [DownloadRequest(id, [])] + all.sends
      {
        var message := incoming[i];
        assert incoming[i..][0] == message && incoming[i..][1..] == incoming[i + 1..];
        i := i + 1;
        if message.TransferAllBlocks? {
          phase := DM.Done;
        } else if !message.TransferBlock? {
          phase := DM.Failed;
        } else {
          written := written + message.content;
          if message.eof {
            SendMessage(TransferBlockAck(message.md5));
          }
        }
      }
    }
  }

  // ----- What the loop makes of a file's blocks -----

  /** The messages that transfer the blocks `ms` with contents `cs` to flow `f`. */
  function Transfer(ms: seq<Md5>, f: FlowId, cs: seq<Bytes>): seq<Message>
    requires |ms| == |cs|
  {
    if ms == [] then [TransferAllBlocks]
    else Pieces(ms[0], f, cs[0], 0, 0) + Transfer(ms[1..], f, cs[1..])
  }

  function Acks(ms: seq<Md5>): seq<Message> {
    seq(|ms|, i requires 0 <= i < |ms| => TransferBlockAck(ms[i]))
  }

  lemma {:induction false} HandlesBlock(d: DM.Downloader, m: Md5, f: FlowId, content: Bytes, offset: nat, index: nat, rest: seq<Message>)
    requires d.phase == DM.Receiving && offset <= |content|
    ensures
      var r := HandleAll(d.(written := d.written + content[offset..]), rest);
      HandleAll(d, Pieces(m, f, content, offset, index) + rest) == DM.DownloaderResult(r.downloader, [TransferBlockAck(m)] + r.sends)
    decreases |content| - offset
  {
    var all := Pieces(m, f, content, offset, index);
    assert (all + rest)[0] == all[0] && (all + rest)[1..] == all[1..] + rest;
    if offset + PIECE_SIZE < |content| {
      var next := d.(written := d.written + content[offset..offset + PIECE_SIZE]);
      assert all[1..] == Pieces(m, f, content, offset + PIECE_SIZE, index + 1);
      HandlesBlock(next, m, f, content, offset + PIECE_SIZE, index + 1, rest);
      assert d.written + content[offset..] == next.written + content[offset + PIECE_SIZE..];
    } else {
      assert all[1..] + rest == rest;
    }
  }

  /** The blocks of a file, sent in order, are written in order, each is acknowledged once and in order,
      and the loop ends as done. */
  lemma {:induction false} HandlesTransfer(d: DM.Downloader, ms: seq<Md5>, f: FlowId, cs: seq<Bytes>)
    requires d.phase == DM.Receiving && |ms| == |cs|
    ensures HandleAll(d, Transfer(ms, f, cs)) == DM.DownloaderResult(DM.Downloader(DM.Done, d.id, d.written + Flatten(cs)), Acks(ms))
    decreases |ms|
  {
    if ms == [] {
      assert Transfer(ms, f, cs)[1..] == [];
      assert d.written + Flatten(cs) == d.written;
      assert HandleAll(d, Transfer(ms, f, cs)).sends == Acks(ms);
    } else {
      var next := d.(written := d.written + cs[0]);
      HandlesBlock(d, ms[0], f, cs[0], 0, 0, Transfer(ms[1..], f, cs[1..]));
      assert cs[0][0..] == cs[0];
      HandlesTransfer(next, ms[1..], f, cs[1..]);
      assert d.written + Flatten(cs) == next.written + Flatten(cs[1..]);
      assert Acks(ms) == [TransferBlockAck(ms[0])] + Acks(ms[1..]);
    }
  }

  /** The acknowledgements of the pieces among `msgs` that end a block. */
  function EndAcks(msgs: seq<Message>): seq<Message> {
    if msgs == [] then []
    else (if msgs[0].TransferBlock? && msgs[0].eof then [TransferBlockAck(msgs[0].md5)] else []) + EndAcks(msgs[1..])
  }

  lemma HandlesOne(d: DM.Downloader, msgs: seq<Message>)
    requires msgs != [] && d.phase == DM.Receiving
    ensures
      var r := DM.OnMessage(d, msgs[0]);
      var rest := HandleAll(r.downloader, msgs[1..]);
      HandleAll(d, msgs) == DM.DownloaderResult(rest.downloader, r.sends + rest.sends)
  {
  }

  /** Whatever arrives: pieces are written in order, each end of a block is acknowledged, and the first message that is not
      a piece ends the loop, well if it is transfer_all_blocks and as a failure otherwise. Nothing behind it is read. */
  lemma {:induction false} HandlesUpTo(d: DM.Downloader, pieces: seq<Message>, last: Message, rest: seq<Message>)
    requires d.phase == DM.Receiving && !last.TransferBlock? && forall msg :: msg in pieces ==> msg.TransferBlock?
    ensures
      HandleAll(d, pieces + [last] + rest)
        == DM.DownloaderResult(
             DM.Downloader(if last.TransferAllBlocks? then DM.Done else DM.Failed, d.id, d.written + PayloadOf(pieces)), EndAcks(pieces))
    decreases |pieces|
  {
    var all := pieces + [last] + rest;
    if pieces == [] {
      assert all[0] == last;
      assert d.written + [] == d.written;
    } else {
      assert pieces[0] in pieces;
      assert all[0] == pieces[0] && all[1..] == pieces[1..] + [last] + rest;
      var next := DM.OnMessage(d, pieces[0]).downloader;
      HandlesUpTo(next, pieces[1..], last, rest);
      HandlesOne(d, all);
      assert d.written + PayloadOf(pieces) == next.written + PayloadOf(pieces[1..]);
    }
  }
}
