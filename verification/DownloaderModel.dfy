/** The receive loop of the shipped download client (examples/file_download.cpp). */
module DownloaderModel {
  import opened Types

  datatype DownloaderPhase = Receiving | Done | Failed

  datatype Downloader = Downloader(phase: DownloaderPhase, id: Md5, written: Bytes)

  datatype DownloaderResult = DownloaderResult(downloader: Downloader, sends: seq<Message>)

  function OnConnection(id: Md5): DownloaderResult {
    DownloaderResult(Downloader(Receiving, id, []), [DownloadRequest(id, [])])
  }

  function OnMessage(d: Downloader, msg: Message): DownloaderResult {
    match msg
    case TransferAllBlocks => DownloaderResult(d.(phase := Done), [])
    case TransferBlock(m, _, eof, _, content) =>
      DownloaderResult(d.(written := d.written + content), if eof then [TransferBlockAck(m)] else [])
    case _ => DownloaderResult(d.(phase := Failed), [])
  }

  /** A client that is receiving ends well on transfer_all_blocks, fails on anything but that and a piece, and goes on
      otherwise; it writes what pieces carry and acknowledges the last one of a block. */
  lemma AnyMessage(d: Downloader, msg: Message)
    requires d.phase == Receiving
    ensures
      var r := OnMessage(d, msg);
      && (r.downloader.phase == Done <==> msg.TransferAllBlocks?)
      && (r.downloader.phase == Failed <==> !msg.TransferAllBlocks? && !msg.TransferBlock?)
      && r.downloader.written == d.written + (if msg.TransferBlock? then msg.content else [])
      && r.sends == (if msg.TransferBlock? && msg.eof then [TransferBlockAck(msg.md5)] else [])
  {
    assert d.written + [] == d.written;
  }
}
