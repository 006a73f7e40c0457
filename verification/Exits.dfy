/** The ways out of the handlers, in any state, also those that no run reaches: when a process ends, and when it closes a
    session. */
module Exits {
  import opened Types
  import opened FileBlocks
  import SM = ServerModel
  import AM = AgentModel
  import opened ProxyModel

  // ----- The agent -----

  /** Sending a piece ends the process if the block list is exhausted, the position is beyond any block, the md5 is none of
      the file's, the position is beyond the block, or a block ends in a state other than uploading. */
  lemma AgentExitsExactly(a: AM.Agent)
    ensures
      AM.SendBlockPiece(a).outcome == Exit <==>
        && a.upload != []
        && (|| a.current >= |a.upload| || a.offset >= 67108864
            || (forall b :: b in a.blocks ==> b.md5 != a.upload[a.current])
            || (var found := AM.Find(a.blocks, a.upload[a.current]);
                && found.Some? && a.offset + 4096 >= found.value.length
                && (a.offset > found.value.length || a.phase != AM.UploadingBlocks)))
    ensures AM.SendBlockPiece(a).outcome != Close
  {
    if a.upload != [] && a.current < |a.upload| {
      FindSome(a.blocks, a.upload[a.current]);
    }
  }

  lemma {:induction false} FindSome(blocks: seq<Block>, m: Md5)
    ensures AM.Find(blocks, m).Some? <==> exists b :: b in blocks && b.md5 == m
  {
    if blocks != [] {
      FindSome(blocks[1..], m);
      assert blocks == [blocks[0]] + blocks[1..];
      assert blocks[0] in blocks;
    }
  }

  // ----- The server -----

  /** Sending a piece ends the process if the block of the lowest flow is not cached, is not in use, or is shorter than
      what has been sent of it. */
  lemma SendPieceExitsExactly(sv: SM.Server)
    ensures
      SM.SendPiece(sv).outcome == Exit <==>
        exists f :: SM.IsLowest(f, sv.downloads.Keys)
          && var d := sv.downloads[f];
             d.md5 !in sv.cache || sv.cache[d.md5].ref == 0 || d.offset > |sv.cache[d.md5].content|
    ensures SM.SendPiece(sv).outcome != Close
  {
    if sv.downloads != map[] {
      var f := SM.Lowest(sv.downloads.Keys);
      assert SM.IsLowest(f, sv.downloads.Keys);
    }
  }

  /** Releasing a download ends the process if its block is not cached or not in use. */
  lemma CleanExitsExactly(sv: SM.Server, f: FlowId)
    ensures
      SM.OnClientClean(sv, f).outcome == Exit <==>
        f in sv.downloads && (sv.downloads[f].md5 !in sv.cache || sv.cache[sv.downloads[f].md5].ref == 0)
    ensures SM.OnClientClean(sv, f).outcome != Close
  {
  }

  /** A write completion closes the session exactly of a server that has not begun to announce its blocks. */
  lemma WriteCompleteCloses(sv: SM.Server)
    ensures SM.OnWriteComplete(sv).outcome == Close <==> sv.phase == SM.Init
  {
  }

  // ----- The proxy -----

  /** A client's message that its state does not expect closes its session and changes nothing else. */
  lemma UnexpectedFromClient(h: Hash, p: Proxy, f: FlowId, msg: Message, pick: ServerId)
    requires f in p.clients
    requires
      match p.clients[f].phase
      case Init => !msg.UploadRequest? && !msg.DownloadRequest?
      case WaitingUploadBlock => !msg.UploadBlock? && !msg.UploadAllBlocks?
      case WaitingTransferBlock => !msg.TransferBlockAck?
      case _ => true
    ensures OnClientMessage(h, p, f, msg, pick) == ProxyResult(p, map[], map[], Close)
  {
  }

  /** A server's message that its state does not expect closes its session and changes nothing else. */
  lemma UnexpectedFromServer(p: Proxy, s: ServerId, msg: Message)
    requires s in p.storages
    requires
      match p.storages[s].phase
      case WaitingBlockSet => !msg.TransferBlockSet?
      case Working => !msg.UploadBlockAck? && !msg.UploadBlockFail? && !msg.TransferBlock?
    ensures OnServerMessage(p, s, msg) == ProxyResult(p, map[], map[], Close)
  {
  }

  /** An acknowledged block, in any state: the next block of the list is requested from a server that lists it, and the
      session is closed if none does; after the last one the client is told that this was all; on an empty list the process
      ends. */
  lemma TransferAckAnswered(h: Hash, p: Proxy, f: FlowId, m: Md5, pick: ServerId)
    requires f in p.clients && p.clients[f].phase == WaitingTransferBlock && PickOk(p, f, TransferBlockAck(m), pick)
    ensures
      var c, r := p.clients[f], OnClientMessage(h, p, f, TransferBlockAck(m), pick);
      && (c.needed == [] ==> r.outcome == Exit)
      && (c.needed != [] && c.index + 1 >= |c.needed| ==>
            r.outcome == Ok && r.toClients == map[f := [TransferAllBlocks]] && r.toServers == map[])
      && (c.index + 1 < |c.needed| ==>
            var next := c.needed[c.index + 1];
            && r.toClients == map[]
            && if Indexed(p, next) then
                 r.outcome == Ok && pick in p.storages && next in p.storages[pick].md5s && r.toServers == map[pick := [DownloadBlock(next, f)]]
               else
                 r.outcome == Close && r.toServers == map[])
  {
    var c := p.clients[f];
    if c.index + 1 < |c.needed| {
      assert Wanted(p, f, TransferBlockAck(m)) == Some(c.needed[c.index + 1]);
      assert Indexed(SetClient(p, f, c.(index := c.index + 1)), c.needed[c.index + 1]) == Indexed(p, c.needed[c.index + 1]);
    }
  }
}
