/** The proxy's handlers for downloading clients keep the invariant. */
module DownloadHandlers {
  import opened Types
  import opened FileBlocks
  import SM = ServerModel
  import DM = DownloaderModel
  import opened ProxyModel
  import opened SystemModel
  import opened ServerLinks
  import opened Invariant
  import opened Frames
  import opened ProxySteps
  import opened UploadHandlers

  lemma IdlePipe(st: System, f: FlowId, s: ServerId)
    requires Idle(st, f) && s in st.proxy.storages && s in st.servers
    ensures Pipe(st.servers[s], f) == []
  {
    assert PipeOf(st, s, f) == [];
  }

  /** What a handler run for a downloading flow leaves alone. */
  ghost predicate Serves(h: Hash, st: System, f: FlowId, r: ProxyResult) {
    && ProxyMoves(st.proxy, r.proxy, f) && Addressed(h, st, f, r) && r.proxy.ids == st.proxy.ids
    && Subs(r.proxy, f) == Subs(st.proxy, f) && f in r.proxy.clients
    && forall s :: s in st.servers && Mail(r.toServers, s) != [] ==> Mail(r.toServers, s)[0].DownloadBlock?
  }

  lemma DownloaderStays(h: Hash, st: System, f: FlowId, r: ProxyResult)
    requires IsDownloader(st, f) && DownloaderOk(st, f) && f in st.proxy.clients && st.clients[f].outq != []
    requires Serves(h, st, f, r) && DownloadPhase(AfterProxy(PopFromClient(st, f), r), f)
    ensures DownloaderOk(AfterProxy(PopFromClient(st, f), r), f)
  {
    var st1 := PopFromClient(st, f);
    forall s | s in st.servers ensures ClientClean(f) !in AfterProxy(st1, r).servers[s].inq {
      HandledServer(st, st1, f, r, s);
    }
  }

  lemma ServesNoBlocks(h: Hash, st: System, f: FlowId, r: ProxyResult)
    requires f in st.clients && st.clients[f].outq != [] && SendsNoBlocks(h, st, f) && Serves(h, st, f, r)
    ensures SendsNoBlocks(h, AfterProxy(PopFromClient(st, f), r), f)
  {
    PopTakes(st, f);
    forall s | s in st.servers ensures StreamThrough(h, AfterProxy(PopFromClient(st, f), r).servers[s], f) == SM.Between {
      HandledServer(st, PopFromClient(st, f), f, r, s);
      if Mail(r.toServers, s) != [] {
        SendToStream(h, st.servers[s], Mail(r.toServers, s)[0], f);
      }
    }
  }

  /** A handler run for a downloading flow keeps the invariant if it keeps the flow's phase right. */
  lemma DownloaderHandled(h: Hash, st: System, f: FlowId, r: ProxyResult)
    requires Inv(h, st) && IsDownloader(st, f) && f in st.proxy.clients && st.clients[f].outq != []
    requires Serves(h, st, f, r) && DownloadPhase(AfterProxy(PopFromClient(st, f), r), f)
    ensures Inv(h, AfterProxy(PopFromClient(st, f), r))
  {
    var st1 := PopFromClient(st, f);
    assert ClientOk(h, AfterProxy(st1, r), f) by {
      assert ClientOk(h, st, f);
      DownloaderStays(h, st, f, r);
      ServesNoBlocks(h, st, f, r);
    }
    assert IdsOk(h, AfterProxy(st1, r)) by {
      HandledGrown(st, st1, f, r);
      IdsOkGrows(h, st, AfterProxy(st1, r));
    }
    HandledKeeps(h, st, st1, f, r);
  }

  // ----- Requests -----

  function RequestNext(st: System, f: FlowId, c: Client, pick: ServerId): ProxyResult
    requires c.index < |c.needed|
  {
    ProxyResult(SetClient(st.proxy, f, c), map[], map[pick := [DownloadBlock(c.needed[c.index], f)]], Ok)
  }

  /** The index is sound, so the server asked has the block. */
  lemma IndexedThere(h: Hash, st: System, s: ServerId, m: Md5)
    requires ServersOk(h, st) && s in st.proxy.storages && m in st.proxy.storages[s].md5s
    ensures s in st.servers && m in st.servers[s].server.files
  {
    assert IndexOk(st.servers[s], st.proxy.storages[s].md5s);
  }

  lemma RequestServes(h: Hash, st: System, f: FlowId, c: Client, pick: ServerId)
    requires f in st.clients && f in st.proxy.clients && st.clients[f].outq != []
    requires Idle(st, f) && c.index < |c.needed|
    requires pick in st.proxy.storages && pick in st.servers && c.needed[c.index] in st.servers[pick].server.files
    ensures Serves(h, st, f, RequestNext(st, f, c, pick))
  {
    var r := RequestNext(st, f, c, pick);
    SetClientMoves(st.proxy, r.proxy, f, c);
    SameSubs(st.proxy, r.proxy, f);
    IdlePipe(st, f, pick);
    assert MailOk(h, st.servers[pick], [DownloadBlock(c.needed[c.index], f)], f);
  }

  lemma RequestPipe(st: System, f: FlowId, c: Client, pick: ServerId, s: ServerId)
    requires f in st.clients && st.clients[f].outq != [] && Idle(st, f) && c.index < |c.needed|
    requires pick in st.proxy.storages && pick in st.servers && c.needed[c.index] in st.servers[pick].server.files
    ensures PipeOf(AfterProxy(PopFromClient(st, f), RequestNext(st, f, c, pick)), s, f)
      == if s == pick then Pieces(c.needed[c.index], f, st.servers[pick].server.files[c.needed[c.index]], 0, 0) else []
  {
    var m := c.needed[c.index];
    assert PipeOf(st, s, f) == [];
    if s in st.servers {
      HandledServer(st, PopFromClient(st, f), f, RequestNext(st, f, c, pick), s);
      if s == pick {
        SendToPipe(st.servers[pick], DownloadBlock(m, f), f);
        SM.AskedOne(st.servers[pick].server.files, DownloadBlock(m, f), f);
      }
    }
  }

  lemma RequestTransfers(h: Hash, st: System, f: FlowId, c: Client, pick: ServerId, chunks: seq<Bytes>)
    requires IsDownloader(st, f) && f in st.proxy.clients && |st.clients[f].outq| == 1
    requires Idle(st, f) && st.clients[f].inq == []
    requires c.index < |c.needed| && Fetched(st, c.needed[..c.index], chunks)
    requires DownloaderOf(st, f).written == Flatten(chunks)
    requires pick in st.proxy.storages && pick in st.servers && c.needed[c.index] in st.servers[pick].server.files
    ensures
      var st' := AfterProxy(PopFromClient(st, f), RequestNext(st, f, c, pick));
      && Context(st', f) == Some(c) && st'.clients[f] == st.clients[f].(outq := [])
      && Transfering(st', f, c, pick, chunks, st.servers[pick].server.files[c.needed[c.index]], 0, 0)
  {
    var m := c.needed[c.index];
    var r := RequestNext(st, f, c, pick);
    var st1 := PopFromClient(st, f);
    var st' := AfterProxy(st1, r);
    var content := st.servers[pick].server.files[m];
    assert Fetched(st', c.needed[..c.index], chunks) && Stored(st', m, content) by {
      SetClientMoves(st.proxy, r.proxy, f, c);
      HandledGrown(st, st1, f, r);
      assert Stored(st, m, content);
      StoredGrows(st, st', m, content);
      FetchedGrows(st, st', c.needed[..c.index], chunks);
    }
    HandledClient(st, st1, f, r);
    forall s ensures PipeOf(st', s, f) == if s == pick then Pieces(m, f, content, 0, 0) else [] {
      RequestPipe(st, f, c, pick, s);
    }
    assert content[..0] == [];
  }

  lemma RequestKeeps(h: Hash, st: System, f: FlowId, c: Client, pick: ServerId, chunks: seq<Bytes>)
    requires Inv(h, st) && IsDownloader(st, f) && f in st.proxy.clients && |st.clients[f].outq| == 1
    requires Idle(st, f) && st.clients[f].inq == [] && DownloaderOf(st, f).phase == DM.Receiving
    requires c.phase == WaitingTransferBlock && DownloaderOf(st, f).id in st.proxy.ids && c.needed == st.proxy.ids[DownloaderOf(st, f).id]
    requires c.index < |c.needed| && Fetched(st, c.needed[..c.index], chunks)
    requires DownloaderOf(st, f).written == Flatten(chunks)
    requires pick in st.proxy.storages && c.needed[c.index] in st.proxy.storages[pick].md5s
    ensures Inv(h, AfterProxy(PopFromClient(st, f), RequestNext(st, f, c, pick)))
  {
    IndexedThere(h, st, pick, c.needed[c.index]);
    assert Serves(h, st, f, RequestNext(st, f, c, pick)) by {
      RequestServes(h, st, f, c, pick);
    }
    assert DownloadPhase(AfterProxy(PopFromClient(st, f), RequestNext(st, f, c, pick)), f) by {
      RequestTransfers(h, st, f, c, pick, chunks);
    }
    DownloaderHandled(h, st, f, RequestNext(st, f, c, pick));
  }

  // ----- Handlers that ask nobody -----

  lemma QuietServes(h: Hash, st: System, f: FlowId, r: ProxyResult, c: Client)
    requires f in st.clients && f in st.proxy.clients && st.clients[f].outq != []
    requires r.proxy == SetClient(st.proxy, f, c) && r.toServers == map[] && r.toClients.Keys <= {f}
    ensures Serves(h, st, f, r)
    ensures forall s :: PipeOf(AfterProxy(PopFromClient(st, f), r), s, f) == PipeOf(st, s, f)
    ensures Grown(st, AfterProxy(PopFromClient(st, f), r))
  {
    SetClientMoves(st.proxy, r.proxy, f, c);
    SameSubs(st.proxy, r.proxy, f);
    QuietAddressed(h, st, f, r);
    HandledGrown(st, PopFromClient(st, f), f, r);
    forall s ensures PipeOf(AfterProxy(PopFromClient(st, f), r), s, f) == PipeOf(st, s, f) {
      if s in st.servers {
        HandledServer(st, PopFromClient(st, f), f, r, s);
      }
    }
  }

  // ----- The messages of a downloading client -----

  /** What the proxy can find at the head of a downloading client's channel. */
  lemma DownloaderSends(st: System, f: FlowId)
    requires IsDownloader(st, f) && DownloaderOk(st, f) && f in st.proxy.clients && st.clients[f].outq != []
    ensures
      var c, e, d := st.proxy.clients[f], st.clients[f], DownloaderOf(st, f);
      && |e.outq| == 1 && e.inq == [] && Idle(st, f) && d.phase == DM.Receiving
      && (|| (c.phase == Init && c.index == 0 && e.outq == [DownloadRequest(d.id, [])] && d.written == [])
          || (&& c.phase == WaitingTransferBlock && e.outq[0].TransferBlockAck?
              && d.id in st.proxy.ids && c.needed == st.proxy.ids[d.id]
              && exists chunks :: Acknowledged(st, f, c, chunks)))
  {
  }

  lemma QuietHandled(h: Hash, st: System, f: FlowId, r: ProxyResult, c: Client)
    requires Inv(h, st) && IsDownloader(st, f) && f in st.proxy.clients && st.clients[f].outq != []
    requires r.proxy == SetClient(st.proxy, f, c) && r.toServers == map[] && r.toClients.Keys <= {f}
    requires DownloadPhase(AfterProxy(PopFromClient(st, f), r), f)
    ensures Inv(h, AfterProxy(PopFromClient(st, f), r))
  {
    QuietServes(h, st, f, r, c);
    DownloaderHandled(h, st, f, r);
  }

  /** What the proxy answers when the id is not registered. */
  function NotExist(st: System, f: FlowId): ProxyResult
    requires IsDownloader(st, f)
  {
    ProxyResult(st.proxy, map[f := [FileNotExist(DownloaderOf(st, f).id)]], map[], Ok)
  }

  lemma NotExistPhase(st: System, f: FlowId)
    requires IsDownloader(st, f) && DownloaderOk(st, f) && f in st.proxy.clients
    requires st.proxy.clients[f].phase == Init && st.clients[f].outq != []
    ensures DownloadPhase(AfterProxy(PopFromClient(st, f), NotExist(st, f)), f)
  {
    var r := NotExist(st, f);
    var st' := AfterProxy(PopFromClient(st, f), r);
    DownloaderSends(st, f);
    assert st'.clients[f] == st.clients[f].(inq := [FileNotExist(DownloaderOf(st, f).id)], outq := []);
    forall s ensures PipeOf(st', s, f) == [] {
      assert PipeOf(st, s, f) == [];
      if s in st.servers {
        assert st'.servers[s].inq == st.servers[s].inq;
      }
    }
  }

  lemma NotExistKeeps(h: Hash, st: System, f: FlowId)
    requires Inv(h, st) && IsDownloader(st, f) && f in st.proxy.clients
    requires st.proxy.clients[f].phase == Init && st.clients[f].outq != [] && DownloaderOf(st, f).id !in st.proxy.ids
    requires DownloaderOk(st, f)
    ensures Inv(h, AfterProxy(PopFromClient(st, f), NotExist(st, f)))
  {
    NotExistPhase(st, f);
    SameContext(st.proxy, f);
    QuietHandled(h, st, f, NotExist(st, f), st.proxy.clients[f]);
  }

  lemma SameContext(p: Proxy, f: FlowId)
    requires f in p.clients
    ensures SetClient(p, f, p.clients[f]) == p
  {
  }

  lemma DownloadRequestIs(h: Hash, st: System, f: FlowId, pick: ServerId)
    requires IsDownloader(st, f) && DownloaderOk(st, f) && f in st.proxy.clients
    requires st.proxy.clients[f].phase == Init && st.clients[f].outq != []
    requires PickOk(st.proxy, f, st.clients[f].outq[0], pick)
    requires OnClientMessage(h, st.proxy, f, st.clients[f].outq[0], pick).outcome == Ok
    ensures
      var id := DownloaderOf(st, f).id;
      var r := OnClientMessage(h, st.proxy, f, st.clients[f].outq[0], pick);
      if id !in st.proxy.ids then
        r == NotExist(st, f)
      else
        var c := st.proxy.clients[f].(phase := WaitingTransferBlock, needed := st.proxy.ids[id]);
        && c.index == 0 && 0 < |c.needed| && r == RequestNext(st, f, c, pick)
        && pick in st.proxy.storages && c.needed[0] in st.proxy.storages[pick].md5s
  {
    DownloaderSends(st, f);
    var id := DownloaderOf(st, f).id;
    if id in st.proxy.ids {
      ReallyNeedAll(st.proxy.ids[id]);
      var c := st.proxy.clients[f].(phase := WaitingTransferBlock, needed := st.proxy.ids[id]);
      assert Wanted(st.proxy, f, st.clients[f].outq[0]) == Some(c.needed[0]);
      assert Indexed(SetClient(st.proxy, f, c), c.needed[0]) == Indexed(st.proxy, c.needed[0]);
    }
  }

  lemma DownloadRequestKeeps(h: Hash, st: System, f: FlowId, pick: ServerId)
    requires Inv(h, st) && IsDownloader(st, f) && f in st.proxy.clients
    requires st.proxy.clients[f].phase == Init && st.clients[f].outq != []
    requires PickOk(st.proxy, f, st.clients[f].outq[0], pick)
    requires OnClientMessage(h, st.proxy, f, st.clients[f].outq[0], pick).outcome == Ok
    ensures Inv(h, AfterProxy(PopFromClient(st, f), OnClientMessage(h, st.proxy, f, st.clients[f].outq[0], pick)))
  {
    assert ClientOk(h, st, f);
    DownloadRequestIs(h, st, f, pick);
    var id := DownloaderOf(st, f).id;
    if id !in st.proxy.ids {
      NotExistKeeps(h, st, f);
    } else {
      var c := st.proxy.clients[f].(phase := WaitingTransferBlock, needed := st.proxy.ids[id]);
      DownloaderSends(st, f);
      assert c.needed[..0] == [];
      assert Fetched(st, c.needed[..c.index], []);
      RequestKeeps(h, st, f, c, pick, []);
    }
  }

  function AllTransfered(st: System, f: FlowId): ProxyResult
    requires f in st.proxy.clients
  {
    ProxyResult(SetClient(st.proxy, f, st.proxy.clients[f].(phase := HaveTransferedAllBlocks)), map[f := [TransferAllBlocks]], map[], Ok)
  }

  lemma LastTransfered(h: Hash, st: System, f: FlowId, chunks: seq<Bytes>)
    requires IsDownloader(st, f) && f in st.proxy.clients && |st.clients[f].outq| == 1
    requires DownloaderOf(st, f).phase == DM.Receiving && DownloaderOf(st, f).id in st.proxy.ids
    requires st.proxy.clients[f].needed == st.proxy.ids[DownloaderOf(st, f).id]
    requires Acknowledged(st, f, st.proxy.clients[f], chunks) && st.proxy.clients[f].index == |st.proxy.clients[f].needed| - 1
    ensures
      var st' := AfterProxy(PopFromClient(st, f), AllTransfered(st, f));
      Transfered(st', f, chunks) && Idle(st', f) && st'.clients[f].outq == []
  {
    var c, r := st.proxy.clients[f], AllTransfered(st, f);
    var st' := AfterProxy(PopFromClient(st, f), r);
    QuietServes(h, st, f, r, c.(phase := HaveTransferedAllBlocks));
    HandledClient(st, PopFromClient(st, f), f, r);
    assert c.needed[..c.index + 1] == c.needed;
    FetchedGrows(st, st', c.needed, chunks);
  }

  lemma LastAcknowledged(h: Hash, st: System, f: FlowId, chunks: seq<Bytes>)
    requires Inv(h, st) && IsDownloader(st, f) && f in st.proxy.clients && |st.clients[f].outq| == 1
    requires DownloaderOf(st, f).phase == DM.Receiving && DownloaderOf(st, f).id in st.proxy.ids
    requires st.proxy.clients[f].needed == st.proxy.ids[DownloaderOf(st, f).id]
    requires Acknowledged(st, f, st.proxy.clients[f], chunks) && st.proxy.clients[f].index == |st.proxy.clients[f].needed| - 1
    ensures Inv(h, AfterProxy(PopFromClient(st, f), AllTransfered(st, f)))
  {
    assert DownloadPhase(AfterProxy(PopFromClient(st, f), AllTransfered(st, f)), f) by {
      LastTransfered(h, st, f, chunks);
    }
    QuietHandled(h, st, f, AllTransfered(st, f), st.proxy.clients[f].(phase := HaveTransferedAllBlocks));
  }

  lemma AckSent(st: System, f: FlowId)
    requires IsDownloader(st, f) && DownloaderOk(st, f) && f in st.proxy.clients && st.proxy.clients[f].phase == WaitingTransferBlock
    requires st.clients[f].outq != []
    ensures
      var c, id := st.proxy.clients[f], DownloaderOf(st, f).id;
      && c.index < |c.needed| && id in st.proxy.ids && c.needed == st.proxy.ids[id]
      && st.clients[f].outq == [TransferBlockAck(c.needed[c.index])] && st.clients[f].inq == []
  {
    DownloaderSends(st, f);
  }

  lemma TransferBlockAckIs(h: Hash, st: System, f: FlowId, pick: ServerId)
    requires IsDownloader(st, f) && DownloaderOk(st, f) && f in st.proxy.clients
    requires st.proxy.clients[f].phase == WaitingTransferBlock && st.clients[f].outq != []
    requires PickOk(st.proxy, f, st.clients[f].outq[0], pick)
    requires OnClientMessage(h, st.proxy, f, st.clients[f].outq[0], pick).outcome == Ok
    ensures
      var c := st.proxy.clients[f];
      var r := OnClientMessage(h, st.proxy, f, st.clients[f].outq[0], pick);
      && c.index < |c.needed|
      && if c.index + 1 == |c.needed| then
           r == AllTransfered(st, f)
         else
           && r == RequestNext(st, f, c.(index := c.index + 1), pick)
           && pick in st.proxy.storages && c.needed[c.index + 1] in st.proxy.storages[pick].md5s
  {
    AckSent(st, f);
    var c := st.proxy.clients[f];
    if c.index + 1 < |c.needed| {
      var c' := c.(index := c.index + 1);
      assert Wanted(st.proxy, f, st.clients[f].outq[0]) == Some(c'.needed[c'.index]);
      assert Indexed(SetClient(st.proxy, f, c'), c'.needed[c'.index]) == Indexed(st.proxy, c'.needed[c'.index]);
    }
  }

  lemma NextAcknowledged(h: Hash, st: System, f: FlowId, pick: ServerId, chunks: seq<Bytes>)
    requires Inv(h, st) && IsDownloader(st, f) && f in st.proxy.clients && |st.clients[f].outq| == 1
    requires DownloaderOf(st, f).phase == DM.Receiving && DownloaderOf(st, f).id in st.proxy.ids
    requires st.proxy.clients[f].phase == WaitingTransferBlock
    requires st.proxy.clients[f].needed == st.proxy.ids[DownloaderOf(st, f).id]
    requires Acknowledged(st, f, st.proxy.clients[f], chunks) && st.proxy.clients[f].index + 1 < |st.proxy.clients[f].needed|
    requires pick in st.proxy.storages && st.proxy.clients[f].needed[st.proxy.clients[f].index + 1] in st.proxy.storages[pick].md5s
    ensures
      var c := st.proxy.clients[f];
      Inv(h, AfterProxy(PopFromClient(st, f), RequestNext(st, f, c.(index := c.index + 1), pick)))
  {
    var c := st.proxy.clients[f];
    RequestKeeps(h, st, f, c.(index := c.index + 1), pick, chunks);
  }

  lemma TransferBlockAckKeeps(h: Hash, st: System, f: FlowId, pick: ServerId)
    requires Inv(h, st) && IsDownloader(st, f) && f in st.proxy.clients
    requires st.proxy.clients[f].phase == WaitingTransferBlock && st.clients[f].outq != []
    requires PickOk(st.proxy, f, st.clients[f].outq[0], pick)
    requires OnClientMessage(h, st.proxy, f, st.clients[f].outq[0], pick).outcome == Ok
    ensures Inv(h, AfterProxy(PopFromClient(st, f), OnClientMessage(h, st.proxy, f, st.clients[f].outq[0], pick)))
  {
    assert DownloaderOk(st, f) by {
      assert ClientOk(h, st, f);
    }
    TransferBlockAckIs(h, st, f, pick);
    assert |st.clients[f].outq| == 1 && DownloaderOf(st, f).phase == DM.Receiving && DownloaderOf(st, f).id in st.proxy.ids
        && st.proxy.clients[f].needed == st.proxy.ids[DownloaderOf(st, f).id]
        && exists chunks :: Acknowledged(st, f, st.proxy.clients[f], chunks) by {
      DownloaderSends(st, f);
    }
    var chunks :| Acknowledged(st, f, st.proxy.clients[f], chunks);
    if st.proxy.clients[f].index + 1 < |st.proxy.clients[f].needed| {
      NextAcknowledged(h, st, f, pick, chunks);
    } else {
      LastAcknowledged(h, st, f, chunks);
    }
  }
}
