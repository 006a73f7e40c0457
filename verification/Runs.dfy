/** Every step keeps the invariant, so it holds in every state of every run. */
module Runs {
  import opened Types
  import opened FileBlocks
  import opened ProxyModel
  import opened SystemModel
  import opened ServerLinks
  import opened Invariant
  import opened ServerSteps
  import opened ClientSteps
  import opened ConnectSteps
  import opened UploadHandlers
  import opened DownloadHandlers
  import opened CloseHandlers
  import opened ServerHandlers
  import opened VoteHandlers

  // ----- Messages from clients -----

  lemma FromUploaderIs(h: Hash, st: System, f: FlowId, pick: ServerId)
    requires IsUploader(st, f) && UploaderOk(h, st, f) && f in st.proxy.clients && st.clients[f].outq != []
    ensures
      var c, msg := st.proxy.clients[f], st.clients[f].outq[0];
      var r := OnClientMessage(h, st.proxy, f, msg, pick);
      || (c.phase == Init && msg.UploadRequest? && r == OnUploadRequest(st.proxy, f, msg.md5s) && r.outcome == Ok)
      || (c.phase == WaitingUploadBlock && msg.UploadAllBlocks? && r == OnUploadAllBlocks(h, st.proxy, f) && r.outcome == Ok)
      || (c.phase == WaitingUploadBlock && msg.UploadBlock? && r == OnUploadBlock(st.proxy, f, msg, pick)
          && (r.outcome == Ok || (r.outcome == Exit && msg.index == 0 && pick !in st.proxy.storages)))
  {
    UploaderSends(h, st.clients[f], AgentOf(st, f), st.proxy.clients[f], Subs(st.proxy, f));
  }

  lemma FromUploaderKeeps(h: Hash, st: System, f: FlowId, pick: ServerId)
    requires Inv(h, st) && IsUploader(st, f) && f in st.proxy.clients && st.clients[f].outq != []
    requires OnClientMessage(h, st.proxy, f, st.clients[f].outq[0], pick).outcome != Exit
    ensures Inv(h, FromClient(h, st, f, pick))
  {
    assert UploaderOk(h, st, f) by {
      assert ClientOk(h, st, f);
    }
    FromUploaderIs(h, st, f, pick);
    var msg := st.clients[f].outq[0];
    if msg.UploadRequest? {
      UploadRequestKeeps(h, st, f);
    } else if msg.UploadAllBlocks? {
      UploadAllKeeps(h, st, f);
    } else if msg.index == 0 {
      FirstPieceKeeps(h, st, f, pick);
    } else {
      RelayKeeps(h, st, f, pick);
    }
  }

  /** How the proxy fares with a client's wish for a block. */
  ghost predicate WishHandled(h: Hash, st: System, f: FlowId, pick: ServerId)
    requires f in st.proxy.clients && f in st.clients && st.clients[f].outq != []
  {
    var msg := st.clients[f].outq[0];
    var r := OnClientMessage(h, st.proxy, f, msg, pick);
    && (r.outcome == Close <==> exists m :: Wanted(st.proxy, f, msg) == Some(m) && !Indexed(st.proxy, m))
    && (r.outcome == Close ==> exists c' :: !Finished(c') && r == Silent(SetClient(st.proxy, f, c'), Close))
  }

  lemma FirstWish(h: Hash, st: System, f: FlowId, pick: ServerId)
    requires IsDownloader(st, f) && DownloaderOk(st, f) && f in st.proxy.clients && st.clients[f].outq != []
    requires st.proxy.clients[f].phase == Init
    ensures WishHandled(h, st, f, pick)
    ensures OnClientMessage(h, st.proxy, f, st.clients[f].outq[0], pick).outcome == Exit <==>
              DownloaderOf(st, f).id in st.proxy.ids && st.proxy.ids[DownloaderOf(st, f).id] == []
  {
    DownloaderSends(st, f);
    var id := DownloaderOf(st, f).id;
    if id in st.proxy.ids {
      var c' := st.proxy.clients[f].(phase := WaitingTransferBlock, needed := st.proxy.ids[id]);
      ReallyNeedAll(st.proxy.ids[id]);
      if st.proxy.ids[id] != [] {
        assert Wanted(st.proxy, f, st.clients[f].outq[0]) == Some(c'.needed[0]);
        assert Indexed(SetClient(st.proxy, f, c'), c'.needed[0]) == Indexed(st.proxy, c'.needed[0]);
        assert !Finished(c');
      }
    }
  }

  lemma NextWish(h: Hash, st: System, f: FlowId, pick: ServerId)
    requires IsDownloader(st, f) && DownloaderOk(st, f) && f in st.proxy.clients && st.clients[f].outq != []
    requires st.proxy.clients[f].phase == WaitingTransferBlock
    ensures WishHandled(h, st, f, pick) && OnClientMessage(h, st.proxy, f, st.clients[f].outq[0], pick).outcome != Exit
  {
    DownloaderSends(st, f);
    var c := st.proxy.clients[f];
    if c.index + 1 < |c.needed| {
      var c' := c.(index := c.index + 1);
      assert Wanted(st.proxy, f, st.clients[f].outq[0]) == Some(c'.needed[c'.index]);
      assert Indexed(SetClient(st.proxy, f, c'), c'.needed[c'.index]) == Indexed(st.proxy, c'.needed[c'.index]);
      assert !Finished(c');
    }
  }

  /** The one reason for the proxy to close a client's session: the block to be requested next, which
      is in no server's index. */
  lemma FromDownloaderIs(h: Hash, st: System, f: FlowId, pick: ServerId)
    requires IsDownloader(st, f) && DownloaderOk(st, f) && f in st.proxy.clients && st.clients[f].outq != []
    ensures st.proxy.clients[f].phase == Init || st.proxy.clients[f].phase == WaitingTransferBlock
    ensures WishHandled(h, st, f, pick)
    ensures OnClientMessage(h, st.proxy, f, st.clients[f].outq[0], pick).outcome == Exit <==>
              st.proxy.clients[f].phase == Init && DownloaderOf(st, f).id in st.proxy.ids && st.proxy.ids[DownloaderOf(st, f).id] == []
  {
    DownloaderSends(st, f);
    if st.proxy.clients[f].phase == Init {
      FirstWish(h, st, f, pick);
    } else {
      NextWish(h, st, f, pick);
    }
  }

  lemma AfterSilent(st: System, p: Proxy, outcome: Outcome)
    ensures AfterProxy(st, Silent(p, outcome)) == st.(proxy := p)
  {
    assert ToClients(st.clients, map[]) == st.clients by {
      forall f | f in st.clients ensures st.clients[f].inq + [] == st.clients[f].inq {
      }
    }
    assert ToServers(st.servers, map[]) == st.servers by {
      forall s | s in st.servers ensures st.servers[s].inq + [] == st.servers[s].inq {
      }
    }
  }

  lemma FromDownloaderKeeps(h: Hash, st: System, f: FlowId, pick: ServerId)
    requires Inv(h, st) && IsDownloader(st, f) && f in st.proxy.clients && st.clients[f].outq != []
    requires PickOk(st.proxy, f, st.clients[f].outq[0], pick)
    requires OnClientMessage(h, st.proxy, f, st.clients[f].outq[0], pick).outcome != Exit
    ensures Inv(h, FromClient(h, st, f, pick))
  {
    assert DownloaderOk(st, f) by {
      assert ClientOk(h, st, f);
    }
    FromDownloaderIs(h, st, f, pick);
    var r := OnClientMessage(h, st.proxy, f, st.clients[f].outq[0], pick);
    if r.outcome == Close {
      var c' :| !Finished(c') && r == Silent(SetClient(st.proxy, f, c'), Close);
      MissingBlockKeeps(h, st, f, c');
      LeavesAfter(st, f, c');
      assert FromClient(h, st, f, pick) == AfterProxy(PopFromClient(st, f), Leave(st.proxy, f, c'));
    } else if st.proxy.clients[f].phase == Init {
      DownloadRequestKeeps(h, st, f, pick);
    } else {
      TransferBlockAckKeeps(h, st, f, pick);
    }
  }

  lemma LeavesAfter(st: System, f: FlowId, c: Client)
    requires f in st.proxy.clients && f in st.clients && st.clients[f].outq != []
    ensures CloseClient(AfterProxy(PopFromClient(st, f), Silent(SetClient(st.proxy, f, c), Close)), f)
         == AfterProxy(PopFromClient(st, f), Leave(st.proxy, f, c))
  {
    AfterSilent(PopFromClient(st, f), SetClient(st.proxy, f, c), Close);
  }

  // ----- Messages from servers -----

  /** No failure is ever on its way from a server. */
  lemma ServerSends(h: Hash, st: System, s: ServerId)
    requires ServersOk(h, st) && s in st.servers && st.servers[s].outq != []
    ensures var msg := st.servers[s].outq[0]; msg.TransferBlock? || msg.UploadBlockAck? || msg.TransferBlockSet?
  {
    assert FromServerOk(st.servers[s], st.servers[s].outq[0]);
  }

  lemma ServerOutcome(p: Proxy, s: ServerId, msg: Message)
    requires s in p.storages && (msg.TransferBlock? || msg.UploadBlockAck? || msg.TransferBlockSet?)
    ensures OnServerMessage(p, s, msg).outcome == Close <==> (p.storages[s].phase == WaitingBlockSet) != msg.TransferBlockSet?
    ensures OnServerMessage(p, s, msg).outcome != Exit
  {
  }

  lemma FromServerKeeps(h: Hash, st: System, s: ServerId, order: seq<Md5>)
    requires Inv(h, st) && s in st.servers && s in st.proxy.storages && st.servers[s].outq != []
    requires Enumerates(order, st.proxy.storages[s].subs.Keys)
    ensures Inv(h, FromServer(st, s, order))
  {
    var msg := st.servers[s].outq[0];
    ServerSends(h, st, s);
    ServerOutcome(st.proxy, s, msg);
    if OnServerMessage(st.proxy, s, msg).outcome == Close {
      LeftKeeps(h, st, s, order);
    } else if msg.TransferBlockSet? {
      BlockSetIs(st.proxy, s, msg);
      BlockSetKeeps(h, st, s);
    } else if msg.UploadBlockAck? {
      AckIs(st.proxy, s, msg.md5);
      AckedKeeps(h, st, s, msg.md5);
    } else {
      TransferBlockIs(st, s);
      TransferBlockKeeps(h, st, s);
    }
  }

  // ----- Runs -----

  lemma StepKeeps(h: Hash, st: System, act: Action)
    requires Inv(h, st) && Enabled(h, st, act)
    ensures Inv(h, Apply(h, st, act))
  {
    match act
    case ConnectUploader(file) => UploaderConnects(h, st, file);
    case ConnectDownloader(id) => DownloaderConnects(h, st, id);
    case ConnectServer(files, order) => ServerJoins(h, st, files, order);
    case ClientReceives(f) =>
      if st.clients[f].party.Uploader? {
        UploaderReceives(h, st, f);
      } else {
        DownloaderReceives(h, st, f);
      }
    case ClientWriteComplete(f) => UploaderWrites(h, st, f);
    case ClientCloses(f) => ClientShuts(h, st, f);
    case ServerReceives(s) => ServerReceivesKeeps(h, st, s);
    case ServerWriteComplete(s) => ServerWritesKeeps(h, st, s);
    case ServerCloses(s) => ServerClosesKeeps(h, st, s);
    case ProxyReceivesFromClient(f, pick) =>
      if st.clients[f].party.Uploader? {
        FromUploaderKeeps(h, st, f, pick);
      } else {
        FromDownloaderKeeps(h, st, f, pick);
      }
    case ProxyReceivesFromServer(s, order) => FromServerKeeps(h, st, s, order);
    case ProxyClosesClient(f) => ProxyClosesClientKeeps(h, st, f);
    case ProxyClosesServer(s, order) => LeftKeeps(h, st, s, order);
  }

  lemma InitialKeeps(h: Hash, st: System)
    requires Initial(h, st)
    ensures Inv(h, st)
  {
    forall s | s in st.servers ensures ServerEndOk(h, st.servers[s]) {
    }
    forall f: FlowId | f !in st.clients ensures Unknown(h, st, f) {
      assert Subs(st.proxy, f) == {};
    }
  }

  /** The invariant holds in every state of every run. */
  lemma {:induction false} RunKeeps(h: Hash, run: seq<System>, acts: seq<Action>, i: nat)
    requires IsRun(h, run, acts) && i < |run|
    ensures Inv(h, run[i])
    decreases i
  {
    if i == 0 {
      InitialKeeps(h, run[0]);
    } else {
      RunKeeps(h, run, acts, i - 1);
      StepKeeps(h, run[i - 1], acts[i - 1]);
    }
  }
}
