/** Clients that leave keep the invariant, and are cleaned up after. */
module CloseHandlers {
  import opened Types
  import opened FileBlocks
  import SM = ServerModel
  import AM = AgentModel
  import DM = DownloaderModel
  import opened ProxyModel
  import opened SystemModel
  import opened ServerLinks
  import opened Invariant
  import opened Frames
  import opened ProxySteps
  import opened UploadHandlers
  import opened DownloadHandlers

  /** Closing the session of flow `f` when its context has become `c`. */
  function Leave(p: Proxy, f: FlowId, c: Client): ProxyResult {
    OnClientClose(SetClient(p, f, c), f)
  }

  predicate Finished(c: Client) {
    c.phase == HaveUploadedAllBlocks || c.phase == HaveTransferedAllBlocks
  }

  lemma LeaveMoves(h: Hash, st: System, f: FlowId, c: Client)
    requires f in st.clients && f in st.proxy.clients
    ensures
      var r := Leave(st.proxy, f, c);
      && ProxyMoves(st.proxy, r.proxy, f) && Addressed(h, st, f, r) && r.toClients == map[]
      && r.proxy.ids == st.proxy.ids && f !in r.proxy.clients && Subs(r.proxy, f) == Subs(st.proxy, f)
      && forall s :: Mail(r.toServers, s) == if !Finished(c) && s in st.proxy.storages then [ClientClean(f)] else []
  {
    var r := Leave(st.proxy, f, c);
    forall g: FlowId ensures Subs(r.proxy, g) == Subs(st.proxy, g) && (SubsOnce(st.proxy, g) <==> SubsOnce(r.proxy, g)) {
      SameSubs(st.proxy, r.proxy, g);
    }
  }

  lemma LeaveMail(p: Proxy, f: FlowId, c: Client, s: ServerId)
    ensures Mail(Leave(p, f, c).toServers, s) == if !Finished(c) && s in p.storages then [ClientClean(f)] else []
  {
  }

  /** A leaving flow keeps the invariant if it keeps the part of the flow. */
  lemma LeaveKeeps(h: Hash, st: System, st1: System, f: FlowId, c: Client)
    requires Inv(h, st) && Taken(st, st1, f) && f in st.proxy.clients
    requires ClientOk(h, AfterProxy(st1, Leave(st.proxy, f, c)), f)
    ensures Inv(h, AfterProxy(st1, Leave(st.proxy, f, c)))
  {
    var r := Leave(st.proxy, f, c);
    LeaveMoves(h, st, f, c);
    assert IdsOk(h, AfterProxy(st1, r)) by {
      HandledGrown(st, st1, f, r);
      IdsOkGrows(h, st, AfterProxy(st1, r));
    }
    HandledKeeps(h, st, st1, f, r);
  }

  // ----- Uploading clients -----

  /** A flow that has been registered has left no block unfinished. */
  lemma FinishedBetween(h: Hash, st: System, f: FlowId, at: SM.Stream)
    requires IsUploader(st, f) && UploaderAt(h, st, f, at) && f in st.proxy.clients && Finished(st.proxy.clients[f])
    ensures at == SM.Between
  {
    assert st.clients[f].outq == [];
  }

  lemma LeaveStream(h: Hash, st: System, f: FlowId, at: SM.Stream, s: ServerId)
    requires IsUploader(st, f) && StreamsAt(h, st, f, at) && f in st.proxy.clients && s in st.servers && s in st.proxy.storages
    requires StreamThrough(h, st.servers[s], f) != SM.Broken
    requires Finished(st.proxy.clients[f]) ==> at == SM.Between
    ensures StreamThrough(h, AfterProxy(st, Leave(st.proxy, f, st.proxy.clients[f])).servers[s], f) == SM.Between
  {
    var c := st.proxy.clients[f];
    LeaveMail(st.proxy, f, c, s);
    HandledServer(st, st, f, Leave(st.proxy, f, c), s);
    if !Finished(c) {
      SendToStream(h, st.servers[s], ClientClean(f), f);
    }
  }

  lemma LeaveStreams(h: Hash, st: System, f: FlowId)
    requires ServersOk(h, st) && IsUploader(st, f) && UploaderOk(h, st, f) && f in st.proxy.clients
    ensures exists at :: UploaderAt(h, st, f, at) && StreamsAt(h, AfterProxy(st, Leave(st.proxy, f, st.proxy.clients[f])), f, at)
  {
    var at :| UploaderAt(h, st, f, at);
    var st' := AfterProxy(st, Leave(st.proxy, f, st.proxy.clients[f]));
    if Finished(st.proxy.clients[f]) {
      FinishedBetween(h, st, f, at);
    }
    forall s | s in st'.proxy.storages && s in st'.servers ensures StreamThrough(h, st'.servers[s], f) == SM.Between {
      LeaveStream(h, st, f, at, s);
    }
    assert StreamsAt(h, st', f, at);
  }

  /** Without a context there is nothing left to say about the channel to the proxy. */
  lemma LeftPhase(h: Hash, e: ClientEnd, a: AM.Agent, ctx: Option<Client>, subs: set<(ServerId, Md5)>, subs': set<(ServerId, Md5)>)
    requires UploadPhase(h, e, a, ctx, subs)
    ensures UploadPhase(h, e, a, None, subs')
  {
  }

  lemma LeavingClient(h: Hash, st: System, f: FlowId)
    requires f in st.clients && f in st.proxy.clients
    ensures
      var st' := AfterProxy(st, Leave(st.proxy, f, st.proxy.clients[f]));
      f in st'.clients && st'.clients[f] == st.clients[f] && Context(st', f) == None
  {
    var r := Leave(st.proxy, f, st.proxy.clients[f]);
    LeaveMoves(h, st, f, st.proxy.clients[f]);
    HandledClient(st, st, f, r);
    assert st.clients[f].inq + [] == st.clients[f].inq;
  }

  lemma UploaderGone(h: Hash, st: System, st': System, f: FlowId)
    requires IsUploader(st, f) && f in st'.clients && st'.clients[f] == st.clients[f] && Context(st', f) == None
    requires exists at :: UploaderAt(h, st, f, at) && StreamsAt(h, st', f, at)
    requires BlocksHeld(h, st', f) && forall s :: s in st'.servers ==> Pipe(st'.servers[s], f) == []
    ensures UploaderOk(h, st', f)
  {
    var at :| UploaderAt(h, st, f, at) && StreamsAt(h, st', f, at);
    LeftPhase(h, st.clients[f], AgentOf(st, f), Context(st, f), Subs(st.proxy, f), Subs(st'.proxy, f));
    assert UploaderAt(h, st', f, at);
  }

  lemma LeavePipe(h: Hash, st: System, f: FlowId, s: ServerId)
    requires f in st.clients && f in st.proxy.clients && s in st.servers && Pipe(st.servers[s], f) == []
    ensures Pipe(AfterProxy(st, Leave(st.proxy, f, st.proxy.clients[f])).servers[s], f) == []
  {
    var r := Leave(st.proxy, f, st.proxy.clients[f]);
    LeaveMoves(h, st, f, st.proxy.clients[f]);
    HandledServer(st, st, f, r, s);
    if Mail(r.toServers, s) != [] {
      SendToPipe(st.servers[s], ClientClean(f), f);
      SM.AskedOne(st.servers[s].server.files, ClientClean(f), f);
    }
  }

  lemma LeaveHeld(h: Hash, st: System, f: FlowId)
    requires IsUploader(st, f) && BlocksHeld(h, st, f) && f in st.proxy.clients
    ensures BlocksHeld(h, AfterProxy(st, Leave(st.proxy, f, st.proxy.clients[f])), f)
  {
    LeaveMoves(h, st, f, st.proxy.clients[f]);
    BlocksHeldSame(h, st, st, f, Leave(st.proxy, f, st.proxy.clients[f]));
  }

  lemma UploaderLeaves(h: Hash, st: System, f: FlowId)
    requires ServersOk(h, st) && IsUploader(st, f) && UploaderOk(h, st, f) && f in st.proxy.clients
    ensures UploaderOk(h, AfterProxy(st, Leave(st.proxy, f, st.proxy.clients[f])), f)
  {
    var st' := AfterProxy(st, Leave(st.proxy, f, st.proxy.clients[f]));
    LeavingClient(h, st, f);
    LeaveStreams(h, st, f);
    assert BlocksHeld(h, st', f) && forall s :: s in st'.servers ==> Pipe(st'.servers[s], f) == [] by {
      var at :| UploaderAt(h, st, f, at);
      LeaveHeld(h, st, f);
      forall s | s in st'.servers ensures Pipe(st'.servers[s], f) == [] {
        LeavePipe(h, st, f, s);
      }
    }
    UploaderGone(h, st, st', f);
  }

  // ----- Downloading clients -----

  lemma LeaveNotBusy(h: Hash, st: System, st1: System, f: FlowId, c: Client, s: ServerId)
    requires ServersOk(h, st) && Taken(st, st1, f) && f in st.proxy.clients && s in st.proxy.storages && s in st.servers
    requires Finished(c) ==> Pipe(st.servers[s], f) == []
    ensures
      var e' := AfterProxy(st1, Leave(st.proxy, f, c)).servers[s];
      !BusyAfter(f in e'.server.downloads, e'.inq, f)
  {
    var e := st.servers[s];
    LeaveMoves(h, st, f, c);
    HandledServer(st, st1, f, Leave(st.proxy, f, c), s);
    if Finished(c) {
      EmptyPipe(h, e, f);
    } else {
      BusyAfterAppend(f in e.server.downloads, e.inq, ClientClean(f), f);
    }
  }

  lemma DownloaderLeaves(h: Hash, st: System, st1: System, f: FlowId, c: Client)
    requires ServersOk(h, st) && IsDownloader(st, f) && Subs(st.proxy, f) == {} && Taken(st, st1, f) && f in st.proxy.clients
    requires if Finished(c) then Idle(st, f) && exists chunks :: Transfered(st, f, chunks)
             else DownloaderOf(st, f).phase != DM.Done && TransferAllBlocks !in st.clients[f].inq
    ensures DownloaderOk(AfterProxy(st1, Leave(st.proxy, f, c)), f)
  {
    var r := Leave(st.proxy, f, c);
    var st' := AfterProxy(st1, r);
    LeaveMoves(h, st, f, c);
    HandledClient(st, st1, f, r);
    forall s | s in st'.proxy.storages && s in st'.servers
      ensures !BusyAfter(f in st'.servers[s].server.downloads, st'.servers[s].inq, f)
    {
      if Finished(c) {
        IdlePipe(st, f, s);
      }
      LeaveNotBusy(h, st, st1, f, c, s);
    }
    if Finished(c) {
      var chunks :| Transfered(st, f, chunks);
      HandledGrown(st, st1, f, r);
      FetchedGrows(st, st', st.proxy.ids[DownloaderOf(st, f).id], chunks);
      assert Transfered(st', f, chunks);
    }
  }

  lemma LeavesNoBlocks(h: Hash, st: System, st1: System, f: FlowId, c: Client)
    requires SendsNoBlocks(h, st, f) && Taken(st, st1, f) && f in st.proxy.clients
    ensures SendsNoBlocks(h, AfterProxy(st1, Leave(st.proxy, f, c)), f)
  {
    var r := Leave(st.proxy, f, c);
    LeaveMoves(h, st, f, c);
    forall s | s in st.servers ensures StreamThrough(h, AfterProxy(st1, r).servers[s], f) == SM.Between {
      HandledServer(st, st1, f, r, s);
      if Mail(r.toServers, s) != [] {
        SendToStream(h, st.servers[s], ClientClean(f), f);
      }
    }
  }

  lemma DownloaderMayLeave(st: System, f: FlowId)
    requires IsDownloader(st, f) && DownloaderOk(st, f) && f in st.proxy.clients
    ensures Subs(st.proxy, f) == {}
    ensures if Finished(st.proxy.clients[f]) then Idle(st, f) && exists chunks :: Transfered(st, f, chunks)
            else DownloaderOf(st, f).phase != DM.Done && TransferAllBlocks !in st.clients[f].inq
  {
    var c := st.proxy.clients[f];
    if c.phase == WaitingTransferBlock && !Stranded(st, f) && !(exists chunks :: Acknowledged(st, f, c, chunks)) {
      var s: ServerId, chunks, content, offset: nat, index: nat :| Transfering(st, f, c, s, chunks, content, offset, index);
      PiecesAreTheBlock(c.needed[c.index], f, content, offset, index);
      var all := st.clients[f].inq + PipeOf(st, s, f);
      forall i | 0 <= i < |st.clients[f].inq| ensures st.clients[f].inq[i].TransferBlock? {
        assert st.clients[f].inq[i] == all[i];
      }
    }
  }

  // ----- Both -----

  lemma SetSame(p: Proxy, f: FlowId)
    requires f in p.clients
    ensures SetClient(p, f, p.clients[f]) == p
  {
  }

  lemma ProxyClosesClientKeeps(h: Hash, st: System, f: FlowId)
    requires Inv(h, st) && f in st.proxy.clients
    ensures Inv(h, CloseClient(st, f))
  {
    SetSame(st.proxy, f);
    assert f in st.clients && Taken(st, st, f) by {
      assert f !in st.clients ==> Unknown(h, st, f);
    }
    assert ClientOk(h, AfterProxy(st, Leave(st.proxy, f, st.proxy.clients[f])), f) by {
      assert ClientOk(h, st, f);
      if st.clients[f].party.Uploader? {
        UploaderLeaves(h, st, f);
      } else {
        DownloaderMayLeave(st, f);
        DownloaderLeaves(h, st, st, f, st.proxy.clients[f]);
        LeavesNoBlocks(h, st, st, f, st.proxy.clients[f]);
      }
    }
    LeaveKeeps(h, st, st, f, st.proxy.clients[f]);
  }

  /** The only message of a client that makes the proxy close: one that needs a block no server has. */
  lemma MissingBlockKeeps(h: Hash, st: System, f: FlowId, c: Client)
    requires Inv(h, st) && IsDownloader(st, f) && f in st.proxy.clients && st.clients[f].outq != []
    requires !Finished(c)
    ensures Inv(h, AfterProxy(PopFromClient(st, f), Leave(st.proxy, f, c)))
  {
    assert ClientOk(h, AfterProxy(PopFromClient(st, f), Leave(st.proxy, f, c)), f) by {
      assert ClientOk(h, st, f);
      DownloaderSends(st, f);
      PopTakes(st, f);
      DownloaderLeaves(h, st, PopFromClient(st, f), f, c);
      LeavesNoBlocks(h, st, PopFromClient(st, f), f, c);
    }
    PopTakes(st, f);
    LeaveKeeps(h, st, PopFromClient(st, f), f, c);
  }
}
