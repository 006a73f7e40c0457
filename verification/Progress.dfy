/** Where a system comes to rest once nobody joins or leaves any more: every transfer has ended well, but for
    the uploads whose agent has overlooked a reply. */
module Progress {
  import opened Types
  import opened FileBlocks
  import AM = AgentModel
  import DM = DownloaderModel
  import opened ProxyModel
  import opened SystemModel
  import opened ServerLinks
  import opened Invariant
  import opened Runs
  import opened Safety
  import opened ProxyProgress
  import opened Due

  // ----- Acknowledgements stay due in every run -----

  lemma EndStepDue(h: Hash, st: System, act: Action)
    requires Inv(h, st) && DueAll(st) && Enabled(h, st, act)
    requires act.ClientReceives? || act.ClientWriteComplete? || act.ClientCloses? || act.ServerReceives? || act.ServerWriteComplete? || act.ServerCloses?
    ensures DueAll(Apply(h, st, act))
  {
    match act
    case ClientReceives(f) =>
      assert ClientOk(h, st, f);
      if st.clients[f].party.Uploader? {
        UploaderReceivesDue(h, st, f);
      } else {
        ClientAloneDue(st, f, ClientReceive(st.clients[f]));
      }
    case ClientWriteComplete(f) =>
      assert ClientOk(h, st, f);
      UploaderWritesDue(h, st, f);
    case ClientCloses(f) => ShutDue(st, f);
    case ServerReceives(s) =>
      forall f: FlowId ensures Carries(st.servers[s], ServerReceive(h, st.servers[s]), f) {
        ReceiveCarries(h, st.servers[s], f);
      }
      ServerAloneDue(st, s, ServerReceive(h, st.servers[s]));
    case ServerWriteComplete(s) =>
      forall f: FlowId ensures Carries(st.servers[s], ServerWritten(st.servers[s]), f) {
        WriteCarries(st.servers[s], f);
      }
      ServerAloneDue(st, s, ServerWritten(st.servers[s]));
    case ServerCloses(s) => ServerAloneDue(st, s, Closed(st.servers[s]));
  }

  lemma StepDue(h: Hash, st: System, act: Action)
    requires Inv(h, st) && DueAll(st) && Enabled(h, st, act)
    ensures DueAll(Apply(h, st, act))
  {
    match act
    case ConnectUploader(file) => ConnectDue(h, st, NewUploader(h, file));
    case ConnectDownloader(id) => ConnectDue(h, st, NewDownloader(id));
    case ConnectServer(files, order) => JoinDue(h, st, NewServer(files, order));
    case ProxyReceivesFromClient(f, pick) =>
      assert ClientOk(h, st, f);
      if st.clients[f].party.Uploader? {
        FromUploaderDue(h, st, f, pick);
      } else {
        FromDownloaderDue(h, st, f, pick);
      }
    case ProxyReceivesFromServer(s, order) => FromServerDue(h, st, s, order);
    case ProxyClosesClient(f) =>
      assert f !in st.clients ==> Unknown(h, st, f);
      LeaveDue(h, st, f);
    case ProxyClosesServer(s, order) => LeftDue(h, st, s, order);
    case _ => EndStepDue(h, st, act);
  }

  lemma RunStepDue(h: Hash, run: seq<System>, acts: seq<Action>, i: nat)
    requires IsRun(h, run, acts) && i < |acts| && DueAll(run[i])
    ensures DueAll(run[i + 1])
  {
    RunKeeps(h, run, acts, i);
    StepDue(h, run[i], acts[i]);
  }

  lemma {:induction false} DueAlong(run: seq<System>, i: nat)
    requires i < |run| && DueAll(run[0])
    requires forall k :: 0 <= k < i && DueAll(run[k]) ==> DueAll(run[k + 1])
    ensures DueAll(run[i])
    decreases i
  {
    if i > 0 {
      DueAlong(run, i - 1);
      assert DueAll(run[i - 1 + 1]);
    }
  }

  lemma RunDue(h: Hash, run: seq<System>, acts: seq<Action>, i: nat)
    requires IsRun(h, run, acts) && i < |run|
    ensures DueAll(run[i])
  {
    forall k | 0 <= k < i && DueAll(run[k]) ensures DueAll(run[k + 1]) {
      RunStepDue(h, run, acts, k);
    }
    DueAlong(run, i);
  }

  lemma ReachableDue(h: Hash, st: System)
    requires Reachable(h, st)
    ensures DueAll(st)
  {
    var run, acts :| IsRun(h, run, acts) && st == run[|acts|];
    RunDue(h, run, acts, |acts|);
  }

  // ----- Rest -----

  /** Nothing more can happen unless somebody joins or leaves. */
  ghost predicate AtRest(h: Hash, st: System) {
    forall act :: Internal(act) ==> !Enabled(h, st, act)
  }

  /** There is a connected server, and all connected servers are alive. */
  ghost predicate ServersOpen(st: System) {
    && st.proxy.storages != map[]
    && forall s :: s in st.servers && s in st.proxy.storages ==> st.servers[s].open
  }

  lemma {:induction false} OrderExists(s: set<Md5>)
    ensures exists order :: Enumerates(order, s)
    decreases s
  {
    if s == {} {
      assert Enumerates([], s);
    } else {
      var m :| m in s;
      OrderExists(s - {m});
      var order :| Enumerates(order, s - {m});
      assert Enumerates(order + [m], s);
    }
  }

  lemma PickExists(p: Proxy, f: FlowId, msg: Message)
    ensures exists pick :: PickOk(p, f, msg, pick)
  {
    if m :| Wanted(p, f, msg) == Some(m) && Indexed(p, m) {
      var s :| s in p.storages && m in p.storages[s].md5s;
      assert PickOk(p, f, msg, s);
    } else if p.storages != map[] {
      var s :| s in p.storages;
      assert PickOk(p, f, msg, s);
    } else {
      assert PickOk(p, f, msg, 0);
    }
  }

  lemma ServerRests(h: Hash, st: System, s: ServerId)
    requires AtRest(h, st) && s in st.servers && s in st.proxy.storages && st.servers[s].open
    ensures st.servers[s].inq == [] && st.servers[s].outq == [] && !st.servers[s].writing
  {
    assert !Enabled(h, st, ServerReceives(s));
    assert !Enabled(h, st, ServerWriteComplete(s));
    OrderExists(st.proxy.storages[s].subs.Keys);
    var order :| Enumerates(order, st.proxy.storages[s].subs.Keys);
    assert !Enabled(h, st, ProxyReceivesFromServer(s, order));
  }

  lemma ClientRests(h: Hash, st: System, f: FlowId)
    requires AtRest(h, st) && f in st.clients && st.clients[f].open
    ensures st.clients[f].inq == []
    ensures st.clients[f].party.Uploader? ==> !st.clients[f].party.writing
  {
    assert !Enabled(h, st, ClientReceives(f));
    assert !Enabled(h, st, ClientWriteComplete(f));
  }

  /** What a client has sent is handled, unless it makes the proxy end. */
  lemma ProxyRests(h: Hash, st: System, f: FlowId)
    requires AtRest(h, st) && f in st.clients && f in st.proxy.clients && st.clients[f].outq != []
    ensures exists pick ::
              PickOk(st.proxy, f, st.clients[f].outq[0], pick) && OnClientMessage(h, st.proxy, f, st.clients[f].outq[0], pick).outcome == Exit
  {
    PickExists(st.proxy, f, st.clients[f].outq[0]);
    var pick :| PickOk(st.proxy, f, st.clients[f].outq[0], pick);
    assert !Enabled(h, st, ProxyReceivesFromClient(f, pick));
  }

  // ----- Uploads at rest -----

  /** The agent is in the middle of a block, and neither a first piece nor a callback nor a reply for it is left:
      nothing will ever move it on. */
  ghost predicate Overlooked(st: System, f: FlowId) {
    && IsUploader(st, f)
    && (AgentOf(st, f).phase == AM.UploadingBlocks || AgentOf(st, f).phase == AM.WaitingBlockAck)
    && st.clients[f].inq == []
    && (f in st.proxy.clients ==> Firsts(st.clients[f].outq) == 0 && Subs(st.proxy, f) == {})
  }

  lemma UploaderOutRests(h: Hash, st: System, f: FlowId)
    requires AtRest(h, st) && IsUploader(st, f) && UploaderOk(h, st, f) && f in st.proxy.clients && st.proxy.storages != map[]
    ensures st.clients[f].outq == []
  {
    if st.clients[f].outq != [] {
      ProxyRests(h, st, f);
      var pick :| PickOk(st.proxy, f, st.clients[f].outq[0], pick) && OnClientMessage(h, st.proxy, f, st.clients[f].outq[0], pick).outcome == Exit;
      FromUploaderIs(h, st, f, pick);
    }
  }

  lemma RestPhase(h: Hash, e: ClientEnd, a: AM.Agent, c: Client, subs: set<(ServerId, Md5)>)
    requires UploadPhase(h, e, a, Some(c), subs) && e.inq == [] && e.outq == []
    ensures a.phase == AM.UploadingBlocks || a.phase == AM.WaitingBlockAck || a.phase == AM.Succ
    ensures a.phase == AM.WaitingBlockAck ==> a.current < |a.upload|
  {
  }

  lemma NoCallbackRests(h: Hash, st: System, f: FlowId)
    requires AtRest(h, st) && DueAll(st) && IsUploader(st, f) && f in st.proxy.clients && st.clients[f].outq == [] && ServersOpen(st)
    requires AgentOf(st, f).phase == AM.WaitingBlockAck && AgentOf(st, f).current < |AgentOf(st, f).upload|
    ensures Subs(st.proxy, f) == {}
  {
    assert DueOk(st, f);
    if x :| x in Subs(st.proxy, f) {
      ServerRests(h, st, x.0);
    }
  }

  /** At rest every connected upload has succeeded, or its agent has overlooked a reply. */
  lemma UploadsAtRest(h: Hash, st: System, f: FlowId)
    requires Reachable(h, st) && AtRest(h, st) && ServersOpen(st)
    requires IsUploader(st, f) && st.clients[f].open && f in st.proxy.clients
    ensures AgentOf(st, f).phase == AM.Succ <==> !Overlooked(st, f)
  {
    assert UploaderOk(h, st, f) && DueAll(st) by {
      ReachableInv(h, st);
      assert ClientOk(h, st, f);
      ReachableDue(h, st);
    }
    ClientRests(h, st, f);
    UploaderOutRests(h, st, f);
    var at :| UploaderAt(h, st, f, at);
    RestPhase(h, st.clients[f], AgentOf(st, f), st.proxy.clients[f], Subs(st.proxy, f));
    if AgentOf(st, f).phase == AM.WaitingBlockAck {
      NoCallbackRests(h, st, f);
    }
  }

  // ----- Downloads at rest -----

  lemma PipeRests(h: Hash, st: System, f: FlowId, s: ServerId)
    requires ServersOk(h, st) && AtRest(h, st) && ServersOpen(st)
    ensures PipeOf(st, s, f) == []
  {
    if s in st.proxy.storages && s in st.servers {
      ServerRests(h, st, s);
      assert ServerEndOk(h, st.servers[s]);
      assert st.servers[s].server.downloads == map[];
    }
  }

  lemma DownloadPhaseRests(h: Hash, st: System, f: FlowId)
    requires IsDownloader(st, f) && DownloaderOk(st, f) && f in st.proxy.clients
    requires st.clients[f].outq == [] && (DownloaderOf(st, f).phase == DM.Receiving ==> st.clients[f].inq == [])
    requires forall s :: PipeOf(st, s, f) == []
    ensures st.proxy.clients[f].phase == Init ==> DownloaderOf(st, f).phase == DM.Failed
    ensures st.proxy.clients[f].phase != Init ==> DownloaderOf(st, f).phase == DM.Done || (DownloaderOf(st, f).phase == DM.Receiving && Stranded(st, f))
    ensures DownloaderOf(st, f).phase == DM.Done ==> st.proxy.clients[f].phase == HaveTransferedAllBlocks
  {
    var c := st.proxy.clients[f];
    if c.phase == WaitingTransferBlock {
      if exists s, chunks, content, offset, index :: Transfering(st, f, c, s, chunks, content, offset, index) {
        var s: ServerId, chunks, content, offset: nat, index: nat :| Transfering(st, f, c, s, chunks, content, offset, index);
        PiecesAreTheBlock(c.needed[c.index], f, content, offset, index);
      }
    }
  }

  /** The flow waits for pieces that a server has left with. */
  ghost predicate LostItsServer(st: System, f: FlowId) {
    IsDownloader(st, f) && f in st.proxy.clients && st.proxy.clients[f].phase == WaitingTransferBlock && exists s :: StrandedAt(st, f, s)
  }

  lemma AskRests(h: Hash, st: System, f: FlowId)
    requires AtRest(h, st) && IsDownloader(st, f) && DownloaderOk(st, f) && f in st.proxy.clients && st.clients[f].outq != []
    ensures st.proxy.clients[f].phase == Init && DownloaderOf(st, f).phase == DM.Receiving
    ensures DownloaderOf(st, f).id in st.proxy.ids && st.proxy.ids[DownloaderOf(st, f).id] == []
  {
    ProxyRests(h, st, f);
    var pick :| PickOk(st.proxy, f, st.clients[f].outq[0], pick) && OnClientMessage(h, st.proxy, f, st.clients[f].outq[0], pick).outcome == Exit;
    FromDownloaderIs(h, st, f, pick);
  }

  /** At rest every connected download has ended: with the whole file, unless a server left with a part of it, or
      its file was not registered when it was asked for. Only the request for an empty file is never handled. */
  lemma DownloadsAtRest(h: Hash, st: System, f: FlowId)
    requires Reachable(h, st) && AtRest(h, st) && ServersOpen(st)
    requires IsDownloader(st, f) && f in st.proxy.clients && (st.clients[f].open || DownloaderOf(st, f).phase != DM.Receiving)
    ensures DownloaderOf(st, f).phase == DM.Done <==> st.proxy.clients[f].phase != Init && !LostItsServer(st, f)
    ensures DownloaderOf(st, f).phase == DM.Failed <==> st.proxy.clients[f].phase == Init && st.clients[f].outq == []
    ensures st.clients[f].outq != [] ==> DownloaderOf(st, f).id in st.proxy.ids && st.proxy.ids[DownloaderOf(st, f).id] == []
  {
    ReachableInv(h, st);
    assert ClientOk(h, st, f);
    if st.clients[f].outq != [] {
      AskRests(h, st, f);
    } else {
      DrainedRests(h, st, f);
    }
  }

  lemma DrainedRests(h: Hash, st: System, f: FlowId)
    requires ServersOk(h, st) && AtRest(h, st) && ServersOpen(st) && IsDownloader(st, f) && DownloaderOk(st, f)
    requires f in st.proxy.clients && st.clients[f].outq == [] && (st.clients[f].open || DownloaderOf(st, f).phase != DM.Receiving)
    ensures DownloaderOf(st, f).phase == DM.Done <==> st.proxy.clients[f].phase != Init && !LostItsServer(st, f)
    ensures DownloaderOf(st, f).phase == DM.Failed <==> st.proxy.clients[f].phase == Init
  {
    if st.clients[f].open {
      ClientRests(h, st, f);
    }
    forall s ensures PipeOf(st, s, f) == [] {
      PipeRests(h, st, f, s);
    }
    DownloadPhaseRests(h, st, f);
  }
}
