/** Every message of a client handled by the proxy lowers the measure of what is left to do; so does, then,
    every internal step, and no run can go on for ever without somebody joining or leaving. */
module ProxyProgress {
  import opened Types
  import AM = AgentModel
  import opened ProxyModel
  import opened SystemModel
  import opened Invariant
  import opened Frames
  import opened ProxySteps
  import opened UploadHandlers
  import opened DownloadHandlers
  import opened CloseHandlers
  import opened Runs
  import opened Measure
  import opened ClientProgress
  import opened ServerProgress
  import opened Safety

  // ----- Messages of clients -----

  lemma HandledNoRise(st: System, st1: System, f: FlowId, r: ProxyResult, g: FlowId)
    requires Taken(st, st1, f) && ProxyMoves(st.proxy, r.proxy, f) && g != f && Mail(r.toClients, g) == []
    ensures NoRise(st, AfterProxy(st1, r), g)
  {
    assert SameProxy(st.proxy, r.proxy, g);
    SubsetSize(Subs(r.proxy, g), Subs(st.proxy, g));
    if g in st.clients {
      assert AfterProxy(st1, r).clients[g].inq == st.clients[g].inq + [];
      assert AfterProxy(st1, r).clients[g] == st.clients[g];
    }
  }

  /** A handler that answers a first request, or ends a block. */
  lemma HandledReaches(st: System, f: FlowId, r: ProxyResult)
    requires f in st.clients && st.clients[f].outq != [] && ProxyMoves(st.proxy, r.proxy, f) && f < st.proxy.nextFlow
    requires forall g :: g != f ==> Mail(r.toClients, g) == []
    requires
      var st' := AfterProxy(PopFromClient(st, f), r);
      || RequestDue(st', f) < RequestDue(st, f)
      || (RequestDue(st', f) == RequestDue(st, f) && BlocksDue(st', f) < BlocksDue(st, f))
    ensures Below(RankOf(AfterProxy(PopFromClient(st, f), r)), RankOf(st))
  {
    PopTakes(st, f);
    var st' := AfterProxy(PopFromClient(st, f), r);
    forall g: FlowId | g != f ensures NoRise(st, st', g) {
      HandledNoRise(st, PopFromClient(st, f), f, r, g);
    }
    ReachesNext(st, st', f);
  }

  lemma TakenWeighs(st: System, f: FlowId, r: ProxyResult)
    requires f in st.clients && st.clients[f].outq != [] && |Mail(r.toClients, f)| <= 1
    ensures
      var st' := AfterProxy(PopFromClient(st, f), r);
      FlowWeight(st', f) + Cost(ClientOut, map[], st.clients[f].outq[0]) + 2 * |Subs(st.proxy, f)|
        == FlowWeight(st, f) + 2 * |Subs(r.proxy, f)|
           + (if Mail(r.toClients, f) == [] then 0 else Cost(ClientIn, map[], Mail(r.toClients, f)[0]))
  {
    var e := st.clients[f];
    WeighAppend(ClientIn, map[], e.inq, Mail(r.toClients, f));
    WeighOne(ClientIn, map[], Mail(r.toClients, f));
  }

  lemma UploadRequestLowers(h: Hash, st: System, f: FlowId)
    requires f in st.proxy.clients && f < st.proxy.nextFlow && IsUploader(st, f) && |st.clients[f].outq| == 1
    requires st.proxy.clients[f].phase == Init && st.clients[f].outq[0].UploadRequest?
    ensures Below(RankOf(AfterProxy(PopFromClient(st, f), OnUploadRequest(st.proxy, f, st.clients[f].outq[0].md5s))), RankOf(st))
  {
    var r := OnUploadRequest(st.proxy, f, st.clients[f].outq[0].md5s);
    SetClientMoves(st.proxy, r.proxy, f, r.proxy.clients[f]);
    HandledReaches(st, f, r);
  }

  /** What is sent to servers on behalf of the flow: nothing, or one piece to one server. */
  lemma SentWeighs(st: System, f: FlowId, r: ProxyResult, s: ServerId)
    requires f in st.clients && st.clients[f].outq != [] && s in st.servers && r.proxy.storages.Keys == st.proxy.storages.Keys
    requires |Mail(r.toServers, s)| <= 1 && forall msg :: msg in Mail(r.toServers, s) ==> msg.UploadBlock?
    ensures
      ServerWeight(AfterProxy(PopFromClient(st, f), r), s)
        == ServerWeight(st, s) + (if Mail(r.toServers, s) == [] then 0 else 3)
  {
    PopTakes(st, f);
    HandledServer(st, PopFromClient(st, f), f, r, s);
    if Mail(r.toServers, s) != [] {
      var msg := Mail(r.toServers, s)[0];
      assert msg in Mail(r.toServers, s);
      WeighAppend(ServerIn, st.servers[s].server.files, st.servers[s].inq, [msg]);
      WeighOne(ServerIn, st.servers[s].server.files, [msg]);
    }
  }

  lemma OthersNoRise(st: System, f: FlowId, r: ProxyResult)
    requires f in st.clients && st.clients[f].outq != [] && ProxyMoves(st.proxy, r.proxy, f)
    requires forall g :: g != f ==> Mail(r.toClients, g) == []
    ensures forall g: FlowId :: g != f ==> NoRise(st, AfterProxy(PopFromClient(st, f), r), g)
  {
    PopTakes(st, f);
    forall g: FlowId | g != f ensures NoRise(st, AfterProxy(PopFromClient(st, f), r), g) {
      HandledNoRise(st, PopFromClient(st, f), f, r, g);
    }
  }

  lemma ServersWeigh(st: System, f: FlowId, r: ProxyResult)
    requires f in st.clients && st.clients[f].outq != [] && r.proxy.storages.Keys == st.proxy.storages.Keys
    requires forall t :: t in st.servers ==> |Mail(r.toServers, t)| <= 1 && forall msg :: msg in Mail(r.toServers, t) ==> msg.UploadBlock?
    ensures forall t: ServerId ::
              ServerWeight(AfterProxy(PopFromClient(st, f), r), t)
                == ServerWeight(st, t) + (if t in st.servers && Mail(r.toServers, t) != [] then 3 else 0)
  {
    forall t: ServerId
      ensures ServerWeight(AfterProxy(PopFromClient(st, f), r), t)
           == ServerWeight(st, t) + (if t in st.servers && Mail(r.toServers, t) != [] then 3 else 0)
    {
      if t in st.servers {
        SentWeighs(st, f, r, t);
      }
    }
  }

  lemma UploadAllLowers(h: Hash, st: System, f: FlowId)
    requires f in st.proxy.clients && f < st.proxy.nextFlow && IsUploader(st, f) && st.clients[f].outq != []
    requires st.proxy.clients[f].phase == WaitingUploadBlock && st.clients[f].outq[0].UploadAllBlocks?
    requires AgentOf(st, f).phase == AM.WaitingFinalResult
    ensures Below(RankOf(AfterProxy(PopFromClient(st, f), OnUploadAllBlocks(h, st.proxy, f))), RankOf(st))
  {
    var r := OnUploadAllBlocks(h, st.proxy, f);
    SetClientMoves(st.proxy, r.proxy, f, r.proxy.clients[f]);
    SameSubs(st.proxy, r.proxy, f);
    TakenWeighs(st, f, r);
    OthersNoRise(st, f, r);
    ServersWeigh(st, f, r);
    LosesWeight(st, AfterProxy(PopFromClient(st, f), r), f, st.nextServer);
  }

  lemma PieceWeighs(st: System, f: FlowId, r: ProxyResult)
    requires IsUploader(st, f) && f in st.proxy.clients && f in r.proxy.clients
    requires st.clients[f].outq != [] && st.clients[f].outq[0].UploadBlock? && st.proxy.clients[f].phase == WaitingUploadBlock
    requires PieceSent(st, f, r) && |Subs(r.proxy, f)| <= |Subs(st.proxy, f)| + 1 && r.proxy.clients[f].phase == WaitingUploadBlock
    ensures
      var st' := AfterProxy(PopFromClient(st, f), r);
      && FlowWeight(st', f) + 4 <= FlowWeight(st, f)
      && RequestDue(st', f) == RequestDue(st, f) && BlocksDue(st', f) == BlocksDue(st, f)
  {
    TakenWeighs(st, f, r);
    assert st.clients[f].inq + [] == st.clients[f].inq;
  }

  /** One server, if any, gets the piece. */
  lemma PieceServers(st: System, f: FlowId, r: ProxyResult, s: ServerId)
    requires f in st.clients && f in st.proxy.clients && f in r.proxy.clients
    requires st.clients[f].outq != [] && st.clients[f].outq[0].UploadBlock? && PieceSent(st, f, r)
    requires s == if r.proxy.clients[f].relay == [] then st.nextServer else r.proxy.clients[f].relay[0]
    ensures
      var st' := AfterProxy(PopFromClient(st, f), r);
      && ServerWeight(st', s) <= ServerWeight(st, s) + 3
      && forall t: ServerId :: t != s ==> ServerWeight(st', t) == ServerWeight(st, t)
  {
    ServersWeigh(st, f, r);
    var relay := r.proxy.clients[f].relay;
    assert relay == [] || relay == [relay[0]];
  }

  lemma PieceLowers(st: System, f: FlowId, r: ProxyResult)
    requires IsUploader(st, f) && f in st.proxy.clients && f < st.proxy.nextFlow && f in r.proxy.clients
    requires forall s :: s in st.servers ==> s < st.nextServer
    requires st.clients[f].outq != [] && st.clients[f].outq[0].UploadBlock? && st.proxy.clients[f].phase == WaitingUploadBlock
    requires PieceSent(st, f, r) && |Subs(r.proxy, f)| <= |Subs(st.proxy, f)| + 1 && r.proxy.clients[f].phase == WaitingUploadBlock
    ensures Below(RankOf(AfterProxy(PopFromClient(st, f), r)), RankOf(st))
  {
    var relay := r.proxy.clients[f].relay;
    var s := if relay == [] then st.nextServer else relay[0];
    assert relay != [] ==> relay[0] in relay;
    PieceWeighs(st, f, r);
    OthersNoRise(st, f, r);
    PieceServers(st, f, r, s);
    LosesWeight(st, AfterProxy(PopFromClient(st, f), r), f, s);
  }

  lemma FirstPieceLowers(h: Hash, st: System, f: FlowId, pick: ServerId)
    requires Inv(h, st) && IsUploader(st, f) && f in st.proxy.clients && pick in st.proxy.storages
    requires st.proxy.clients[f].phase == WaitingUploadBlock && st.clients[f].outq != []
    requires st.clients[f].outq[0].UploadBlock? && st.clients[f].outq[0].index == 0
    ensures Below(RankOf(AfterProxy(PopFromClient(st, f), OnUploadBlock(st.proxy, f, st.clients[f].outq[0], pick))), RankOf(st))
  {
    var r := OnUploadBlock(st.proxy, f, st.clients[f].outq[0], pick);
    assert f < st.proxy.nextFlow && ClientOk(h, st, f);
    FirstPieceSent(h, st, f, pick);
    FirstPieceToken(h, st.clients[f], AgentOf(st, f), st.proxy.clients[f], Subs(st.proxy, f));
    SubscribeSelf(st.proxy, r.proxy, pick, st.clients[f].outq[0].md5, f);
    PieceLowers(st, f, r);
  }

  lemma RelayLowers(h: Hash, st: System, f: FlowId, pick: ServerId)
    requires Inv(h, st) && IsUploader(st, f) && f in st.proxy.clients
    requires st.proxy.clients[f].phase == WaitingUploadBlock && st.clients[f].outq != []
    requires st.clients[f].outq[0].UploadBlock? && st.clients[f].outq[0].index != 0
    ensures Below(RankOf(AfterProxy(PopFromClient(st, f), OnUploadBlock(st.proxy, f, st.clients[f].outq[0], pick))), RankOf(st))
  {
    var r := OnUploadBlock(st.proxy, f, st.clients[f].outq[0], pick);
    assert f < st.proxy.nextFlow && ClientOk(h, st, f);
    var at :| StreamsAt(h, st, f, at);
    RelaySent(st, f, pick);
    SameSubs(st.proxy, r.proxy, f);
    PieceLowers(st, f, r);
  }

  lemma FromUploaderLowers(h: Hash, st: System, f: FlowId, pick: ServerId)
    requires Inv(h, st) && IsUploader(st, f) && f in st.proxy.clients && st.clients[f].outq != []
    requires OnClientMessage(h, st.proxy, f, st.clients[f].outq[0], pick).outcome != Exit
    ensures Below(RankOf(FromClient(h, st, f, pick)), RankOf(st))
  {
    assert UploaderOk(h, st, f) && f < st.proxy.nextFlow by {
      assert ClientOk(h, st, f);
    }
    FromUploaderIs(h, st, f, pick);
    UploaderSends(h, st.clients[f], AgentOf(st, f), st.proxy.clients[f], Subs(st.proxy, f));
    var msg := st.clients[f].outq[0];
    if msg.UploadRequest? {
      UploadRequestLowers(h, st, f);
    } else if msg.UploadAllBlocks? {
      UploadAllLowers(h, st, f);
    } else if msg.index == 0 {
      FirstPieceLowers(h, st, f, pick);
    } else {
      RelayLowers(h, st, f, pick);
    }
  }

  // ----- Downloading clients -----

  lemma LeaveLowers(h: Hash, st: System, f: FlowId, c: Client)
    requires f in st.proxy.clients && f < st.proxy.nextFlow && IsDownloader(st, f) && st.clients[f].outq != []
    requires RequestDue(st, f) > 0 || BlocksDue(st, f) > 0
    ensures Below(RankOf(AfterProxy(PopFromClient(st, f), Leave(st.proxy, f, c))), RankOf(st))
  {
    PopTakes(st, f);
    LeaveMoves(h, st, f, c);
    HandledReaches(st, f, Leave(st.proxy, f, c));
  }

  lemma NextLowers(h: Hash, st: System, f: FlowId, r: ProxyResult, c: Client)
    requires f in st.proxy.clients && f < st.proxy.nextFlow && IsDownloader(st, f) && |st.clients[f].outq| == 1
    requires r.proxy == SetClient(st.proxy, f, c) && r.toClients.Keys <= {f}
    requires ContextBlocks(Some(c)) < ContextBlocks(Some(st.proxy.clients[f])) || st.proxy.clients[f].phase == Init
    ensures Below(RankOf(AfterProxy(PopFromClient(st, f), r)), RankOf(st))
  {
    SetClientMoves(st.proxy, r.proxy, f, c);
    assert AfterProxy(PopFromClient(st, f), r).clients[f].outq == [];
    HandledReaches(st, f, r);
  }

  lemma MissingBlockLowers(h: Hash, st: System, f: FlowId, pick: ServerId)
    requires IsDownloader(st, f) && DownloaderOk(st, f) && f < st.proxy.nextFlow && f in st.proxy.clients && st.clients[f].outq != []
    requires OnClientMessage(h, st.proxy, f, st.clients[f].outq[0], pick).outcome == Close
    ensures Below(RankOf(FromClient(h, st, f, pick)), RankOf(st))
  {
    var r := OnClientMessage(h, st.proxy, f, st.clients[f].outq[0], pick);
    FromDownloaderIs(h, st, f, pick);
    DownloaderSends(st, f);
    var c' :| !Finished(c') && r == Silent(SetClient(st.proxy, f, c'), Close);
    LeavesAfter(st, f, c');
    LeaveLowers(h, st, f, c');
  }

  lemma RequestHandledLowers(h: Hash, st: System, f: FlowId, pick: ServerId)
    requires IsDownloader(st, f) && DownloaderOk(st, f) && f < st.proxy.nextFlow && f in st.proxy.clients && st.clients[f].outq != []
    requires PickOk(st.proxy, f, st.clients[f].outq[0], pick) && st.proxy.clients[f].phase == Init
    requires OnClientMessage(h, st.proxy, f, st.clients[f].outq[0], pick).outcome == Ok
    ensures Below(RankOf(AfterProxy(PopFromClient(st, f), OnClientMessage(h, st.proxy, f, st.clients[f].outq[0], pick))), RankOf(st))
  {
    var r := OnClientMessage(h, st.proxy, f, st.clients[f].outq[0], pick);
    DownloaderSends(st, f);
    DownloadRequestIs(h, st, f, pick);
    assert r.proxy == SetClient(st.proxy, f, r.proxy.clients[f]);
    NextLowers(h, st, f, r, r.proxy.clients[f]);
  }

  lemma AckHandledLowers(h: Hash, st: System, f: FlowId, pick: ServerId)
    requires IsDownloader(st, f) && DownloaderOk(st, f) && f < st.proxy.nextFlow && f in st.proxy.clients && st.clients[f].outq != []
    requires PickOk(st.proxy, f, st.clients[f].outq[0], pick) && st.proxy.clients[f].phase == WaitingTransferBlock
    requires OnClientMessage(h, st.proxy, f, st.clients[f].outq[0], pick).outcome == Ok
    ensures Below(RankOf(AfterProxy(PopFromClient(st, f), OnClientMessage(h, st.proxy, f, st.clients[f].outq[0], pick))), RankOf(st))
  {
    var r := OnClientMessage(h, st.proxy, f, st.clients[f].outq[0], pick);
    DownloaderSends(st, f);
    TransferBlockAckIs(h, st, f, pick);
    NextLowers(h, st, f, r, r.proxy.clients[f]);
  }

  lemma FromDownloaderLowers(h: Hash, st: System, f: FlowId, pick: ServerId)
    requires Inv(h, st) && IsDownloader(st, f) && f in st.proxy.clients && st.clients[f].outq != []
    requires PickOk(st.proxy, f, st.clients[f].outq[0], pick)
    requires OnClientMessage(h, st.proxy, f, st.clients[f].outq[0], pick).outcome != Exit
    ensures Below(RankOf(FromClient(h, st, f, pick)), RankOf(st))
  {
    assert DownloaderOk(st, f) && f < st.proxy.nextFlow by {
      assert ClientOk(h, st, f);
    }
    if OnClientMessage(h, st.proxy, f, st.clients[f].outq[0], pick).outcome == Close {
      MissingBlockLowers(h, st, f, pick);
    } else {
      DownloaderSends(st, f);
      if st.proxy.clients[f].phase == Init {
        RequestHandledLowers(h, st, f, pick);
      } else {
        AckHandledLowers(h, st, f, pick);
      }
    }
  }

  // ----- Every internal step -----

  /** Steps other than joining and closing. */
  predicate Internal(act: Action) {
    || act.ClientReceives? || act.ClientWriteComplete? || act.ServerReceives? || act.ServerWriteComplete?
    || act.ProxyReceivesFromClient? || act.ProxyReceivesFromServer?
  }

  lemma EndStepLowers(h: Hash, st: System, act: Action)
    requires Inv(h, st) && Enabled(h, st, act) && Internal(act) && !act.ProxyReceivesFromClient? && !act.ProxyReceivesFromServer?
    ensures Below(RankOf(Apply(h, st, act)), RankOf(st))
  {
    match act
    case ClientReceives(f) =>
      if st.clients[f].party.Uploader? {
        UploaderReceiveLowers(h, st, f);
      } else {
        DownloaderReceiveLowers(h, st, f);
      }
    case ClientWriteComplete(f) => UploaderWriteLowers(h, st, f);
    case ServerReceives(s) => ServerReceiveLowers(h, st, s);
    case ServerWriteComplete(s) => ServerWriteLowers(h, st, s);
  }

  /** Every internal step lowers the rank. */
  lemma StepLowers(h: Hash, st: System, act: Action)
    requires Inv(h, st) && Enabled(h, st, act) && Internal(act)
    ensures Below(RankOf(Apply(h, st, act)), RankOf(st))
  {
    if act.ProxyReceivesFromClient? {
      if st.clients[act.flow].party.Uploader? {
        FromUploaderLowers(h, st, act.flow, act.pick);
      } else {
        FromDownloaderLowers(h, st, act.flow, act.pick);
      }
    } else if act.ProxyReceivesFromServer? {
      FromServerLowers(h, st, act.server, act.order);
    } else {
      EndStepLowers(h, st, act);
    }
  }

  ghost predicate InternalStep(h: Hash, st: System, act: Action, st': System) {
    Internal(act) && Enabled(h, st, act) && st' == Apply(h, st, act)
  }

  lemma {:induction false} StopsFrom(h: Hash, run: nat -> System, acts: nat -> Action, i: nat)
    requires Inv(h, run(i))
    ensures exists k: nat :: k >= i && !InternalStep(h, run(k), acts(k), run(k + 1))
    decreases RankOf(run(i)).requests, RankOf(run(i)).blocks, RankOf(run(i)).weight
  {
    if InternalStep(h, run(i), acts(i), run(i + 1)) {
      StepKeeps(h, run(i), acts(i));
      StepLowers(h, run(i), acts(i));
      StopsFrom(h, run, acts, i + 1);
    }
  }

  /** As long as nobody joins or leaves everything comes to rest: whatever the clients, the servers and the
      interleaving, no sequence of internal steps from a reachable state goes on for ever. */
  lemma EveryRunStops(h: Hash, run: nat -> System, acts: nat -> Action)
    requires Reachable(h, run(0))
    ensures exists k: nat :: !InternalStep(h, run(k), acts(k), run(k + 1))
  {
    ReachableInv(h, run(0));
    StopsFrom(h, run, acts, 0);
  }
}
