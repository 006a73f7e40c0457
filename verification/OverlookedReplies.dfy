/** Which uploads do not come to an end: exactly those whose agent handles a reply while it is still sending
    the block (src/client/agent.cpp ignores messages in that state). */
module OverlookedReplies {
  import opened Types
  import opened FileBlocks
  import AM = AgentModel
  import opened ProxyModel
  import opened SystemModel
  import opened Invariant
  import opened Frames
  import opened ClientSteps
  import opened ConnectSteps
  import opened ProxySteps
  import opened UploadHandlers
  import opened CloseHandlers
  import opened ServerHandlers
  import opened VoteHandlers
  import opened Runs
  import opened Safety
  import opened Due
  import opened EndToEnd
  import opened Progress

  /** The flow's channels and callbacks are as they were. */
  ghost predicate SameToken(st: System, st': System, f: FlowId) {
    && f in st.clients && f in st'.clients && SameEnd(st.clients[f], st'.clients[f])
    && (f in st'.proxy.clients ==> f in st.proxy.clients && Subs(st'.proxy, f) == Subs(st.proxy, f))
  }

  lemma SameTokenOverlooked(st: System, st': System, f: FlowId)
    requires SameToken(st, st', f)
    ensures Overlooked(st, f) ==> Overlooked(st', f)
    ensures f in st'.proxy.clients && Overlooked(st', f) ==> Overlooked(st, f)
  {
  }

  lemma UntouchedToken(h: Hash, st: System, st': System, f: FlowId)
    requires Untouched(h, st, st', f) && f in st.clients
    ensures SameToken(st, st', f)
  {
  }

  // ----- Steps that do not concern the flow -----

  lemma FromUploaderMoves(h: Hash, st: System, g: FlowId, pick: ServerId)
    requires IsUploader(st, g) && UploaderOk(h, st, g) && g in st.proxy.clients && st.clients[g].outq != []
    requires OnClientMessage(h, st.proxy, g, st.clients[g].outq[0], pick).outcome != Exit
    ensures
      var r := OnClientMessage(h, st.proxy, g, st.clients[g].outq[0], pick);
      ProxyMoves(st.proxy, r.proxy, g) && r.toClients.Keys <= {g} && r.outcome == Ok
  {
    var msg := st.clients[g].outq[0];
    var r := OnClientMessage(h, st.proxy, g, msg, pick);
    FromUploaderIs(h, st, g, pick);
    if msg.UploadBlock? && msg.index == 0 {
      FirstPieceMoves(st.proxy, g, msg, pick);
    } else if msg.UploadBlock? {
      RelayMoves(st.proxy, g, msg, pick);
    } else {
      SetClientMoves(st.proxy, r.proxy, g, r.proxy.clients[g]);
    }
  }

  /** What the proxy does for a client concerns no other. */
  lemma FromClientMoves(h: Hash, st: System, g: FlowId, pick: ServerId)
    requires Inv(h, st) && Enabled(h, st, ProxyReceivesFromClient(g, pick))
    ensures exists r :: FromClient(h, st, g, pick) == AfterProxy(PopFromClient(st, g), r)
                     && ProxyMoves(st.proxy, r.proxy, g) && r.toClients.Keys <= {g}
  {
    assert ClientOk(h, st, g);
    var r := OnClientMessage(h, st.proxy, g, st.clients[g].outq[0], pick);
    if st.clients[g].party.Uploader? {
      FromUploaderMoves(h, st, g, pick);
      assert FromClient(h, st, g, pick) == AfterProxy(PopFromClient(st, g), r);
    } else {
      FromDownloaderMoves(h, st, g, pick);
    }
  }

  lemma FromDownloaderMoves(h: Hash, st: System, g: FlowId, pick: ServerId)
    requires IsDownloader(st, g) && DownloaderOk(st, g) && g in st.proxy.clients && st.clients[g].outq != []
    requires OnClientMessage(h, st.proxy, g, st.clients[g].outq[0], pick).outcome != Exit
    requires PickOk(st.proxy, g, st.clients[g].outq[0], pick)
    ensures exists r :: FromClient(h, st, g, pick) == AfterProxy(PopFromClient(st, g), r)
                     && ProxyMoves(st.proxy, r.proxy, g) && r.toClients.Keys <= {g}
  {
    var r := OnClientMessage(h, st.proxy, g, st.clients[g].outq[0], pick);
    FromDownloaderIs(h, st, g, pick);
    if r.outcome == Close {
      var c' :| !Finished(c') && r == Silent(SetClient(st.proxy, g, c'), Close);
      LeavesAfter(st, g, c');
      LeaveMoves(h, st, g, c');
      assert FromClient(h, st, g, pick) == AfterProxy(PopFromClient(st, g), Leave(st.proxy, g, c'));
    } else {
      DownloaderMoves(h, st, g, pick);
      assert FromClient(h, st, g, pick) == AfterProxy(PopFromClient(st, g), r);
    }
  }

  lemma HandledToken(st: System, st1: System, g: FlowId, r: ProxyResult, f: FlowId)
    requires Taken(st, st1, g) && ProxyMoves(st.proxy, r.proxy, g) && f != g && Mail(r.toClients, f) == [] && f in st.clients
    ensures SameToken(st, AfterProxy(st1, r), f)
  {
    assert SameProxy(st.proxy, r.proxy, f);
    assert st.clients[f].inq + [] == st.clients[f].inq;
  }

  lemma FromClientToken(h: Hash, st: System, g: FlowId, pick: ServerId, f: FlowId)
    requires Enabled(h, st, ProxyReceivesFromClient(g, pick)) && f != g && f in st.clients && Inv(h, st)
    ensures SameToken(st, FromClient(h, st, g, pick), f)
  {
    FromClientMoves(h, st, g, pick);
    var r :| FromClient(h, st, g, pick) == AfterProxy(PopFromClient(st, g), r)
          && ProxyMoves(st.proxy, r.proxy, g) && r.toClients.Keys <= {g};
    PopTakes(st, g);
    HandledToken(st, PopFromClient(st, g), g, r, f);
  }

  lemma CloseClientToken(h: Hash, st: System, g: FlowId, f: FlowId)
    requires g in st.proxy.clients && g in st.clients && f in st.clients
    ensures SameToken(st, CloseClient(st, g), f)
  {
    SetSame(st.proxy, g);
    LeaveMoves(h, st, g, st.proxy.clients[g]);
    assert st.clients[f].inq + [] == st.clients[f].inq;
    if f != g {
      assert SameProxy(st.proxy, Leave(st.proxy, g, st.proxy.clients[g]).proxy, f);
    }
  }

  /** The callback of the flow at this server fires, or nothing happens to the flow. */
  ghost predicate Replied(st': System, f: FlowId) {
    f in st'.clients && st'.clients[f].inq != []
  }

  /** The flow is as it was, or a callback of it has fired. */
  ghost predicate SameOrReplied(st: System, st': System, f: FlowId) {
    SameToken(st, st', f) || (f in st.proxy.clients && Subs(st.proxy, f) != {} && Replied(st', f))
  }

  lemma FiredReplies(h: Hash, st: System, st1: System, r: ProxyResult, f: FlowId, s: ServerId, m: Md5, succ: bool)
    requires IsUploader(st, f) && UploaderOk(h, st, f) && Fired(st.proxy, r, f, m, succ) && (s, m) in Subs(st.proxy, f)
    requires f in st1.clients && st1.clients[f] == st.clients[f]
    ensures Replied(AfterProxy(st1, r), f) && Subs(st.proxy, f) != {}
  {
    var at :| UploaderAt(h, st, f, at);
    PendingToken(h, st.clients[f], AgentOf(st, f), st.proxy.clients[f], Subs(st.proxy, f), (s, m));
  }

  lemma PieceToken(h: Hash, st: System, s: ServerId, f: FlowId)
    requires Inv(h, st) && IsUploader(st, f)
    requires s in st.proxy.storages && s in st.servers && st.servers[s].outq != [] && st.servers[s].outq[0].TransferBlock?
    ensures SameOrReplied(st, AfterProxy(PopFromServer(st, s), Forward(st, s)), f)
  {
    UnknownPiece(h, st, s);
    PieceOwner(h, st, s);
    TransferBlockOthers(h, st, s, Forward(st, s), f);
    UntouchedToken(h, st, AfterProxy(PopFromServer(st, s), Forward(st, s)), f);
  }

  lemma BlockSetToken(h: Hash, st: System, s: ServerId, f: FlowId)
    requires ServersOk(h, st) && f in st.clients
    requires s in st.proxy.storages && s in st.servers && st.servers[s].outq != [] && st.servers[s].outq[0].TransferBlockSet?
    ensures SameOrReplied(st, AfterProxy(PopFromServer(st, s), LearnSet(st, s)), f)
  {
    BlockSetServed(h, st, s);
    UntouchedToken(h, st, AfterProxy(PopFromServer(st, s), LearnSet(st, s)), f);
  }

  lemma AckedToken(h: Hash, st: System, s: ServerId, m: Md5, f: FlowId)
    requires Inv(h, st) && IsUploader(st, f) && s in st.servers && s in st.proxy.storages
    requires st.servers[s].outq != [] && st.servers[s].outq[0] == UploadBlockAck(m)
    ensures SameOrReplied(st, AfterProxy(PopFromServer(st, s), Acked(st.proxy, s, m)), f)
  {
    if (s, m) in Subs(st.proxy, f) && f in st.proxy.clients {
      PendingOwner(h, st, s, m, f);
      AckedFires(st.proxy, s, m, f);
      FiredReplies(h, st, PopFromServer(st, s), Acked(st.proxy, s, m), f, s, m, true);
    } else {
      AckedOther(h, st, s, m, f);
      UntouchedToken(h, st, AfterProxy(PopFromServer(st, s), Acked(st.proxy, s, m)), f);
    }
  }

  lemma LeftToken(h: Hash, st: System, s: ServerId, order: seq<Md5>, f: FlowId)
    requires Inv(h, st) && IsUploader(st, f) && s in st.servers && s in st.proxy.storages
    requires Enumerates(order, st.proxy.storages[s].subs.Keys)
    ensures SameOrReplied(st, AfterProxy(st, OnServerClose(st.proxy, s, order)), f)
  {
    if PendingAt(st.proxy, s, f) && f in st.proxy.clients {
      var m :| (s, m) in Subs(st.proxy, f);
      PendingOwner(h, st, s, m, f);
      LeftFires(st.proxy, s, order, f, m);
      FiredReplies(h, st, st, OnServerClose(st.proxy, s, order), f, s, m, false);
    } else {
      LeftServed(st, s, order);
      LeftOther(h, st, s, order, f);
      UntouchedToken(h, st, AfterProxy(st, OnServerClose(st.proxy, s, order)), f);
    }
  }

  lemma FromServerIs(h: Hash, st: System, s: ServerId, order: seq<Md5>)
    requires ServersOk(h, st) && s in st.proxy.storages && s in st.servers && st.servers[s].outq != []
    ensures
      var msg, st1, st' := st.servers[s].outq[0], PopFromServer(st, s), FromServer(st, s, order);
      || st' == AfterProxy(st, OnServerClose(st.proxy, s, order))
      || (msg.TransferBlockSet? && st' == AfterProxy(st1, LearnSet(st, s)))
      || (msg.UploadBlockAck? && st' == AfterProxy(st1, Acked(st.proxy, s, msg.md5)))
      || (msg.TransferBlock? && st' == AfterProxy(st1, Forward(st, s)))
  {
    var msg := st.servers[s].outq[0];
    ServerSends(h, st, s);
    ServerOutcome(st.proxy, s, msg);
    if OnServerMessage(st.proxy, s, msg).outcome == Close {
    } else if msg.TransferBlockSet? {
      BlockSetIs(st.proxy, s, msg);
    } else if msg.UploadBlockAck? {
      AckIs(st.proxy, s, msg.md5);
    } else {
      TransferBlockIs(st, s);
    }
  }

  lemma ServedToken(h: Hash, st: System, s: ServerId, order: seq<Md5>, f: FlowId, st': System)
    requires Inv(h, st) && IsUploader(st, f) && s in st.proxy.storages && s in st.servers && st.servers[s].outq != []
    requires Enumerates(order, st.proxy.storages[s].subs.Keys)
    requires
      var msg, st1 := st.servers[s].outq[0], PopFromServer(st, s);
      || st' == AfterProxy(st, OnServerClose(st.proxy, s, order))
      || (msg.TransferBlockSet? && st' == AfterProxy(st1, LearnSet(st, s)))
      || (msg.UploadBlockAck? && st' == AfterProxy(st1, Acked(st.proxy, s, msg.md5)))
      || (msg.TransferBlock? && st' == AfterProxy(st1, Forward(st, s)))
    ensures SameOrReplied(st, st', f)
  {
    var msg := st.servers[s].outq[0];
    if st' == AfterProxy(st, OnServerClose(st.proxy, s, order)) {
      LeftToken(h, st, s, order, f);
    } else if msg.TransferBlockSet? {
      BlockSetToken(h, st, s, f);
    } else if msg.UploadBlockAck? {
      AckedToken(h, st, s, msg.md5, f);
    } else {
      PieceToken(h, st, s, f);
    }
  }

  lemma FromServerToken(h: Hash, st: System, s: ServerId, order: seq<Md5>, f: FlowId)
    requires Inv(h, st) && IsUploader(st, f) && s in st.proxy.storages && s in st.servers && st.servers[s].outq != []
    requires Enumerates(order, st.proxy.storages[s].subs.Keys)
    ensures SameOrReplied(st, FromServer(st, s, order), f)
  {
    FromServerIs(h, st, s, order);
    ServedToken(h, st, s, order, f, FromServer(st, s, order));
  }

  /** Steps of the flow's own client, and messages from it. */
  predicate Own(act: Action, f: FlowId) {
    || act == ClientReceives(f) || act == ClientWriteComplete(f)
    || (act.ProxyReceivesFromClient? && act.flow == f)
  }

  lemma JoinToken(st: System, e: ServerEnd, f: FlowId)
    requires f in st.clients && st.nextServer !in st.proxy.storages
    ensures SameToken(st, Join(st, e), f)
  {
    JoinSubs(st.proxy, st.nextServer, f);
  }

  lemma ConnectToken(h: Hash, st: System, e: ClientEnd, f: FlowId)
    requires f in st.clients && f < st.proxy.nextFlow
    ensures SameToken(st, Connect(st, e), f)
  {
    ConnectUntouched(h, st, e, f);
  }

  lemma ProxyToken(h: Hash, st: System, act: Action, f: FlowId)
    requires Inv(h, st) && Enabled(h, st, act) && IsUploader(st, f) && !Own(act, f) && IsProxyStep(act)
    ensures SameOrReplied(st, Apply(h, st, act), f)
  {
    match act
    case ProxyReceivesFromClient(g, pick) => FromClientToken(h, st, g, pick, f);
    case ProxyReceivesFromServer(s, order) => FromServerToken(h, st, s, order, f);
    case ProxyClosesClient(g) =>
      KnownFlow(h, st, g);
      CloseClientToken(h, st, g, f);
    case ProxyClosesServer(s, order) => LeftToken(h, st, s, order, f);
  }

  lemma WithClientToken(st: System, g: FlowId, e: ClientEnd, f: FlowId)
    requires f in st.clients && g in st.clients && (g != f || e == Shut(st.clients[f]))
    ensures SameToken(st, WithClient(st, g, e), f)
  {
  }

  lemma WithServerToken(st: System, s: ServerId, e: ServerEnd, f: FlowId)
    requires f in st.clients
    ensures SameToken(st, WithServer(st, s, e), f)
  {
  }

  lemma ClientToken(h: Hash, st: System, act: Action, f: FlowId)
    requires Enabled(h, st, act) && f in st.clients && f < st.proxy.nextFlow && !Own(act, f)
    requires act.ConnectUploader? || act.ConnectDownloader? || act.ClientReceives? || act.ClientWriteComplete? || act.ClientCloses?
    ensures SameToken(st, Apply(h, st, act), f)
  {
    match act
    case ConnectUploader(file) => ConnectToken(h, st, NewUploader(h, file), f);
    case ConnectDownloader(id) => ConnectToken(h, st, NewDownloader(id), f);
    case ClientReceives(g) => WithClientToken(st, g, ClientReceive(st.clients[g]), f);
    case ClientWriteComplete(g) => WithClientToken(st, g, ClientWritten(st.clients[g]), f);
    case ClientCloses(g) => WithClientToken(st, g, Shut(st.clients[g]), f);
  }

  lemma ServerToken(h: Hash, st: System, act: Action, f: FlowId)
    requires Enabled(h, st, act) && f in st.clients && st.nextServer !in st.proxy.storages
    requires act.ConnectServer? || act.ServerReceives? || act.ServerWriteComplete? || act.ServerCloses?
    ensures SameToken(st, Apply(h, st, act), f)
  {
    match act
    case ConnectServer(files, order) => JoinToken(st, NewServer(files, order), f);
    case ServerReceives(s) => WithServerToken(st, s, ServerReceive(h, st.servers[s]), f);
    case ServerWriteComplete(s) => WithServerToken(st, s, ServerWritten(st.servers[s]), f);
    case ServerCloses(s) => WithServerToken(st, s, Closed(st.servers[s]), f);
  }

  lemma EndToken(h: Hash, st: System, act: Action, f: FlowId)
    requires Inv(h, st) && Enabled(h, st, act) && IsUploader(st, f) && !Own(act, f) && !IsProxyStep(act)
    ensures SameToken(st, Apply(h, st, act), f)
  {
    KnownFlow(h, st, f);
    if act.ConnectServer? || act.ServerReceives? || act.ServerWriteComplete? || act.ServerCloses? {
      ServerToken(h, st, act, f);
    } else {
      ClientToken(h, st, act, f);
    }
  }

  lemma OthersToken(h: Hash, st: System, act: Action, f: FlowId)
    requires Inv(h, st) && Enabled(h, st, act) && IsUploader(st, f) && !Own(act, f)
    ensures SameOrReplied(st, Apply(h, st, act), f)
  {
    if IsProxyStep(act) {
      ProxyToken(h, st, act, f);
    } else {
      EndToken(h, st, act, f);
    }
  }

  // ----- The flow's own steps -----

  lemma OwnReceive(h: Hash, e: ClientEnd, a: AM.Agent, ctx: Option<Client>, subs: set<(ServerId, Md5)>)
    requires AM.AgentOk(h, a) && UploadPhase(h, e, a, ctx, subs) && e.inq != []
    ensures
      var r := AM.OnMessage(a, e.inq[0]);
      var busy := r.agent.phase == AM.UploadingBlocks || r.agent.phase == AM.WaitingBlockAck;
      && (a.phase == AM.UploadingBlocks ==>
            r.agent == a && r.sends == [] && |e.inq| == 1 && (ctx.Some? ==> Firsts(e.outq) == 0 && subs == {}))
      && (a.phase != AM.UploadingBlocks && busy && r.outcome == Ok && ctx.Some? ==> Firsts(e.outq + r.sends) > 0)
  {
    var msg := e.inq[0];
    var r := AM.OnMessage(a, msg);
    AM.OnMessageFollows(h, a, msg);
    if a.phase == AM.WaitingUploadResponse {
      AM.ResponseStarts(h, a, msg);
    } else if a.phase == AM.WaitingBlockAck && msg.UploadBlockAck? {
      AM.AckStarts(h, a, msg);
    }
    FirstsAppend(e.outq, r.sends);
    if |r.sends| == 1 {
      assert r.sends == [r.sends[0]];
      FirstsOne(r.sends[0]);
    }
  }

  lemma ReceiveOverlooks(h: Hash, st: System, f: FlowId)
    requires IsUploader(st, f) && UploaderOk(h, st, f) && st.clients[f].inq != []
    ensures
      var st' := WithClient(st, f, ClientReceive(st.clients[f]));
      && (AgentOf(st, f).phase == AM.UploadingBlocks ==> Overlooked(st', f))
      && (AgentOf(st, f).phase != AM.UploadingBlocks && st'.clients[f].open && f in st'.proxy.clients ==> !Overlooked(st', f))
  {
    var e := st.clients[f];
    var at :| UploaderAt(h, st, f, at);
    OwnReceive(h, e, AgentOf(st, f), Context(st, f), Subs(st.proxy, f));
    assert e.outq + [] == e.outq;
  }

  lemma WriteSameToken(h: Hash, st: System, f: FlowId)
    requires IsUploader(st, f) && UploaderOk(h, st, f)
    ensures
      var st' := WithClient(st, f, ClientWritten(st.clients[f]));
      Overlooked(st', f) <==> Overlooked(st, f)
  {
    var e, a := st.clients[f], AgentOf(st, f);
    var r := AM.OnWriteComplete(a);
    assert AM.AgentOk(h, a) by {
      var at :| UploaderAt(h, st, f, at);
    }
    if a.phase == AM.UploadingBlocks {
      AM.WriteCompleteContinues(h, a);
      FirstsAppend(e.outq, r.sends);
      FirstsOne(r.sends[0]);
      assert r.sends == [r.sends[0]];
    } else {
      assert e.outq + [] == e.outq;
    }
  }

  lemma OwnMessage(h: Hash, st: System, f: FlowId, pick: ServerId)
    requires IsUploader(st, f) && UploaderOk(h, st, f) && f in st.proxy.clients && st.clients[f].outq != []
    requires OnClientMessage(h, st.proxy, f, st.clients[f].outq[0], pick).outcome != Exit
    ensures Overlooked(FromClient(h, st, f, pick), f) <==> Overlooked(st, f)
  {
    var e, a, c := st.clients[f], AgentOf(st, f), st.proxy.clients[f];
    var msg := e.outq[0];
    FromUploaderIs(h, st, f, pick);
    UploaderSends(h, e, a, c, Subs(st.proxy, f));
    var r := OnClientMessage(h, st.proxy, f, msg, pick);
    assert e.inq + [] == e.inq;
    if msg.UploadBlock? && msg.index == 0 {
      FirstPieceToken(h, e, a, c, Subs(st.proxy, f));
      SubscribeSelf(st.proxy, r.proxy, pick, msg.md5, f);
    } else if msg.UploadBlock? {
      SameSubs(st.proxy, r.proxy, f);
    }
  }

  // ----- Exactly these -----

  /** A reply is overlooked exactly when the agent handles it while it is still sending the block. */
  lemma OverlookedExactly(h: Hash, st: System, act: Action, f: FlowId)
    requires Reachable(h, st) && Enabled(h, st, act) && IsUploader(st, f) && !Overlooked(st, f)
    requires f in Apply(h, st, act).proxy.clients && f in Apply(h, st, act).clients && Apply(h, st, act).clients[f].open
    ensures Overlooked(Apply(h, st, act), f) <==> act == ClientReceives(f) && AgentOf(st, f).phase == AM.UploadingBlocks
  {
    ReachableInv(h, st);
    assert UploaderOk(h, st, f) by {
      assert ClientOk(h, st, f);
    }
    if act == ClientReceives(f) {
      ReceiveOverlooks(h, st, f);
    } else if act == ClientWriteComplete(f) {
      WriteSameToken(h, st, f);
    } else if act.ProxyReceivesFromClient? && act.flow == f {
      OwnMessage(h, st, f, act.pick);
    } else {
      OthersToken(h, st, act, f);
      if SameToken(st, Apply(h, st, act), f) {
        SameTokenOverlooked(st, Apply(h, st, act), f);
      }
    }
  }

  /** Nothing makes up for an overlooked reply. */
  lemma StaysOverlooked(h: Hash, st: System, act: Action, f: FlowId)
    requires Inv(h, st) && Enabled(h, st, act) && Overlooked(st, f)
    ensures Overlooked(Apply(h, st, act), f)
  {
    assert UploaderOk(h, st, f) by {
      assert ClientOk(h, st, f);
    }
    if act == ClientWriteComplete(f) {
      WriteSameToken(h, st, f);
    } else if act.ProxyReceivesFromClient? && act.flow == f {
      OwnMessage(h, st, f, act.pick);
    } else {
      assert !Own(act, f);
      OthersToken(h, st, act, f);
      SameTokenOverlooked(st, Apply(h, st, act), f);
    }
  }

  lemma RunStaysOverlooked(h: Hash, run: seq<System>, acts: seq<Action>, j: nat, f: FlowId)
    requires IsRun(h, run, acts) && j < |acts| && Overlooked(run[j], f)
    ensures Overlooked(run[j + 1], f)
  {
    RunKeeps(h, run, acts, j);
    StaysOverlooked(h, run[j], acts[j], f);
  }

  lemma {:induction false} OverlookedAlong(run: seq<System>, f: FlowId, i: nat, j: nat)
    requires i <= j < |run| && Overlooked(run[i], f)
    requires forall k :: i <= k < j && Overlooked(run[k], f) ==> Overlooked(run[k + 1], f)
    ensures Overlooked(run[j], f)
    decreases j
  {
    if i < j {
      OverlookedAlong(run, f, i, j - 1);
      assert Overlooked(run[j - 1 + 1], f);
    }
  }

  /** An agent that has overlooked a reply never succeeds, in no run. */
  lemma OverlookedForEver(h: Hash, run: seq<System>, acts: seq<Action>, i: nat, j: nat, f: FlowId)
    requires IsRun(h, run, acts) && i <= j < |run| && Overlooked(run[i], f)
    ensures Overlooked(run[j], f) && AgentOf(run[j], f).phase != AM.Succ
  {
    forall k | i <= k < j && Overlooked(run[k], f) ensures Overlooked(run[k + 1], f) {
      RunStaysOverlooked(h, run, acts, k, f);
    }
    OverlookedAlong(run, f, i, j);
  }

  // ----- Uploads end well -----

  ghost predicate StaysConnected(st: System, f: FlowId) {
    IsUploader(st, f) && f in st.proxy.clients && st.clients[f].open
  }

  lemma RunOverlooks(h: Hash, run: seq<System>, acts: seq<Action>, k: nat, f: FlowId)
    requires IsRun(h, run, acts) && k < |acts| && StaysConnected(run[k], f) && StaysConnected(run[k + 1], f) && !Overlooked(run[k], f)
    ensures Overlooked(run[k + 1], f) <==> acts[k] == ClientReceives(f) && AgentOf(run[k], f).phase == AM.UploadingBlocks
  {
    PrefixRun(h, run, acts, k);
    OverlookedExactly(h, run[k], acts[k], f);
  }

  lemma {:induction false} NeverOverlooked(run: seq<System>, f: FlowId, i: nat, j: nat)
    requires i <= j < |run| && !Overlooked(run[i], f)
    requires forall k :: i <= k < j && !Overlooked(run[k], f) ==> !Overlooked(run[k + 1], f)
    ensures !Overlooked(run[j], f)
    decreases j
  {
    if i < j {
      NeverOverlooked(run, f, i, j - 1);
      assert !Overlooked(run[j - 1 + 1], f);
    }
  }

  /** An upload that stays connected and handles no reply while it is sending a block has succeeded when the
      system comes to rest, and the system does come to rest. */
  lemma UploadsEndWell(h: Hash, run: seq<System>, acts: seq<Action>, i: nat, j: nat, f: FlowId)
    requires IsRun(h, run, acts) && i <= j < |run|
    requires forall k :: i <= k < j ==>
               StaysConnected(run[k], f) && !(acts[k] == ClientReceives(f) && AgentOf(run[k], f).phase == AM.UploadingBlocks)
    requires StaysConnected(run[j], f) && !Overlooked(run[i], f)
    requires AtRest(h, run[j]) && ServersOpen(run[j])
    ensures AgentOf(run[j], f).phase == AM.Succ
  {
    forall k | i <= k < j && !Overlooked(run[k], f) ensures !Overlooked(run[k + 1], f) {
      RunOverlooks(h, run, acts, k, f);
    }
    NeverOverlooked(run, f, i, j);
    PrefixRun(h, run, acts, j);
    UploadsAtRest(h, run[j], f);
  }
}
