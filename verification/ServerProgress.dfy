/** Every step of a server, and every message of a server handled by the proxy, lowers the measure of what is
    left to do. */
module ServerProgress {
  import opened Types
  import opened FileBlocks
  import SM = ServerModel
  import opened ProxyModel
  import opened SystemModel
  import opened ServerLinks
  import opened Invariant
  import opened ServerHandlers
  import opened VoteHandlers
  import opened Runs
  import opened Measure

  // ----- The server's own steps -----

  /** A server's step on its own. */
  lemma ServerAloneLowers(st: System, s: ServerId, e': ServerEnd)
    requires s in st.servers && s < st.nextServer && EndWeight(e') < EndWeight(st.servers[s])
    ensures Below(RankOf(WithServer(st, s, e')), RankOf(st))
  {
    var st' := WithServer(st, s, e');
    forall g: FlowId ensures NoRise(st, st', g) && FlowWeight(st', g) == FlowWeight(st, g) {
      assert Context(st', g) == Context(st, g);
    }
    LosesWeight(st, st', 0, s);
  }

  /** One more flow to serve adds its pieces to the work. */
  lemma {:induction false} WorkInsert(sv: SM.Server, sv': SM.Server, flows: set<FlowId>, g: FlowId)
    requires g !in flows && forall f :: f in flows ==> SM.Remaining(sv', f) == SM.Remaining(sv, f)
    ensures SM.Work(sv', flows + {g}) == SM.Work(sv, flows) + |SM.Remaining(sv', g)|
    decreases flows
  {
    var more := flows + {g};
    var f := SM.Lowest(more);
    if f == g {
      assert more - {g} == flows;
      SM.WorkSame(sv, sv', flows);
    } else {
      assert f == SM.Lowest(flows) && more - {f} == (flows - {f}) + {g};
      WorkInsert(sv, sv', flows - {f}, g);
    }
  }

  /** The weight that a handler may add to what the server has left. */
  ghost function After(r: SM.ServerResult): nat {
    Weigh(ServerOut, map[], r.sends) + 4 * SM.Work(r.server, r.server.downloads.Keys) + SetsLeft(r.server)
    + (if r.sends != [] then 1 else 0)
  }

  ghost function Before(sv: SM.Server): nat {
    4 * SM.Work(sv, sv.downloads.Keys) + SetsLeft(sv)
  }

  lemma UploadWeighs(h: Hash, sv: SM.Server, msg: Message)
    requires msg.UploadBlock?
    ensures After(SM.OnMessage(h, sv, msg)) < Cost(ServerIn, sv.files, msg) + Before(sv)
  {
    var r := SM.OnMessage(h, sv, msg);
    UploadSendsOne(h, sv, msg);
    WeighOne(ServerOut, map[], r.sends);
    forall f | f in sv.downloads.Keys ensures SM.Remaining(sv, f) == SM.Remaining(r.server, f) {
      SM.UploadConserves(h, sv, msg, f);
    }
    SM.WorkSame(sv, r.server, sv.downloads.Keys);
  }

  lemma UploadSendsOne(h: Hash, sv: SM.Server, msg: Message)
    requires msg.UploadBlock?
    ensures
      var r := SM.OnMessage(h, sv, msg);
      && |r.sends| <= 1 && (r.sends != [] ==> !r.sends[0].TransferBlock?)
      && r.server.downloads == sv.downloads && SetsLeft(r.server) == SetsLeft(sv)
  {
  }

  lemma NotedWork(h: Hash, sv: SM.Server, m: Md5, g: FlowId)
    requires SM.ServerOk(h, sv) && m in sv.files && g !in sv.downloads
    ensures
      var sv' := SM.Noted(sv, m, g);
      SM.Work(sv', sv'.downloads.Keys) == SM.Work(sv, sv.downloads.Keys) + PieceCount(|sv.files[m]|)
  {
    var sv' := SM.Noted(sv, m, g);
    forall f | f in sv.downloads.Keys ensures SM.Remaining(sv', f) == SM.Remaining(sv, f) {
      SM.NotedRemaining(h, sv, m, g, f);
    }
    WorkInsert(sv, sv', sv.downloads.Keys, g);
    assert sv'.downloads.Keys == sv.downloads.Keys + {g};
    NotedCount(h, sv, m, g);
  }

  lemma NotedCount(h: Hash, sv: SM.Server, m: Md5, g: FlowId)
    requires SM.ServerOk(h, sv) && m in sv.files && g !in sv.downloads
    ensures |SM.Remaining(SM.Noted(sv, m, g), g)| == PieceCount(|sv.files[m]|)
  {
    SM.NotedKeeps(h, sv, m, g);
    SM.RemainingCount(h, SM.Noted(sv, m, g), g);
  }

  lemma NotedSends(h: Hash, noted: SM.Server)
    requires SM.ServerOk(h, noted) && noted.downloads != map[]
    ensures
      var r := SM.SendPiece(noted);
      After(r) + 4 == 4 * SM.Work(noted, noted.downloads.Keys) + SetsLeft(noted) + 4
  {
    SM.SendPieceWorks(h, noted);
    SM.SendPieceKeeps(h, noted);
    SendPieceDownloads(h, noted, 0);
    WeighOne(ServerOut, map[], SM.SendPiece(noted).sends);
  }

  lemma DownloadIs(sv: SM.Server, m: Md5, g: FlowId)
    requires sv.items == sv.files.Keys && m in sv.files && g !in sv.downloads
    ensures SM.OnDownloadBlock(sv, m, g) == SM.SendPiece(SM.Noted(sv, m, g))
  {
  }

  lemma DownloadWeighs(h: Hash, sv: SM.Server, m: Md5, g: FlowId)
    requires SM.ServerOk(h, sv) && m in sv.files && g !in sv.downloads
    ensures After(SM.SendPiece(SM.Noted(sv, m, g))) < Cost(ServerIn, sv.files, DownloadBlock(m, g)) + Before(sv)
  {
    var noted := SM.Noted(sv, m, g);
    SM.NotedKeeps(h, sv, m, g);
    NotedWork(h, sv, m, g);
    NotedSends(h, noted);
    assert SetsLeft(noted) == SetsLeft(sv);
    assert Cost(ServerIn, sv.files, DownloadBlock(m, g)) == 4 * PieceCount(|sv.files[m]|) + 2;
    assert After(SM.SendPiece(noted)) == 4 * SM.Work(noted, noted.downloads.Keys) + SetsLeft(noted);
  }

  lemma CleanWork(h: Hash, sv: SM.Server, g: FlowId)
    requires SM.ServerOk(h, sv)
    ensures
      var sv' := SM.CleanDownload(sv, g).server;
      SM.Work(sv', sv'.downloads.Keys) <= SM.Work(sv, sv.downloads.Keys)
  {
    var sv' := SM.CleanDownload(sv, g).server;
    SM.CleanDownloadKeeps(h, sv, g);
    var left := sv.downloads.Keys - {g};
    assert sv'.downloads.Keys == left;
    forall f | f in left ensures SM.Remaining(sv', f) == SM.Remaining(sv, f) {
      SM.CleanDownloadConserves(h, sv, g, f);
    }
    SM.WorkSame(sv, sv', left);
    LessWork(sv, g);
  }

  lemma LessWork(sv: SM.Server, g: FlowId)
    ensures SM.Work(sv, sv.downloads.Keys - {g}) <= SM.Work(sv, sv.downloads.Keys)
  {
    var left := sv.downloads.Keys - {g};
    if g in sv.downloads {
      WorkInsert(sv, sv, left, g);
      assert left + {g} == sv.downloads.Keys;
    } else {
      assert left == sv.downloads.Keys;
    }
  }

  lemma CleanWeighs(h: Hash, sv: SM.Server, g: FlowId)
    requires SM.ServerOk(h, sv)
    ensures After(SM.OnClientClean(sv, g)) < Cost(ServerIn, sv.files, ClientClean(g)) + Before(sv)
  {
    var sv' := SM.CleanDownload(sv, g).server;
    CleanWork(h, sv, g);
    SM.CleanDownloadKeeps(h, sv, g);
    assert SM.OnClientClean(sv, g) == SM.ServerResult(sv'.(uploads := sv'.uploads - {g}), [], Ok);
    SM.WorkSame(sv', SM.OnClientClean(sv, g).server, sv'.downloads.Keys);
  }

  lemma HandlerWeighs(h: Hash, sv: SM.Server, msg: Message)
    requires SM.ServerOk(h, sv) && SM.Acceptable(sv, msg)
    ensures After(SM.OnMessage(h, sv, msg)) < Cost(ServerIn, sv.files, msg) + Before(sv)
  {
    match msg
    case UploadBlock(_, _, _, _, _) => UploadWeighs(h, sv, msg);
    case DownloadBlock(m, f) =>
      DownloadIs(sv, m, f);
      DownloadWeighs(h, sv, m, f);
    case ClientClean(f) => CleanWeighs(h, sv, f);
    case _ => OtherWeighs(h, sv, msg);
  }

  lemma OtherWeighs(h: Hash, sv: SM.Server, msg: Message)
    requires !msg.UploadBlock? && !msg.DownloadBlock? && !msg.ClientClean?
    ensures After(SM.OnMessage(h, sv, msg)) < Cost(ServerIn, sv.files, msg) + Before(sv)
  {
  }

  lemma ReceiveEndWeighs(h: Hash, e: ServerEnd)
    requires ServerEndOk(h, e) && e.inq != []
    ensures EndWeight(ServerReceive(h, e)) < EndWeight(e)
  {
    var r := SM.OnMessage(h, e.server, e.inq[0]);
    ReceiveAcceptable(h, e);
    HandlerWeighs(h, e.server, e.inq[0]);
    WeighAppend(ServerOut, map[], e.outq, r.sends);
    assert Weigh(ServerIn, r.server.files, e.inq[1..]) == Weigh(ServerIn, e.server.files, e.inq[1..]) by {
      SM.OnMessageKeeps(h, e.server, e.inq[0]);
      InTail(e.inq);
      WeighGrows(e.server.files, r.server.files, e.inq[1..]);
    }
  }

  lemma ServerReceiveLowers(h: Hash, st: System, s: ServerId)
    requires ServersOk(h, st) && s in st.servers && st.servers[s].inq != []
    ensures Below(RankOf(WithServer(st, s, ServerReceive(h, st.servers[s]))), RankOf(st))
  {
    ReceiveEndWeighs(h, st.servers[s]);
    ServerAloneLowers(st, s, ServerReceive(h, st.servers[s]));
  }

  lemma SetsWeigh(sv: SM.Server)
    requires sv.phase == SM.TransferingBlockSet && sv.next <= |sv.toSend|
    ensures After(SM.SendMd5s(sv)) <= Before(sv)
  {
    var r := SM.SendMd5s(sv);
    WeighOne(ServerOut, map[], r.sends);
    SM.WorkSame(sv, r.server, sv.downloads.Keys);
  }

  lemma PieceWeighs(h: Hash, sv: SM.Server)
    requires SM.ServerOk(h, sv)
    ensures After(SM.SendPiece(sv)) <= Before(sv)
  {
    if sv.downloads != map[] {
      SM.SendPieceWorks(h, sv);
      SM.SendPieceKeeps(h, sv);
      WeighOne(ServerOut, map[], SM.SendPiece(sv).sends);
    }
  }

  lemma WrittenEndWeighs(h: Hash, e: ServerEnd)
    requires ServerEndOk(h, e) && e.writing
    ensures EndWeight(ServerWritten(e)) < EndWeight(e)
  {
    var r := SM.OnWriteComplete(e.server);
    if e.server.phase == SM.TransferingBlockSet {
      SetsWeigh(e.server);
    } else {
      PieceWeighs(h, e.server);
    }
    SM.OnWriteCompleteKeeps(h, e.server);
    WeighAppend(ServerOut, map[], e.outq, r.sends);
  }

  lemma ServerWriteLowers(h: Hash, st: System, s: ServerId)
    requires ServersOk(h, st) && s in st.servers && st.servers[s].writing
    ensures Below(RankOf(WithServer(st, s, ServerWritten(st.servers[s]))), RankOf(st))
  {
    WrittenEndWeighs(h, st.servers[s]);
    ServerAloneLowers(st, s, ServerWritten(st.servers[s]));
  }

  // ----- Messages of servers -----

  lemma PopWeighs(e: ServerEnd)
    requires e.outq != []
    ensures EndWeight(Popped(e)) + Cost(ServerOut, map[], e.outq[0]) == EndWeight(e)
  {
  }

  /** A server's message taken by the proxy pays for what its handler does. */
  lemma ServedLowers(st: System, s: ServerId, r: ProxyResult, f: FlowId)
    requires s in st.servers && st.servers[s].outq != [] && ServedBy(st, s, PopFromServer(st, s), r) && s < st.nextServer
    requires forall g: FlowId :: g != f ==> NoRise(st, AfterProxy(PopFromServer(st, s), r), g)
    requires
      var st' := AfterProxy(PopFromServer(st, s), r);
      && (f < st.proxy.nextFlow || FlowWeight(st', f) == FlowWeight(st, f))
      && RequestDue(st', f) <= RequestDue(st, f) && BlocksDue(st', f) <= BlocksDue(st, f)
      && FlowWeight(st', f) < FlowWeight(st, f) + Cost(ServerOut, map[], st.servers[s].outq[0])
    ensures Below(RankOf(AfterProxy(PopFromServer(st, s), r)), RankOf(st))
  {
    var st1 := PopFromServer(st, s);
    var st' := AfterProxy(st1, r);
    forall t: ServerId | t in st.servers ensures st'.servers[t] == if t == s then Popped(st.servers[s]) else st.servers[t] {
      ServedServers(st, s, st1, r, t);
    }
    PopWeighs(st.servers[s]);
    LosesWeight(st, st', f, s);
  }

  /** A message that concerns no flow. */
  lemma ServedQuietly(st: System, s: ServerId, r: ProxyResult)
    requires s in st.servers && st.servers[s].outq != [] && ServedBy(st, s, PopFromServer(st, s), r) && s < st.nextServer
    requires st.proxy.nextFlow !in st.clients
    requires forall g: FlowId :: NoRise(st, AfterProxy(PopFromServer(st, s), r), g)
    ensures Below(RankOf(AfterProxy(PopFromServer(st, s), r)), RankOf(st))
  {
    var f := st.proxy.nextFlow;
    assert NoRise(st, AfterProxy(PopFromServer(st, s), r), f);
    assert f !in AfterProxy(PopFromServer(st, s), r).clients;
    ServedLowers(st, s, r, f);
  }

  lemma BlockSetLowers(h: Hash, st: System, s: ServerId)
    requires ServersOk(h, st) && FlowsOk(h, st)
    requires s in st.proxy.storages && s in st.servers && st.servers[s].outq != [] && st.servers[s].outq[0].TransferBlockSet?
    ensures Below(RankOf(AfterProxy(PopFromServer(st, s), LearnSet(st, s))), RankOf(st))
  {
    BlockSetServed(h, st, s);
    forall g: FlowId ensures NoRise(st, AfterProxy(PopFromServer(st, s), LearnSet(st, s)), g) {
      UntouchedNoRise(h, st, AfterProxy(PopFromServer(st, s), LearnSet(st, s)), g);
    }
    ServedQuietly(st, s, LearnSet(st, s));
  }

  lemma DeliveredWeighs(st: System, s: ServerId)
    requires s in st.proxy.storages && s in st.servers && st.servers[s].outq != [] && st.servers[s].outq[0].TransferBlock?
    requires IsDownloader(st, st.servers[s].outq[0].flow)
    ensures
      var f := st.servers[s].outq[0].flow;
      var st' := AfterProxy(PopFromServer(st, s), Forward(st, s));
      && FlowWeight(st', f) <= FlowWeight(st, f) + 2
      && RequestDue(st', f) == RequestDue(st, f) && BlocksDue(st', f) == BlocksDue(st, f)
  {
    var msg := st.servers[s].outq[0];
    var f := msg.flow;
    var st' := AfterProxy(PopFromServer(st, s), Forward(st, s));
    assert st'.proxy == st.proxy;
    WeighAppend(ClientIn, map[], st.clients[f].inq, Mail(Forward(st, s).toClients, f));
    WeighOne(ClientIn, map[], Mail(Forward(st, s).toClients, f));
  }

  lemma ForwardNoRise(h: Hash, st: System, s: ServerId, g: FlowId)
    requires ServersOk(h, st)
    requires s in st.proxy.storages && s in st.servers && st.servers[s].outq != [] && st.servers[s].outq[0].TransferBlock?
    requires g != st.servers[s].outq[0].flow
    ensures NoRise(st, AfterProxy(PopFromServer(st, s), Forward(st, s)), g)
  {
    TransferBlockOthers(h, st, s, Forward(st, s), g);
    UntouchedNoRise(h, st, AfterProxy(PopFromServer(st, s), Forward(st, s)), g);
  }

  lemma ForwardLowers(h: Hash, st: System, s: ServerId, f: FlowId)
    requires ServersOk(h, st)
    requires s in st.proxy.storages && s in st.servers && st.servers[s].outq != [] && st.servers[s].outq[0].TransferBlock?
    requires f == st.servers[s].outq[0].flow && IsDownloader(st, f) && f < st.proxy.nextFlow
    ensures Below(RankOf(AfterProxy(PopFromServer(st, s), Forward(st, s))), RankOf(st))
  {
    var st' := AfterProxy(PopFromServer(st, s), Forward(st, s));
    forall g: FlowId | g != f ensures NoRise(st, st', g) {
      ForwardNoRise(h, st, s, g);
    }
    DeliveredWeighs(st, s);
    ForwardedServers(st, s);
    LosesWeight(st, st', f, s);
  }

  lemma ForwardedServers(st: System, s: ServerId)
    requires s in st.proxy.storages && s in st.servers && st.servers[s].outq != [] && st.servers[s].outq[0].TransferBlock?
    ensures
      var st' := AfterProxy(PopFromServer(st, s), Forward(st, s));
      && ServerWeight(st', s) + 3 == ServerWeight(st, s)
      && forall t: ServerId :: t != s ==> ServerWeight(st', t) == ServerWeight(st, t)
  {
    forall t: ServerId
      ensures ServerWeight(AfterProxy(PopFromServer(st, s), Forward(st, s)), t) + (if t == s then 3 else 0) == ServerWeight(st, t)
    {
      ForwardedServer(st, s, t);
    }
  }

  lemma ForwardedServer(st: System, s: ServerId, t: ServerId)
    requires s in st.proxy.storages && s in st.servers && st.servers[s].outq != [] && st.servers[s].outq[0].TransferBlock?
    ensures ServerWeight(AfterProxy(PopFromServer(st, s), Forward(st, s)), t) + (if t == s then 3 else 0) == ServerWeight(st, t)
  {
    if t in st.servers {
      ServedServers(st, s, PopFromServer(st, s), Forward(st, s), t);
      PopWeighs(st.servers[s]);
    }
  }

  lemma TransferBlockLowers(h: Hash, st: System, s: ServerId)
    requires Inv(h, st) && s in st.proxy.storages && s in st.servers && st.servers[s].outq != [] && st.servers[s].outq[0].TransferBlock?
    ensures Below(RankOf(AfterProxy(PopFromServer(st, s), Forward(st, s))), RankOf(st))
  {
    UnknownPiece(h, st, s);
    PieceOwner(h, st, s);
    ForwardLowers(h, st, s, st.servers[s].outq[0].flow);
  }

  /** A callback that fires is heavier than the reply it sends. */
  lemma FiredNoRise(h: Hash, st: System, st1: System, r: ProxyResult, g: FlowId, m: Md5, succ: bool, s: ServerId)
    requires IsUploader(st, g) && UploaderOk(h, st, g) && Fired(st.proxy, r, g, m, succ) && (s, m) in Subs(st.proxy, g)
    requires st1.clients == st.clients
    ensures NoRise(st, AfterProxy(st1, r), g)
  {
    var at :| UploaderAt(h, st, g, at);
    PendingToken(h, st.clients[g], AgentOf(st, g), st.proxy.clients[g], Subs(st.proxy, g), (s, m));
    WeighOne(ClientIn, map[], Mail(r.toClients, g));
    assert st.clients[g].inq + Mail(r.toClients, g) == Mail(r.toClients, g);
  }

  lemma AckedNoRise(h: Hash, st: System, s: ServerId, m: Md5, g: FlowId)
    requires Inv(h, st) && s in st.servers && s in st.proxy.storages
    requires st.servers[s].outq != [] && st.servers[s].outq[0] == UploadBlockAck(m)
    ensures NoRise(st, AfterProxy(PopFromServer(st, s), Acked(st.proxy, s, m)), g)
  {
    if (s, m) in Subs(st.proxy, g) && g in st.proxy.clients {
      PendingOwner(h, st, s, m, g);
      AckedFires(st.proxy, s, m, g);
      FiredNoRise(h, st, PopFromServer(st, s), Acked(st.proxy, s, m), g, m, true, s);
    } else {
      AckedOther(h, st, s, m, g);
      UntouchedNoRise(h, st, AfterProxy(PopFromServer(st, s), Acked(st.proxy, s, m)), g);
    }
  }

  lemma AckedLowers(h: Hash, st: System, s: ServerId, m: Md5)
    requires Inv(h, st) && s in st.servers && s in st.proxy.storages
    requires st.servers[s].outq != [] && st.servers[s].outq[0] == UploadBlockAck(m)
    ensures Below(RankOf(AfterProxy(PopFromServer(st, s), Acked(st.proxy, s, m))), RankOf(st))
  {
    AckedServed(st, s, m);
    forall g: FlowId ensures NoRise(st, AfterProxy(PopFromServer(st, s), Acked(st.proxy, s, m)), g) {
      AckedNoRise(h, st, s, m, g);
    }
    ServedQuietly(st, s, Acked(st.proxy, s, m));
  }

  lemma LeftNoRise(h: Hash, st: System, s: ServerId, order: seq<Md5>, g: FlowId)
    requires Inv(h, st) && s in st.servers && s in st.proxy.storages && Enumerates(order, st.proxy.storages[s].subs.Keys)
    ensures NoRise(st, CloseServer(st, s, order), g)
  {
    var r := OnServerClose(st.proxy, s, order);
    if PendingAt(st.proxy, s, g) && g in st.proxy.clients {
      var m :| (s, m) in Subs(st.proxy, g);
      PendingOwner(h, st, s, m, g);
      LeftFires(st.proxy, s, order, g, m);
      FiredNoRise(h, st, st, r, g, m, false, s);
    } else {
      LeftServed(st, s, order);
      LeftOther(h, st, s, order, g);
      UntouchedNoRise(h, st, AfterProxy(st, r), g);
    }
  }

  lemma LeftWeighs(st: System, s: ServerId, order: seq<Md5>)
    requires s in st.servers && s in st.proxy.storages
    ensures ServerWeight(CloseServer(st, s, order), s) + 1 == ServerWeight(st, s)
    ensures forall t: ServerId :: t != s ==> ServerWeight(CloseServer(st, s, order), t) == ServerWeight(st, t)
  {
    var r := OnServerClose(st.proxy, s, order);
    LeftServed(st, s, order);
    forall t: ServerId | t in st.servers ensures AfterProxy(st, r).servers[t] == st.servers[t] {
      ServedServers(st, s, st, r, t);
    }
  }

  /** Dropping a server lowers the rank too. */
  lemma LeftLowers(h: Hash, st: System, s: ServerId, order: seq<Md5>)
    requires Inv(h, st) && s in st.servers && s in st.proxy.storages && Enumerates(order, st.proxy.storages[s].subs.Keys)
    ensures Below(RankOf(CloseServer(st, s, order)), RankOf(st))
  {
    var st', f := CloseServer(st, s, order), st.proxy.nextFlow;
    forall g: FlowId ensures NoRise(st, st', g) {
      LeftNoRise(h, st, s, order, g);
    }
    LeftWeighs(st, s, order);
    assert f !in st.clients && f !in st'.clients;
    assert NoRise(st, st', f);
    LosesWeight(st, st', f, s);
  }

  lemma FromServerLowers(h: Hash, st: System, s: ServerId, order: seq<Md5>)
    requires Inv(h, st) && s in st.servers && s in st.proxy.storages && st.servers[s].outq != []
    requires Enumerates(order, st.proxy.storages[s].subs.Keys)
    ensures Below(RankOf(FromServer(st, s, order)), RankOf(st))
  {
    var msg := st.servers[s].outq[0];
    ServerSends(h, st, s);
    ServerOutcome(st.proxy, s, msg);
    if OnServerMessage(st.proxy, s, msg).outcome == Close {
      LeftLowers(h, st, s, order);
    } else if msg.TransferBlockSet? {
      BlockSetIs(st.proxy, s, msg);
      BlockSetLowers(h, st, s);
    } else if msg.UploadBlockAck? {
      AckIs(st.proxy, s, msg.md5);
      AckedLowers(h, st, s, msg.md5);
    } else {
      TransferBlockIs(st, s);
      TransferBlockLowers(h, st, s);
    }
  }
}
