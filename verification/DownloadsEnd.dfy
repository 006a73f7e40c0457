/** Downloads that come to a good end: those whose blocks are all indexed when they are asked for. Files that were uploaded
    in the run are among them. */
module DownloadsEnd {
  import opened Types
  import opened FileBlocks
  import DM = DownloaderModel
  import opened ProxyModel
  import opened SystemModel
  import opened ServerLinks
  import opened Invariant
  import opened Frames
  import opened ServerSteps
  import opened ProxySteps
  import opened DownloadHandlers
  import opened ServerHandlers
  import opened Runs
  import opened EndToEnd
  import opened Progress
  import opened OverlookedReplies
  import opened DroppedServers
  import opened DownloadHistory

  // ----- The index only grows -----

  lemma ClientMessageIndex(h: Hash, p: Proxy, f: FlowId, msg: Message, pick: ServerId, s: ServerId)
    requires f in p.clients && s in p.storages
    ensures
      var r := OnClientMessage(h, p, f, msg, pick);
      s in r.proxy.storages && r.proxy.storages[s].md5s == p.storages[s].md5s
  {
  }

  lemma ServerMessageIndex(p: Proxy, s: ServerId, msg: Message, t: ServerId)
    requires s in p.storages && t in p.storages
    ensures
      var r := OnServerMessage(p, s, msg);
      t in r.proxy.storages && p.storages[t].md5s <= r.proxy.storages[t].md5s
  {
  }

  lemma FromClientIndex(h: Hash, st: System, f: FlowId, pick: ServerId, s: ServerId)
    requires f in st.proxy.clients && f in st.clients && st.clients[f].outq != [] && s in st.proxy.storages
    ensures s in FromClient(h, st, f, pick).proxy.storages && FromClient(h, st, f, pick).proxy.storages[s].md5s == st.proxy.storages[s].md5s
  {
    FromClientProxy(h, st, f, pick);
    ClientMessageIndex(h, st.proxy, f, st.clients[f].outq[0], pick, s);
  }

  lemma FromServerIndex(st: System, t: ServerId, order: seq<Md5>, s: ServerId)
    requires t in st.proxy.storages && t in st.servers && st.servers[t].outq != [] && s in st.proxy.storages
    requires s in FromServer(st, t, order).proxy.storages
    ensures st.proxy.storages[s].md5s <= FromServer(st, t, order).proxy.storages[s].md5s
  {
    ServerMessageIndex(st.proxy, t, st.servers[t].outq[0], s);
  }

  lemma ProxyStepIndex(h: Hash, st: System, act: Action, s: ServerId)
    requires Enabled(h, st, act) && IsProxyStep(act) && s in st.proxy.storages && s in Apply(h, st, act).proxy.storages
    ensures st.proxy.storages[s].md5s <= Apply(h, st, act).proxy.storages[s].md5s
  {
    match act
    case ProxyReceivesFromClient(f, pick) => FromClientIndex(h, st, f, pick, s);
    case ProxyReceivesFromServer(t, order) => FromServerIndex(st, t, order, s);
    case _ =>
  }

  lemma StepIndex(h: Hash, st: System, act: Action, s: ServerId)
    requires ServersOk(h, st) && Enabled(h, st, act) && s in st.proxy.storages && s in Apply(h, st, act).proxy.storages
    ensures st.proxy.storages[s].md5s <= Apply(h, st, act).proxy.storages[s].md5s
  {
    if IsProxyStep(act) {
      ProxyStepIndex(h, st, act, s);
    } else {
      EndStepServers(h, st, act, s);
    }
  }

  lemma StepIndexed(h: Hash, st: System, act: Action, m: Md5)
    requires ServersOk(h, st) && Enabled(h, st, act) && KeepsServers(st, Apply(h, st, act)) && Indexed(st.proxy, m)
    ensures Indexed(Apply(h, st, act).proxy, m)
  {
    var s :| s in st.proxy.storages && m in st.proxy.storages[s].md5s;
    StepIndex(h, st, act, s);
    assert m in Apply(h, st, act).proxy.storages[s].md5s;
  }

  // ----- No server leaves with pieces -----

  /** Servers that are not connected have nothing in hand for anybody. */
  ghost predicate NoneLost(st: System) {
    forall s, f: FlowId :: s in st.servers && s !in st.proxy.storages ==> Pipe(st.servers[s], f) == []
  }

  lemma ProxyLeavesAlone(h: Hash, st: System, act: Action, s: ServerId)
    requires Enabled(h, st, act) && IsProxyStep(act) && s in st.servers && s !in st.proxy.storages
    ensures s in Apply(h, st, act).servers
    ensures Apply(h, st, act).servers[s] == st.servers[s]
  {
    match act
    case ProxyReceivesFromClient(f, pick) => FromClientLeavesAlone(h, st, f, pick, s);
    case ProxyReceivesFromServer(t, order) => FromServerServer(h, st, t, order, s);
    case ProxyClosesClient(f) => UnmailedServerAt(st, OnClientClose(st.proxy, f), s);
    case ProxyClosesServer(t, order) => UnmailedServer(st, OnServerClose(st.proxy, t, order), s);
  }

  lemma UnmailedServerAt(st: System, r: ProxyResult, s: ServerId)
    requires s in st.servers && Mail(r.toServers, s) == []
    ensures AfterProxy(st, r).servers[s] == st.servers[s]
  {
    assert st.servers[s].inq + [] == st.servers[s].inq;
  }

  lemma FromClientLeavesAlone(h: Hash, st: System, f: FlowId, pick: ServerId, s: ServerId)
    requires Enabled(h, st, ProxyReceivesFromClient(f, pick)) && s in st.servers && s !in st.proxy.storages
    ensures FromClient(h, st, f, pick).servers[s] == st.servers[s]
  {
    var r := OnClientMessage(h, st.proxy, f, st.clients[f].outq[0], pick);
    var st1 := AfterProxy(PopFromClient(st, f), r);
    ClientMessageMail(h, st.proxy, f, st.clients[f].outq[0], pick, s);
    if Mail(r.toServers, s) != [] {
      ClientMessagePicks(h, st.proxy, f, st.clients[f].outq[0], pick);
    }
    UnmailedServerAt(PopFromClient(st, f), r, s);
    if r.outcome == Close {
      UnmailedServerAt(st1, OnClientClose(st1.proxy, f), s);
    }
  }

  lemma EndStepPipe(h: Hash, st: System, act: Action, s: ServerId, f: FlowId)
    requires ServersOk(h, st) && Enabled(h, st, act) && !IsProxyStep(act) && s in st.servers && Pipe(st.servers[s], f) == []
    ensures s in Apply(h, st, act).servers && Pipe(Apply(h, st, act).servers[s], f) == []
  {
    EndStepServers(h, st, act, s);
    assert ServerEndOk(h, st.servers[s]);
    if act == ServerReceives(s) {
      ReceiveSameFor(h, st.servers[s], f);
    } else if act == ServerWriteComplete(s) {
      WriteCompleteSameFor(h, st.servers[s], f);
    }
  }

  lemma StepNoneLost(h: Hash, st: System, act: Action, s: ServerId, f: FlowId)
    requires ServersOk(h, st) && NoneLost(st) && Enabled(h, st, act) && KeepsServers(st, Apply(h, st, act))
    requires s in Apply(h, st, act).servers && s !in Apply(h, st, act).proxy.storages
    ensures Pipe(Apply(h, st, act).servers[s], f) == []
  {
    if IsProxyStep(act) {
      ProxyLeavesAlone(h, st, act, s);
    } else {
      EndStepPipe(h, st, act, s, f);
    }
  }

  lemma {:induction false} RunNoneLost(h: Hash, run: seq<System>, acts: seq<Action>, i: nat)
    requires IsRun(h, run, acts) && i < |run| && forall k :: 0 <= k < i ==> KeepsServers(run[k], run[k + 1])
    ensures NoneLost(run[i])
    decreases i
  {
    RunKeeps(h, run, acts, if i == 0 then 0 else i - 1);
    if i == 0 {
      forall s, f: FlowId | s in run[0].servers ensures Pipe(run[0].servers[s], f) == [] {
        KnownFlow(h, run[0], f);
      }
    } else {
      RunNoneLost(h, run, acts, i - 1);
      assert KeepsServers(run[i - 1], run[i - 1 + 1]);
      forall s, f: FlowId | s in run[i].servers && s !in run[i].proxy.storages ensures Pipe(run[i].servers[s], f) == [] {
        StepNoneLost(h, run[i - 1], acts[i - 1], s, f);
      }
    }
  }

  // ----- A download goes on -----

  /** The proxy serves the flow, and every block of its list is indexed. */
  ghost predicate Downloading(st: System, f: FlowId) {
    && IsDownloader(st, f) && (st.clients[f].open || DownloaderOf(st, f).phase != DM.Receiving)
    && f in st.proxy.clients && (st.proxy.clients[f].phase == WaitingTransferBlock || st.proxy.clients[f].phase == HaveTransferedAllBlocks)
    && forall m :: m in st.proxy.clients[f].needed ==> Indexed(st.proxy, m)
  }

  lemma ServerMessageClients(p: Proxy, s: ServerId, msg: Message)
    requires s in p.storages
    ensures OnServerMessage(p, s, msg).proxy.clients.Keys == p.clients.Keys
  {
    forall votes: seq<Vote>, succ ensures CastVotes(Ballot(p.clients, map[]), votes, succ).clients.Keys == p.clients.Keys {
      CastVotesClients(Ballot(p.clients, map[]), votes, succ);
    }
  }

  lemma ServerCloseClients(p: Proxy, s: ServerId, order: seq<Md5>)
    requires s in p.storages
    ensures OnServerClose(p, s, order).proxy.clients.Keys == p.clients.Keys
  {
    CastVotesClients(Ballot(p.clients, map[]), AllVotes(p.storages[s].subs, order), false);
  }

  lemma FromOtherStays(h: Hash, st: System, g: FlowId, pick: ServerId, f: FlowId)
    requires Inv(h, st) && Enabled(h, st, ProxyReceivesFromClient(g, pick)) && f in st.proxy.clients && f != g
    ensures f in FromClient(h, st, g, pick).proxy.clients
  {
    FromClientMoves(h, st, g, pick);
    var r :| FromClient(h, st, g, pick) == AfterProxy(PopFromClient(st, g), r) && ProxyMoves(st.proxy, r.proxy, g) && r.toClients.Keys <= {g};
    assert SameProxy(st.proxy, r.proxy, f);
  }

  lemma FromServerStays(st: System, s: ServerId, order: seq<Md5>)
    requires s in st.proxy.storages && s in st.servers && st.servers[s].outq != []
    ensures FromServer(st, s, order).proxy.clients.Keys == st.proxy.clients.Keys
  {
    ServerMessageClients(st.proxy, s, st.servers[s].outq[0]);
    ServerCloseClients(st.proxy, s, order);
  }

  lemma ProxyStepStays(h: Hash, st: System, act: Action, f: FlowId)
    requires Inv(h, st) && Enabled(h, st, act) && IsProxyStep(act) && f in st.proxy.clients
    requires act != ProxyClosesClient(f) && !(act.ProxyReceivesFromClient? && act.flow == f)
    ensures f in Apply(h, st, act).proxy.clients
  {
    match act
    case ProxyReceivesFromClient(g, pick) => FromOtherStays(h, st, g, pick, f);
    case ProxyReceivesFromServer(s, order) => FromServerStays(st, s, order);
    case ProxyClosesClient(g) =>
    case ProxyClosesServer(s, order) => ServerCloseClients(st.proxy, s, order);
  }

  lemma AckedNext(h: Hash, st: System, f: FlowId, pick: ServerId)
    requires Downloading(st, f) && DownloaderOk(st, f) && Enabled(h, st, ProxyReceivesFromClient(f, pick))
    ensures
      var st' := FromClient(h, st, f, pick);
      f in st'.proxy.clients && st'.proxy.clients[f].needed == st.proxy.clients[f].needed
      && (st'.proxy.clients[f].phase == WaitingTransferBlock || st'.proxy.clients[f].phase == HaveTransferedAllBlocks)
  {
    var c, msg := st.proxy.clients[f], st.clients[f].outq[0];
    FromDownloaderIs(h, st, f, pick);
    AckSent(st, f);
    if c.index + 1 < |c.needed| {
      assert Wanted(st.proxy, f, msg) == Some(c.needed[c.index + 1]);
    }
    TransferBlockAckIs(h, st, f, pick);
  }

  /** A download with all its blocks indexed goes on, unless somebody closes its session. */
  lemma StepDownloading(h: Hash, st: System, act: Action, f: FlowId)
    requires Inv(h, st) && Enabled(h, st, act) && Downloading(st, f) && KeepsServers(st, Apply(h, st, act))
    requires act != ClientCloses(f) && act != ProxyClosesClient(f)
    ensures Downloading(Apply(h, st, act), f)
  {
    var st' := Apply(h, st, act);
    forall m | m in st.proxy.clients[f].needed ensures Indexed(st'.proxy, m) {
      StepIndexed(h, st, act, m);
    }
    if act.ProxyReceivesFromClient? && act.flow == f {
      assert ClientOk(h, st, f);
      AckedNext(h, st, f, act.pick);
      ProxyStepClients(h, st, act, f);
    } else if IsProxyStep(act) {
      ProxyStepExtends(h, st, act, f);
      ProxyStepStays(h, st, act, f);
    } else {
      EndStepClient(h, st, act, f);
    }
  }

  /** A download begins: its file is registered, and all blocks of it are indexed. */
  ghost predicate Begins(h: Hash, st: System, act: Action, f: FlowId) {
    && IsDownloader(st, f) && st.clients[f].open && f in st.proxy.clients && st.proxy.clients[f].phase == Init
    && act.ProxyReceivesFromClient? && act.flow == f && Enabled(h, st, act)
    && DownloaderOf(st, f).id in st.proxy.ids && forall m :: m in st.proxy.ids[DownloaderOf(st, f).id] ==> Indexed(st.proxy, m)
  }

  lemma RequestServed(h: Hash, st: System, f: FlowId, pick: ServerId)
    requires IsDownloader(st, f) && DownloaderOk(st, f) && Begins(h, st, ProxyReceivesFromClient(f, pick), f)
    ensures
      var p' := FromClient(h, st, f, pick).proxy;
      && f in p'.clients && p'.clients[f].phase == WaitingTransferBlock && p'.clients[f].needed == st.proxy.ids[DownloaderOf(st, f).id]
      && p'.storages == st.proxy.storages
  {
    var id := DownloaderOf(st, f).id;
    DownloaderSends(st, f);
    FromDownloaderIs(h, st, f, pick);
    ReallyNeedAll(st.proxy.ids[id]);
    assert Wanted(st.proxy, f, st.clients[f].outq[0]) == Some(st.proxy.ids[id][0]);
    DownloadRequestIs(h, st, f, pick);
  }

  lemma RequestBegins(h: Hash, st: System, f: FlowId, pick: ServerId)
    requires Begins(h, st, ProxyReceivesFromClient(f, pick), f) && DownloaderOk(st, f)
    ensures Downloading(Apply(h, st, ProxyReceivesFromClient(f, pick)), f)
  {
    RequestServed(h, st, f, pick);
    ProxyStepClients(h, st, ProxyReceivesFromClient(f, pick), f);
    forall m | m in st.proxy.ids[DownloaderOf(st, f).id] ensures Indexed(FromClient(h, st, f, pick).proxy, m) {
      assert Indexed(st.proxy, m);
    }
  }

  // ----- Runs -----

  /** Between the states `k` and `j` nobody closes the session of the flow. */
  ghost predicate Undisturbed(acts: seq<Action>, f: FlowId, k: nat, j: nat) {
    forall i :: k < i < j && i < |acts| ==> acts[i] != ClientCloses(f) && acts[i] != ProxyClosesClient(f)
  }

  lemma RunBegins(h: Hash, run: seq<System>, acts: seq<Action>, f: FlowId, k: nat)
    requires IsRun(h, run, acts) && k < |acts| && Begins(h, run[k], acts[k], f)
    ensures Downloading(run[k + 1], f)
  {
    RunKeeps(h, run, acts, k);
    assert ClientOk(h, run[k], f);
    RequestBegins(h, run[k], f, acts[k].pick);
  }

  lemma RunStepDownloading(h: Hash, run: seq<System>, acts: seq<Action>, f: FlowId, i: nat)
    requires IsRun(h, run, acts) && i < |acts| && KeepsServers(run[i], run[i + 1]) && Downloading(run[i], f)
    requires acts[i] != ClientCloses(f) && acts[i] != ProxyClosesClient(f)
    ensures Downloading(run[i + 1], f)
  {
    RunKeeps(h, run, acts, i);
    StepDownloading(h, run[i], acts[i], f);
  }

  lemma {:induction false} DownloadingAlong(run: seq<System>, f: FlowId, k: nat, j: nat)
    requires k <= j < |run| && Downloading(run[k], f)
    requires forall i :: k <= i < j && Downloading(run[i], f) ==> Downloading(run[i + 1], f)
    ensures Downloading(run[j], f)
    decreases j
  {
    if k < j {
      DownloadingAlong(run, f, k, j - 1);
      assert Downloading(run[j - 1 + 1], f);
    }
  }

  lemma RunDownloading(h: Hash, run: seq<System>, acts: seq<Action>, f: FlowId, k: nat, j: nat)
    requires IsRun(h, run, acts) && k < j < |run| && forall i :: 0 <= i < j ==> KeepsServers(run[i], run[i + 1])
    requires Begins(h, run[k], acts[k], f) && Undisturbed(acts, f, k, j)
    ensures Downloading(run[j], f)
  {
    RunBegins(h, run, acts, f, k);
    forall i | k + 1 <= i < j && Downloading(run[i], f) ensures Downloading(run[i + 1], f) {
      assert KeepsServers(run[i], run[i + 1]);
      RunStepDownloading(h, run, acts, f, i);
    }
    DownloadingAlong(run, f, k + 1, j);
  }

  lemma ServersKept(h: Hash, run: seq<System>, acts: seq<Action>, j: nat)
    requires IsRun(h, run, acts) && j < |run| && ServersStay(h, run, acts, j)
    ensures forall k :: 0 <= k < j ==> KeepsServers(run[k], run[k + 1])
  {
    forall k | 0 <= k < j ensures KeepsServers(run[k], run[k + 1]) {
      NoServerDropped(h, run, acts, j, k);
    }
  }

  /** A download whose list is registered, with every block of it indexed, when the proxy handles the request: unless
      somebody closes its session or a server's, it has ended well when the system comes to rest. */
  lemma DownloadsEndWell(h: Hash, run: seq<System>, acts: seq<Action>, f: FlowId, k: nat, j: nat)
    requires IsRun(h, run, acts) && k < j < |run| && ServersStay(h, run, acts, j)
    requires Begins(h, run[k], acts[k], f) && Undisturbed(acts, f, k, j)
    requires AtRest(h, run[j]) && ServersOpen(run[j])
    ensures IsDownloader(run[j], f) && DownloaderOf(run[j], f).phase == DM.Done
    ensures DownloaderOf(run[j], f).id in run[j].proxy.ids
    ensures Acks(HandledFrom(run, acts, f, j)) == run[j].proxy.ids[DownloaderOf(run[j], f).id]
    ensures Completions(SentTo(run, acts, f, j)) == 1
  {
    ServersKept(h, run, acts, j);
    RunDownloading(h, run, acts, f, k, j);
    RunNoneLost(h, run, acts, j);
    PrefixRun(h, run, acts, j);
    assert !LostItsServer(run[j], f);
    DownloadsAtRest(h, run[j], f);
    DownloadCounts(h, run, acts, f, j);
  }
}
