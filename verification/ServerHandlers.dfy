/** The proxy's handlers for storage servers, and servers that leave, keep the invariant. */
module ServerHandlers {
  import opened Types
  import opened FileBlocks
  import SM = ServerModel
  import opened ProxyModel
  import opened SystemModel
  import opened ServerLinks
  import opened Invariant
  import opened Frames
  import opened ServerSteps

  // ----- Taking a message from a server -----

  function Popped(e: ServerEnd): ServerEnd
    requires e.outq != []
  {
    e.(outq := e.outq[1..])
  }

  lemma PopPipe(e: ServerEnd, f: FlowId)
    requires e.outq != []
    ensures Pipe(e, f) == (if e.outq[0].TransferBlock? && e.outq[0].flow == f then [e.outq[0]] else []) + Pipe(Popped(e), f)
  {
    var first := if e.outq[0].TransferBlock? && e.outq[0].flow == f then [e.outq[0]] else [];
    var rest := SM.PiecesFor(e.outq[1..], f);
    assert SM.PiecesFor(e.outq, f) == first + rest;
    SM.Associates(first, rest, SM.Remaining(e.server, f));
    SM.Associates(first, rest + SM.Remaining(e.server, f), SM.Asked(e.server.files, e.inq, f));
  }

  lemma PopSameFor(h: Hash, e: ServerEnd, f: FlowId)
    requires e.outq != []
    ensures StreamThrough(h, Popped(e), f) == StreamThrough(h, e, f) && (Pipe(e, f) == [] ==> Pipe(Popped(e), f) == [])
    ensures !(e.outq[0].TransferBlock? && e.outq[0].flow == f) ==> SameFor(h, e, Popped(e), f)
    ensures e.outq[0].TransferBlock? && e.outq[0].flow == f ==> Pipe(e, f) == [e.outq[0]] + Pipe(Popped(e), f)
  {
    assert StreamThrough(h, Popped(e), f) == StreamThrough(h, e, f);
    PopPipe(e, f);
    assert [] + Pipe(Popped(e), f) == Pipe(Popped(e), f);
  }

  lemma PopIndex(e: ServerEnd, md5s: set<Md5>, md5s': set<Md5>)
    requires e.outq != [] && IndexOk(e, md5s)
    requires md5s <= md5s' <= e.server.files.Keys
    requires forall m :: Announced([e.outq[0]], m) ==> m in md5s'
    ensures IndexOk(Popped(e), md5s')
  {
    assert e.outq == [e.outq[0]] + e.outq[1..];
    forall m | m in e.server.files ensures m in md5s' || Announced(e.outq[1..], m) || m in e.server.toSend[e.server.next..] {
      AnnouncedMore([e.outq[0]], e.outq[1..], m);
    }
  }

  /** What a handler run for a server may do to the proxy, but for clients and subscriptions. */
  ghost predicate ServedBy(st: System, s: ServerId, st1: System, r: ProxyResult) {
    && s in st.servers && s in st.proxy.storages
    && (st1 == st || (st.servers[s].outq != [] && st1 == PopFromServer(st, s) && s in r.proxy.storages))
    && r.toServers == map[] && r.proxy.ids == st.proxy.ids && r.proxy.nextFlow == st.proxy.nextFlow
    && r.proxy.storages.Keys <= st.proxy.storages.Keys
    && (forall t :: t in r.proxy.storages && t != s ==> r.proxy.storages[t].md5s == st.proxy.storages[t].md5s)
  }

  lemma ServedServers(st: System, s: ServerId, st1: System, r: ProxyResult, t: ServerId)
    requires ServedBy(st, s, st1, r) && t in st.servers
    ensures AfterProxy(st1, r).servers[t] == st1.servers[t]
    ensures t != s ==> st1.servers[t] == st.servers[t]
    ensures st1.servers[s] == st.servers[s] || (st.servers[s].outq != [] && st1.servers[s] == Popped(st.servers[s]))
  {
    assert st1.servers[t].inq + [] == st1.servers[t].inq;
  }

  lemma ServedGrown(st: System, s: ServerId, st1: System, r: ProxyResult)
    requires ServedBy(st, s, st1, r)
    ensures Grown(st, AfterProxy(st1, r))
  {
    forall t | t in st.servers ensures SM.Grows(st.servers[t].server, AfterProxy(st1, r).servers[t].server) {
      ServedServers(st, s, st1, r, t);
    }
  }

  lemma ServedSameServers(h: Hash, st: System, s: ServerId, st1: System, r: ProxyResult, g: FlowId)
    requires ServedBy(st, s, st1, r)
    requires s in r.proxy.storages ==> SameFor(h, st.servers[s], st1.servers[s], g)
    ensures SameServers(h, st, AfterProxy(st1, r), g)
  {
    var st' := AfterProxy(st1, r);
    forall t | t in st'.servers
      ensures t in st.servers
      ensures SameFor(h, st.servers[t], st'.servers[t], g)
    {
      ServedServers(st, s, st1, r, t);
      SameForSelf(h, st.servers[t], g);
    }
  }

  lemma ServedUntouched(h: Hash, st: System, s: ServerId, st1: System, r: ProxyResult, g: FlowId)
    requires ServedBy(st, s, st1, r) && SameProxy(st.proxy, r.proxy, g) && Mail(r.toClients, g) == []
    requires s in r.proxy.storages ==> SameFor(h, st.servers[s], st1.servers[s], g)
    ensures Untouched(h, st, AfterProxy(st1, r), g)
  {
    ServedGrown(st, s, st1, r);
    ServedSameServers(h, st, s, st1, r, g);
    if g in st.clients {
      assert st.clients[g].inq + [] == st.clients[g].inq;
    }
  }

  lemma ServedServersOk(h: Hash, st: System, s: ServerId, st1: System, r: ProxyResult)
    requires ServersOk(h, st) && ServedBy(st, s, st1, r)
    requires s in r.proxy.storages ==> IndexOk(st1.servers[s], r.proxy.storages[s].md5s)
    ensures ServersOk(h, AfterProxy(st1, r))
  {
    var st' := AfterProxy(st1, r);
    forall t | t in st'.servers ensures ServerEndOk(h, st'.servers[t]) && t < st'.nextServer {
      ServedServerOk(h, st, s, st1, r, t);
    }
    forall t | t in st'.proxy.storages ensures t in st'.servers && IndexOk(st'.servers[t], st'.proxy.storages[t].md5s) {
      ServedServers(st, s, st1, r, t);
    }
  }

  lemma ServedServerOk(h: Hash, st: System, s: ServerId, st1: System, r: ProxyResult, t: ServerId)
    requires ServedBy(st, s, st1, r) && t in st.servers && ServerEndOk(h, st.servers[t]) && ServerEndOk(h, st.servers[s])
    ensures ServerEndOk(h, AfterProxy(st1, r).servers[t])
  {
    ServedServers(st, s, st1, r, t);
    if st1.servers[s] != st.servers[s] {
      PopKeeps(h, st.servers[s]);
    }
  }

  /** A handler run for a server keeps the invariant if it keeps the part of every flow. */
  lemma ServedRest(h: Hash, st: System, s: ServerId, st1: System, r: ProxyResult)
    requires ServersOk(h, st) && IdsOk(h, st) && ServedBy(st, s, st1, r)
    requires s in r.proxy.storages ==> IndexOk(st1.servers[s], r.proxy.storages[s].md5s)
    ensures ServersOk(h, AfterProxy(st1, r)) && IdsOk(h, AfterProxy(st1, r))
  {
    assert ServersOk(h, AfterProxy(st1, r)) by {
      ServedServersOk(h, st, s, st1, r);
    }
    assert IdsOk(h, AfterProxy(st1, r)) by {
      ServedGrown(st, s, st1, r);
      IdsOkGrows(h, st, AfterProxy(st1, r));
    }
  }

  lemma KnownFlow(h: Hash, st: System, f: FlowId)
    requires FlowsOk(h, st)
    ensures f in st.clients ==> f < st.proxy.nextFlow
    ensures f !in st.clients ==> Unknown(h, st, f)
  {
  }

  // ----- transfer_block_set -----

  lemma SameStorage(p: Proxy, s: ServerId, x: Storage, g: FlowId)
    requires s in p.storages && x.subs == p.storages[s].subs
    ensures SameProxy(p, SetStorage(p, s, x), g)
  {
    assert forall y :: y in Subs(SetStorage(p, s, x), g) <==> y in Subs(p, g);
  }

  lemma BlockSetIndex(h: Hash, e: ServerEnd, md5s: set<Md5>)
    requires ServerEndOk(h, e) && IndexOk(e, md5s) && e.outq != [] && e.outq[0].TransferBlockSet?
    ensures IndexOk(Popped(e), md5s + set m | m in e.outq[0].md5s)
  {
    assert e.outq[0] in e.outq && FromServerOk(e, e.outq[0]);
    PopIndex(e, md5s, md5s + set m | m in e.outq[0].md5s);
  }

  lemma BlockSetUntouched(h: Hash, st: System, s: ServerId, x: Storage, g: FlowId)
    requires s in st.proxy.storages && s in st.servers && st.servers[s].outq != []
    requires !st.servers[s].outq[0].TransferBlock? && x.subs == st.proxy.storages[s].subs
    ensures Untouched(h, st, AfterProxy(PopFromServer(st, s), Silent(SetStorage(st.proxy, s, x), Ok)), g)
  {
    var r := Silent(SetStorage(st.proxy, s, x), Ok);
    SameStorage(st.proxy, s, x, g);
    PopSameFor(h, st.servers[s], g);
    ServedUntouched(h, st, s, PopFromServer(st, s), r, g);
  }

  function Learned(x: Storage, msg: Message): Storage
    requires msg.TransferBlockSet?
  {
    x.(md5s := x.md5s + (set m | m in msg.md5s), phase := if msg.eof then Working else x.phase)
  }

  lemma BlockSetIs(p: Proxy, s: ServerId, msg: Message)
    requires s in p.storages && p.storages[s].phase == WaitingBlockSet && msg.TransferBlockSet?
    ensures OnServerMessage(p, s, msg) == Silent(SetStorage(p, s, Learned(p.storages[s], msg)), Ok)
  {
  }

  function LearnSet(st: System, s: ServerId): ProxyResult
    requires s in st.proxy.storages && s in st.servers && st.servers[s].outq != [] && st.servers[s].outq[0].TransferBlockSet?
  {
    Silent(SetStorage(st.proxy, s, Learned(st.proxy.storages[s], st.servers[s].outq[0])), Ok)
  }

  lemma BlockSetServed(h: Hash, st: System, s: ServerId)
    requires ServersOk(h, st)
    requires s in st.proxy.storages && s in st.servers && st.servers[s].outq != [] && st.servers[s].outq[0].TransferBlockSet?
    ensures
      var st1, r := PopFromServer(st, s), LearnSet(st, s);
      && ServedBy(st, s, st1, r) && IndexOk(st1.servers[s], r.proxy.storages[s].md5s)
      && forall g: FlowId :: Untouched(h, st, AfterProxy(st1, r), g)
  {
    BlockSetFits(h, st, s);
    forall g: FlowId ensures Untouched(h, st, AfterProxy(PopFromServer(st, s), LearnSet(st, s)), g) {
      BlockSetUntouched(h, st, s, Learned(st.proxy.storages[s], st.servers[s].outq[0]), g);
    }
  }

  lemma BlockSetFits(h: Hash, st: System, s: ServerId)
    requires ServersOk(h, st)
    requires s in st.proxy.storages && s in st.servers && st.servers[s].outq != [] && st.servers[s].outq[0].TransferBlockSet?
    ensures
      var st1, r := PopFromServer(st, s), LearnSet(st, s);
      ServedBy(st, s, st1, r) && IndexOk(st1.servers[s], r.proxy.storages[s].md5s)
  {
    assert IndexOk(st.servers[s], st.proxy.storages[s].md5s) && ServerEndOk(h, st.servers[s]);
    BlockSetIndex(h, st.servers[s], st.proxy.storages[s].md5s);
    LearnServed(st, s);
  }

  lemma LearnServed(st: System, s: ServerId)
    requires s in st.proxy.storages && s in st.servers && st.servers[s].outq != [] && st.servers[s].outq[0].TransferBlockSet?
    ensures ServedBy(st, s, PopFromServer(st, s), LearnSet(st, s))
    ensures LearnSet(st, s).proxy.storages[s].md5s == st.proxy.storages[s].md5s + set m | m in st.servers[s].outq[0].md5s
  {
  }

  lemma BlockSetKeeps(h: Hash, st: System, s: ServerId)
    requires Inv(h, st)
    requires s in st.proxy.storages && s in st.servers && st.servers[s].outq != [] && st.servers[s].outq[0].TransferBlockSet?
    ensures Inv(h, AfterProxy(PopFromServer(st, s), LearnSet(st, s)))
  {
    BlockSetServed(h, st, s);
    ServedRest(h, st, s, PopFromServer(st, s), LearnSet(st, s));
    FlowsKept(h, st, AfterProxy(PopFromServer(st, s), LearnSet(st, s)));
  }

  // ----- transfer_block -----

  function Deliver(st: System, s: ServerId): ProxyResult
    requires s in st.servers && st.servers[s].outq != [] && st.servers[s].outq[0].TransferBlock?
  {
    ProxyResult(st.proxy, map[st.servers[s].outq[0].flow := [st.servers[s].outq[0]]], map[], Ok)
  }

  lemma DeliverPipe(h: Hash, st: System, s: ServerId, t: ServerId)
    requires s in st.proxy.storages && s in st.servers && st.servers[s].outq != [] && st.servers[s].outq[0].TransferBlock?
    ensures
      var f := st.servers[s].outq[0].flow;
      var st' := AfterProxy(PopFromServer(st, s), Deliver(st, s));
      PipeOf(st, t, f) == (if t == s then [st.servers[s].outq[0]] else []) + PipeOf(st', t, f)
  {
    var f := st.servers[s].outq[0].flow;
    PopSameFor(h, st.servers[s], f);
    if t in st.servers {
      ServedServers(st, s, PopFromServer(st, s), Deliver(st, s), t);
    }
  }

  /** A piece goes from the pipe of its flow to the channel of its client, if that is still there. */
  lemma PieceMoves(h: Hash, st: System, s: ServerId, f: FlowId, c: Client, t: ServerId, chunks: seq<Bytes>, content: Bytes, offset: nat, index: nat)
    requires s in st.proxy.storages && s in st.servers && st.servers[s].outq != [] && st.servers[s].outq[0].TransferBlock?
    requires f == st.servers[s].outq[0].flow && IsDownloader(st, f)
    requires Transfering(st, f, c, t, chunks, content, offset, index)
    ensures Transfering(AfterProxy(PopFromServer(st, s), Deliver(st, s)), f, c, t, chunks, content, offset, index)
  {
    var msg := st.servers[s].outq[0];
    var st' := AfterProxy(PopFromServer(st, s), Deliver(st, s));
    PieceTravels(h, st, s, f, c, t, chunks, content, offset, index);
    ServedGrown(st, s, PopFromServer(st, s), Deliver(st, s));
    FetchedGrows(st, st', c.needed[..c.index], chunks);
    StoredGrows(st, st', c.needed[c.index], content);
  }

  lemma PieceTravels(h: Hash, st: System, s: ServerId, f: FlowId, c: Client, t: ServerId, chunks: seq<Bytes>, content: Bytes, offset: nat, index: nat)
    requires s in st.proxy.storages && s in st.servers && st.servers[s].outq != [] && st.servers[s].outq[0].TransferBlock?
    requires f == st.servers[s].outq[0].flow && IsDownloader(st, f)
    requires Transfering(st, f, c, t, chunks, content, offset, index)
    ensures
      var st' := AfterProxy(PopFromServer(st, s), Deliver(st, s));
      && st'.clients[f] == st.clients[f].(inq := st.clients[f].inq + [st.servers[s].outq[0]])
      && (forall t' :: t' != t ==> PipeOf(st', t', f) == [])
      && st'.clients[f].inq + PipeOf(st', t, f) == st.clients[f].inq + PipeOf(st, t, f)
  {
    var msg := st.servers[s].outq[0];
    var st' := AfterProxy(PopFromServer(st, s), Deliver(st, s));
    forall t' ensures PipeOf(st, t', f) == (if t' == s then [msg] else []) + PipeOf(st', t', f) {
      DeliverPipe(h, st, s, t');
    }
    assert |PipeOf(st, s, f)| >= 1;
    assert t == s;
    assert st.clients[f].inq + ([msg] + PipeOf(st', s, f)) == (st.clients[f].inq + [msg]) + PipeOf(st', s, f);
  }

  lemma WaitingForPiece(st: System, s: ServerId, f: FlowId)
    requires IsDownloader(st, f) && DownloadPhase(st, f) && f in st.proxy.clients && PipeOf(st, s, f) != []
    ensures st.proxy.clients[f].phase == WaitingTransferBlock && st.clients[f].outq == []
    ensures exists t, chunks, content, offset, index :: Transfering(st, f, st.proxy.clients[f], t, chunks, content, offset, index)
  {
  }

  /** A piece in a pipe belongs to a downloading client that is waiting for it (or to one that has
      left): no piece can reach anybody else. */
  lemma PieceOwner(h: Hash, st: System, s: ServerId)
    requires Inv(h, st) && s in st.proxy.storages && s in st.servers && st.servers[s].outq != []
    requires st.servers[s].outq[0].TransferBlock? && st.servers[s].outq[0].flow in st.clients
    ensures
      var f := st.servers[s].outq[0].flow;
      && IsDownloader(st, f) && DownloaderOk(st, f) && SendsNoBlocks(h, st, f) && f < st.proxy.nextFlow
      && (f in st.proxy.clients ==>
            && st.proxy.clients[f].phase == WaitingTransferBlock && st.clients[f].outq == []
            && exists t, chunks, content, offset, index :: Transfering(st, f, st.proxy.clients[f], t, chunks, content, offset, index))
  {
    var f := st.servers[s].outq[0].flow;
    assert Pipe(st.servers[s], f) != [] by {
      PopSameFor(h, st.servers[s], f);
    }
    assert ClientOk(h, st, f) && f < st.proxy.nextFlow;
    if f in st.proxy.clients {
      WaitingForPiece(st, s, f);
    }
  }

  lemma DeliveredOk(h: Hash, st: System, s: ServerId)
    requires Inv(h, st) && s in st.proxy.storages && s in st.servers && st.servers[s].outq != []
    requires st.servers[s].outq[0].TransferBlock? && st.servers[s].outq[0].flow in st.clients
    requires st.servers[s].outq[0].flow in st.proxy.clients
    ensures
      var f := st.servers[s].outq[0].flow;
      var st' := AfterProxy(PopFromServer(st, s), Deliver(st, s));
      IsDownloader(st', f) && DownloaderOk(st', f)
  {
    var f := st.servers[s].outq[0].flow;
    var st' := AfterProxy(PopFromServer(st, s), Deliver(st, s));
    PieceOwner(h, st, s);
    var c := st.proxy.clients[f];
    assert DownloadPhase(st', f) by {
      var t: ServerId, chunks, content, offset: nat, index: nat :| Transfering(st, f, c, t, chunks, content, offset, index);
      PieceMoves(h, st, s, f, c, t, chunks, content, offset, index);
    }
    forall t' | t' in st'.servers ensures ClientClean(f) !in st'.servers[t'].inq {
      ServedServers(st, s, PopFromServer(st, s), Deliver(st, s), t');
    }
  }

  lemma DroppedOk(h: Hash, st: System, s: ServerId)
    requires s in st.proxy.storages && s in st.servers && st.servers[s].outq != []
    requires st.servers[s].outq[0].TransferBlock? && st.servers[s].outq[0].flow !in st.proxy.clients
    requires IsDownloader(st, st.servers[s].outq[0].flow) && DownloaderOk(st, st.servers[s].outq[0].flow)
    ensures
      var f := st.servers[s].outq[0].flow;
      var st' := AfterProxy(PopFromServer(st, s), Silent(st.proxy, Ok));
      IsDownloader(st', f) && DownloaderOk(st', f)
  {
    var f := st.servers[s].outq[0].flow;
    var st1, r := PopFromServer(st, s), Silent(st.proxy, Ok);
    var st' := AfterProxy(st1, r);
    assert st'.clients[f].inq == st.clients[f].inq;
    forall t | t in st'.servers ensures st'.servers[t].inq == st.servers[t].inq && st'.servers[t].server == st.servers[t].server {
      ServedServers(st, s, st1, r, t);
    }
    if exists chunks :: Transfered(st, f, chunks) {
      var chunks :| Transfered(st, f, chunks);
      ServedGrown(st, s, st1, r);
      FetchedGrows(st, st', st.proxy.ids[DownloaderOf(st, f).id], chunks);
      assert Transfered(st', f, chunks);
    }
  }

  lemma TransferBlockOthers(h: Hash, st: System, s: ServerId, r: ProxyResult, g: FlowId)
    requires s in st.proxy.storages && s in st.servers && st.servers[s].outq != [] && st.servers[s].outq[0].TransferBlock?
    requires g != st.servers[s].outq[0].flow
    requires r == Deliver(st, s) || r == Silent(st.proxy, Ok)
    ensures Untouched(h, st, AfterProxy(PopFromServer(st, s), r), g)
  {
    PopSameFor(h, st.servers[s], g);
    ServedUntouched(h, st, s, PopFromServer(st, s), r, g);
  }

  lemma UnknownPiece(h: Hash, st: System, s: ServerId)
    requires FlowsOk(h, st) && s in st.servers && st.servers[s].outq != [] && st.servers[s].outq[0].TransferBlock?
    ensures st.servers[s].outq[0].flow in st.clients
  {
    PopSameFor(h, st.servers[s], st.servers[s].outq[0].flow);
    KnownFlow(h, st, st.servers[s].outq[0].flow);
  }

  function Forward(st: System, s: ServerId): ProxyResult
    requires s in st.servers && st.servers[s].outq != [] && st.servers[s].outq[0].TransferBlock?
  {
    if st.servers[s].outq[0].flow in st.proxy.clients then Deliver(st, s) else Silent(st.proxy, Ok)
  }

  lemma TransferBlockIs(st: System, s: ServerId)
    requires s in st.servers && st.servers[s].outq != [] && st.servers[s].outq[0].TransferBlock?
    requires s in st.proxy.storages && st.proxy.storages[s].phase == Working
    ensures OnServerMessage(st.proxy, s, st.servers[s].outq[0]) == Forward(st, s)
  {
  }

  lemma ForwardsNoBlocks(h: Hash, st: System, s: ServerId)
    requires s in st.proxy.storages && s in st.servers && st.servers[s].outq != [] && st.servers[s].outq[0].TransferBlock?
    requires SendsNoBlocks(h, st, st.servers[s].outq[0].flow)
    ensures SendsNoBlocks(h, AfterProxy(PopFromServer(st, s), Forward(st, s)), st.servers[s].outq[0].flow)
  {
    var f := st.servers[s].outq[0].flow;
    forall t | t in st.servers ensures StreamThrough(h, AfterProxy(PopFromServer(st, s), Forward(st, s)).servers[t], f) == SM.Between {
      ServedServers(st, s, PopFromServer(st, s), Forward(st, s), t);
      PopSameFor(h, st.servers[s], f);
    }
  }

  lemma ForwardedOk(h: Hash, st: System, s: ServerId)
    requires Inv(h, st) && s in st.proxy.storages && s in st.servers && st.servers[s].outq != [] && st.servers[s].outq[0].TransferBlock?
    ensures
      var f := st.servers[s].outq[0].flow;
      var st' := AfterProxy(PopFromServer(st, s), Forward(st, s));
      f in st'.clients && f < st.proxy.nextFlow && ClientOk(h, st', f)
  {
    UnknownPiece(h, st, s);
    PieceOwner(h, st, s);
    ForwardsNoBlocks(h, st, s);
    if st.servers[s].outq[0].flow in st.proxy.clients {
      DeliveredOk(h, st, s);
    } else {
      DroppedOk(h, st, s);
    }
  }

  lemma ForwardServed(h: Hash, st: System, s: ServerId)
    requires ServersOk(h, st)
    requires s in st.proxy.storages && s in st.servers && st.servers[s].outq != [] && st.servers[s].outq[0].TransferBlock?
    ensures
      var st1, r := PopFromServer(st, s), Forward(st, s);
      && ServedBy(st, s, st1, r) && IndexOk(st1.servers[s], r.proxy.storages[s].md5s)
      && forall g: FlowId :: g != st.servers[s].outq[0].flow ==> Untouched(h, st, AfterProxy(st1, r), g)
  {
    ForwardFits(h, st, s);
    forall g: FlowId | g != st.servers[s].outq[0].flow
      ensures Untouched(h, st, AfterProxy(PopFromServer(st, s), Forward(st, s)), g)
    {
      TransferBlockOthers(h, st, s, Forward(st, s), g);
    }
  }

  lemma PieceIndex(h: Hash, e: ServerEnd, md5s: set<Md5>)
    requires IndexOk(e, md5s) && e.outq != [] && e.outq[0].TransferBlock?
    ensures IndexOk(Popped(e), md5s)
  {
    PopIndex(e, md5s, md5s);
  }

  lemma ForwardFits(h: Hash, st: System, s: ServerId)
    requires ServersOk(h, st)
    requires s in st.proxy.storages && s in st.servers && st.servers[s].outq != [] && st.servers[s].outq[0].TransferBlock?
    ensures
      var st1, r := PopFromServer(st, s), Forward(st, s);
      ServedBy(st, s, st1, r) && IndexOk(st1.servers[s], r.proxy.storages[s].md5s)
  {
    assert IndexOk(st.servers[s], st.proxy.storages[s].md5s);
    PieceIndex(h, st.servers[s], st.proxy.storages[s].md5s);
  }

  lemma ForwardFlows(h: Hash, st: System, s: ServerId, f: FlowId)
    requires Inv(h, st) && s in st.proxy.storages && s in st.servers && st.servers[s].outq != [] && st.servers[s].outq[0].TransferBlock?
    requires f == st.servers[s].outq[0].flow
    ensures
      var st' := AfterProxy(PopFromServer(st, s), Forward(st, s));
      FlowsOk(h, st') && forall g :: g in st'.clients ==> ClientOk(h, st', g)
  {
    var st' := AfterProxy(PopFromServer(st, s), Forward(st, s));
    assert st'.proxy.nextFlow == st.proxy.nextFlow && forall g: FlowId :: g != f ==> Untouched(h, st, st', g) by {
      ForwardServed(h, st, s);
    }
    ForwardedOk(h, st, s);
    FlowsKept(h, st, st');
  }

  lemma TransferBlockKeeps(h: Hash, st: System, s: ServerId)
    requires Inv(h, st) && s in st.proxy.storages && s in st.servers && st.servers[s].outq != [] && st.servers[s].outq[0].TransferBlock?
    ensures Inv(h, AfterProxy(PopFromServer(st, s), Forward(st, s)))
  {
    ForwardServed(h, st, s);
    ForwardFlows(h, st, s, st.servers[s].outq[0].flow);
    ServedRest(h, st, s, PopFromServer(st, s), Forward(st, s));
  }
}
