/** When the proxy drops a server of its own accord: exactly when that server answers a request before it has sent the
    last of its block sets. */
module DroppedServers {
  import opened Types
  import SM = ServerModel
  import opened ProxyModel
  import opened SystemModel
  import opened ServerLinks
  import opened Invariant
  import opened Runs
  import opened Safety
  import opened EndToEnd
  import opened Due

  // ----- The order of a server's messages -----

  /** The proxy's phase after `msgs`: block sets first, up to one marked as the last, and then no more of them.
      None if a message is out of order. */
  function After(phase: StoragePhase, msgs: seq<Message>): Option<StoragePhase>
    decreases |msgs|
  {
    if msgs == [] then Some(phase)
    else if (phase == WaitingBlockSet) != msgs[0].TransferBlockSet? then None
    else After(if msgs[0].TransferBlockSet? && msgs[0].eof then Working else phase, msgs[1..])
  }

  lemma {:induction false} AfterAppend(phase: StoragePhase, a: seq<Message>, b: seq<Message>)
    ensures After(phase, a + b) == if After(phase, a).None? then None else After(After(phase, a).value, b)
    decreases |a|
  {
    if a == [] {
      assert a + b == b;
    } else {
      assert (a + b)[0] == a[0] && (a + b)[1..] == a[1..] + b;
      AfterAppend(if a[0].TransferBlockSet? && a[0].eof then Working else phase, a[1..], b);
    }
  }

  lemma AfterOne(phase: StoragePhase, msg: Message)
    ensures After(phase, [msg]) ==
              if (phase == WaitingBlockSet) != msg.TransferBlockSet? then None
              else Some(if msg.TransferBlockSet? && msg.eof then Working else phase)
  {
    assert [msg][1..] == [];
  }

  /** Answers, and no block set. */
  lemma {:induction false} AfterAnswers(msgs: seq<Message>)
    requires forall msg :: msg in msgs ==> !msg.TransferBlockSet?
    ensures After(Working, msgs) == Some(Working)
    ensures msgs != [] ==> After(WaitingBlockSet, msgs) == None
  {
    if msgs != [] {
      InTail(msgs);
      AfterAnswers(msgs[1..]);
    }
  }

  function PhaseOf(sv: SM.Server): StoragePhase {
    if sv.phase == SM.Working then Working else WaitingBlockSet
  }

  /** What the proxy has yet to read of the server takes it to where the server is. */
  predicate InOrder(x: Storage, e: ServerEnd) {
    After(x.phase, e.outq) == Some(PhaseOf(e.server))
  }

  ghost predicate AllInOrder(st: System) {
    forall s :: s in st.proxy.storages && s in st.servers ==> InOrder(st.proxy.storages[s], st.servers[s])
  }

  /** A request that is answered as soon as it is handled. */
  predicate IsAnswered(msg: Message) {
    msg.DownloadBlock? || (msg.UploadBlock? && msg.eof)
  }

  lemma ReceivedOrder(h: Hash, x: Storage, e: ServerEnd)
    requires ServerEndOk(h, e) && e.inq != [] && InOrder(x, e)
    ensures PhaseOf(ServerReceive(h, e).server) == PhaseOf(e.server)
    ensures InOrder(x, ServerReceive(h, e)) <==> !(PhaseOf(e.server) == WaitingBlockSet && IsAnswered(e.inq[0]))
  {
    var msg := e.inq[0];
    var r := SM.OnMessage(h, e.server, msg);
    ReceiveAcceptable(h, e);
    StreamHead(h, e, if msg.UploadBlock? then msg.flow else 0);
    ReceiveSends(h, e.server, msg);
    assert r.sends != [] <==> IsAnswered(msg) by {
      AnsweredSends(h, e.server, msg);
    }
    AfterAnswers(r.sends);
    AfterAppend(x.phase, e.outq, r.sends);
    assert e.outq + [] == e.outq;
  }

  lemma AnsweredSends(h: Hash, sv: SM.Server, msg: Message)
    requires SM.ServerOk(h, sv) && SM.Acceptable(sv, msg)
    requires msg.UploadBlock? ==> SM.Read(h, msg.flow, SM.Accumulated(sv, msg.flow), msg) != SM.Broken
    ensures SM.OnMessage(h, sv, msg).sends != [] <==> IsAnswered(msg)
  {
    if msg.UploadBlock? {
      UploadSends(h, sv, msg);
    } else if msg.DownloadBlock? {
      DownloadSends(h, sv, msg.md5, msg.flow, msg.flow);
    } else if msg.ClientClean? {
      assert SM.OnMessage(h, sv, msg) == SM.OnClientClean(sv, msg.flow);
      SM.CleanDownloadKeeps(h, sv, msg.flow);
    }
  }

  lemma WrittenOrder(h: Hash, x: Storage, e: ServerEnd)
    requires ServerEndOk(h, e) && InOrder(x, e)
    ensures InOrder(x, ServerWritten(e))
    ensures PhaseOf(e.server) == Working ==> PhaseOf(ServerWritten(e).server) == Working
  {
    var r := SM.OnWriteComplete(e.server);
    AfterAppend(x.phase, e.outq, r.sends);
    if e.server.phase == SM.Working {
      WriteCompleteSends(h, e.server);
      SM.SendPieceKeeps(h, e.server);
      PiecesSent(h, e.server);
      AfterAnswers(r.sends);
    } else {
      AfterOne(WaitingBlockSet, r.sends[0]);
      assert r.sends == [r.sends[0]];
    }
  }

  lemma PiecesSent(h: Hash, sv: SM.Server)
    requires SM.ServerOk(h, sv)
    ensures forall msg :: msg in SM.SendPiece(sv).sends ==> msg.TransferBlock?
  {
    SM.SendPieceKeeps(h, sv);
  }

  lemma JoinedOrder(h: Hash, files: map<Md5, Bytes>, order: seq<Md5>)
    ensures InOrder(NewStorage, NewServer(files, order))
    ensures |order| <= 128 ==> PhaseOf(NewServer(files, order).server) == Working
  {
    var r := SM.OnConnection(files, order);
    AfterOne(WaitingBlockSet, r.sends[0]);
    assert r.sends == [r.sends[0]];
  }

  /** In order, the proxy takes the server's next message and is in order with the rest. Out of order, it drops the
      server or is out of order with the rest. */
  lemma HandledOrder(p: Proxy, s: ServerId, msgs: seq<Message>)
    requires s in p.storages && msgs != [] && (msgs[0].TransferBlock? || msgs[0].UploadBlockAck? || msgs[0].TransferBlockSet?)
    ensures
      var r := OnServerMessage(p, s, msgs[0]);
      if r.outcome == Close then After(p.storages[s].phase, msgs) == None
      else r.outcome == Ok && s in r.proxy.storages && After(r.proxy.storages[s].phase, msgs[1..]) == After(p.storages[s].phase, msgs)
  {
  }

  lemma OtherPhases(p: Proxy, s: ServerId, msg: Message, t: ServerId)
    requires s in p.storages && t in p.storages && t != s && OnServerMessage(p, s, msg).outcome == Ok
    ensures t in OnServerMessage(p, s, msg).proxy.storages && OnServerMessage(p, s, msg).proxy.storages[t] == p.storages[t]
  {
  }

  // ----- What the proxy's handlers change of this -----

  /** What a handler run for a client may send to server `s`: a request to the server it picked, a piece to the one
      picked for the block before, or the note that a client has left. */
  lemma ClientMessageMail(h: Hash, p: Proxy, f: FlowId, msg: Message, pick: ServerId, s: ServerId)
    requires f in p.clients
    ensures
      var r := OnClientMessage(h, p, f, msg, pick);
      && (s in r.proxy.storages <==> s in p.storages)
      && (s in p.storages ==> r.proxy.storages[s].phase == p.storages[s].phase)
      && (Mail(r.toServers, s) != [] ==> s in r.toServers && (s == pick || (s in p.storages && s in p.clients[f].relay)))
      && (forall t :: t in r.proxy.clients[f].relay ==> t in p.clients[f].relay || (t == pick && pick in r.toServers))
      && (forall g :: g in p.clients && g != f ==> r.proxy.clients[g] == p.clients[g])
  {
  }

  lemma FromClientServer(h: Hash, st: System, f: FlowId, pick: ServerId, s: ServerId)
    requires f in st.proxy.clients && f in st.clients && st.clients[f].outq != [] && s in st.servers
    ensures
      var r := OnClientMessage(h, st.proxy, f, st.clients[f].outq[0], pick);
      var e, e' := st.servers[s], FromClient(h, st, f, pick).servers[s];
      && e' == e.(inq := e'.inq)
      && forall msg :: msg in e'.inq ==> msg in e.inq || msg in Mail(r.toServers, s) || msg.ClientClean?
  {
    var r := OnClientMessage(h, st.proxy, f, st.clients[f].outq[0], pick);
    var st1 := AfterProxy(PopFromClient(st, f), r);
    assert st1.servers[s] == st.servers[s].(inq := st.servers[s].inq + Mail(r.toServers, s));
    if r.outcome == Close {
      var q := OnClientClose(st1.proxy, f);
      assert AfterProxy(st1, q).servers[s] == st1.servers[s].(inq := st1.servers[s].inq + Mail(q.toServers, s));
    }
  }

  lemma FromClientProxy(h: Hash, st: System, f: FlowId, pick: ServerId)
    requires f in st.proxy.clients && f in st.clients && st.clients[f].outq != []
    ensures
      var r := OnClientMessage(h, st.proxy, f, st.clients[f].outq[0], pick);
      var p' := FromClient(h, st, f, pick).proxy;
      && p'.storages == r.proxy.storages && forall g :: g in p'.clients ==> g in r.proxy.clients && p'.clients[g] == r.proxy.clients[g]
  {
  }

  lemma CloseClientServer(st: System, f: FlowId, s: ServerId)
    requires f in st.proxy.clients && s in st.servers
    ensures
      var e, e' := st.servers[s], CloseClient(st, f).servers[s];
      && e' == e.(inq := e'.inq) && forall msg :: msg in e'.inq ==> msg in e.inq || msg.ClientClean?
  {
    var r := OnClientClose(st.proxy, f);
    assert AfterProxy(st, r).servers[s] == st.servers[s].(inq := st.servers[s].inq + Mail(r.toServers, s));
  }

  lemma UnmailedServer(st: System, r: ProxyResult, t: ServerId)
    requires t in st.servers && r.toServers == map[]
    ensures AfterProxy(st, r).servers[t] == st.servers[t]
  {
    assert st.servers[t].inq + [] == st.servers[t].inq;
  }

  lemma NoMailToServers(p: Proxy, s: ServerId, msg: Message)
    requires s in p.storages
    ensures OnServerMessage(p, s, msg).toServers == map[]
  {
  }

  lemma FromServerServer(h: Hash, st: System, s: ServerId, order: seq<Md5>, t: ServerId)
    requires s in st.proxy.storages && s in st.servers && st.servers[s].outq != [] && t in st.servers
    ensures
      var e, e', r := st.servers[t], FromServer(st, s, order).servers[t], OnServerMessage(st.proxy, s, st.servers[s].outq[0]);
      && e'.server == e.server && e'.inq == e.inq
      && e'.outq == if t == s && r.outcome != Close then e.outq[1..] else e.outq
  {
    var r := OnServerMessage(st.proxy, s, st.servers[s].outq[0]);
    if r.outcome == Close {
      UnmailedServer(st, OnServerClose(st.proxy, s, order), t);
    } else {
      NoMailToServers(st.proxy, s, st.servers[s].outq[0]);
      UnmailedServer(PopFromServer(st, s), r, t);
    }
  }

  lemma FromServerPhase(h: Hash, st: System, s: ServerId, order: seq<Md5>, t: ServerId)
    requires ServersOk(h, st) && s in st.proxy.storages && s in st.servers && st.servers[s].outq != []
    requires InOrder(st.proxy.storages[s], st.servers[s]) && t in st.proxy.storages
    ensures
      var p' := FromServer(st, s, order).proxy;
      && t in p'.storages && After(p'.storages[t].phase, if t == s then st.servers[s].outq[1..] else st.servers[t].outq)
                          == After(st.proxy.storages[t].phase, st.servers[t].outq)
      && OnServerMessage(st.proxy, s, st.servers[s].outq[0]).outcome == Ok
  {
    ServerSends(h, st, s);
    HandledOrder(st.proxy, s, st.servers[s].outq);
    if t != s {
      OtherPhases(st.proxy, s, st.servers[s].outq[0], t);
    }
  }

  // ----- Exactly these -----

  /** The step in which a server answers a request before it has sent its last block set. */
  predicate AnswersEarly(st: System, act: Action, s: ServerId) {
    && act == ServerReceives(s) && s in st.servers && st.servers[s].inq != []
    && PhaseOf(st.servers[s].server) == WaitingBlockSet && IsAnswered(st.servers[s].inq[0])
  }

  ghost predicate InOrderAt(st: System, s: ServerId) {
    s in st.proxy.storages && s in st.servers && InOrder(st.proxy.storages[s], st.servers[s])
  }

  lemma FromClientOrder(h: Hash, st: System, f: FlowId, pick: ServerId, s: ServerId)
    requires f in st.proxy.clients && f in st.clients && st.clients[f].outq != [] && InOrderAt(st, s)
    ensures InOrderAt(FromClient(h, st, f, pick), s)
  {
    FromClientServer(h, st, f, pick, s);
    FromClientProxy(h, st, f, pick);
    ClientMessageMail(h, st.proxy, f, st.clients[f].outq[0], pick, s);
  }

  lemma FromServerOrder(h: Hash, st: System, t: ServerId, order: seq<Md5>, s: ServerId)
    requires ServersOk(h, st) && InOrderAt(st, t) && st.servers[t].outq != [] && InOrderAt(st, s)
    ensures InOrderAt(FromServer(st, t, order), s)
  {
    FromServerServer(h, st, t, order, s);
    FromServerPhase(h, st, t, order, s);
  }

  lemma CloseOrder(st: System, s: ServerId)
    requires InOrderAt(st, s)
    ensures forall f :: f in st.proxy.clients ==> InOrderAt(CloseClient(st, f), s)
    ensures forall t, order :: t in st.proxy.storages && t != s ==> InOrderAt(CloseServer(st, t, order), s)
  {
    forall f | f in st.proxy.clients ensures InOrderAt(CloseClient(st, f), s) {
      CloseClientServer(st, f, s);
    }
    forall t, order | t in st.proxy.storages && t != s ensures InOrderAt(CloseServer(st, t, order), s) {
      UnmailedServer(st, OnServerClose(st.proxy, t, order), s);
    }
  }

  lemma ProxyStepOrder(h: Hash, st: System, act: Action, s: ServerId)
    requires ServersOk(h, st) && Enabled(h, st, act) && IsProxyStep(act) && AllInOrder(st) && InOrderAt(st, s)
    requires !(act.ProxyClosesServer? && act.server == s)
    ensures InOrderAt(Apply(h, st, act), s)
  {
    match act
    case ProxyReceivesFromClient(f, pick) => FromClientOrder(h, st, f, pick, s);
    case ProxyReceivesFromServer(t, order) => FromServerOrder(h, st, t, order, s);
    case ProxyClosesClient(f) => CloseOrder(st, s);
    case ProxyClosesServer(t, order) => CloseOrder(st, s);
  }

  lemma EndStepServers(h: Hash, st: System, act: Action, s: ServerId)
    requires ServersOk(h, st) && Enabled(h, st, act) && !IsProxyStep(act) && s in st.servers
    ensures
      var st' := Apply(h, st, act);
      && s in st'.servers && (s in st.proxy.storages ==> s in st'.proxy.storages && st'.proxy.storages[s] == st.proxy.storages[s])
      && st'.servers[s] ==
           if act == ServerReceives(s) then ServerReceive(h, st.servers[s])
           else if act == ServerWriteComplete(s) then ServerWritten(st.servers[s])
           else if act == ServerCloses(s) then Closed(st.servers[s])
           else st.servers[s]
  {
    assert st.nextServer != s;
  }

  lemma EndOrder(h: Hash, st: System, act: Action, s: ServerId)
    requires ServersOk(h, st) && InOrderAt(st, s)
    requires act == ServerReceives(s) ==> st.servers[s].inq != []
    ensures
      var e, x := st.servers[s], st.proxy.storages[s];
      var e' := if act == ServerReceives(s) then ServerReceive(h, e)
                else if act == ServerWriteComplete(s) then ServerWritten(e)
                else if act == ServerCloses(s) then Closed(e)
                else e;
      && (InOrder(x, e') <==> !AnswersEarly(st, act, s))
      && (PhaseOf(e.server) == Working ==> PhaseOf(e'.server) == Working)
  {
    if act == ServerReceives(s) {
      ReceivedOrder(h, st.proxy.storages[s], st.servers[s]);
    } else if act == ServerWriteComplete(s) {
      WrittenOrder(h, st.proxy.storages[s], st.servers[s]);
    }
  }

  /** A server's messages get out of order exactly when it answers a request before it has sent its last block set;
      and the proxy drops no other server, unless it closes the session. */
  lemma DisorderExactly(h: Hash, st: System, act: Action, s: ServerId)
    requires Reachable(h, st) && Enabled(h, st, act) && AllInOrder(st) && s in st.proxy.storages
    requires !(act.ProxyClosesServer? && act.server == s)
    ensures InOrderAt(Apply(h, st, act), s) <==> !AnswersEarly(st, act, s)
    ensures s in Apply(h, st, act).proxy.storages
  {
    ReachableInv(h, st);
    StepOrder(h, st, act, s);
  }

  lemma StepOrder(h: Hash, st: System, act: Action, s: ServerId)
    requires ServersOk(h, st) && Enabled(h, st, act) && AllInOrder(st) && s in st.proxy.storages
    requires !(act.ProxyClosesServer? && act.server == s)
    ensures InOrderAt(Apply(h, st, act), s) <==> !AnswersEarly(st, act, s)
    ensures s in Apply(h, st, act).proxy.storages
  {
    if IsProxyStep(act) {
      ProxyStepOrder(h, st, act, s);
    } else {
      EndStepServers(h, st, act, s);
      EndOrder(h, st, act, s);
    }
  }

  // ----- Runs in which no server is dropped -----

  /** No server is dropped in the step. */
  ghost predicate KeepsServers(st: System, st': System) {
    st.proxy.storages.Keys <= st'.proxy.storages.Keys
  }

  lemma DropsServer(st: System, s: ServerId, order: seq<Md5>)
    requires s in st.proxy.storages
    ensures !KeepsServers(st, CloseServer(st, s, order))
  {
    assert s !in CloseServer(st, s, order).proxy.storages;
  }

  ghost predicate OnlyCleans(e: ServerEnd) {
    PhaseOf(e.server) == WaitingBlockSet ==> forall msg :: msg in e.inq ==> msg.ClientClean?
  }

  ghost predicate AllOnlyCleans(st: System) {
    forall s :: s in st.proxy.storages && s in st.servers ==> OnlyCleans(st.servers[s])
  }

  predicate ListedAt(st: System, s: ServerId) {
    s in st.servers && PhaseOf(st.servers[s].server) == Working
  }

  ghost predicate RelaysListed(st: System) {
    forall f, s :: f in st.proxy.clients && s in st.proxy.clients[f].relay ==> ListedAt(st, s)
  }

  /** Servers that have not sent their last block set have no request to answer. */
  ghost predicate Calm(st: System) {
    AllInOrder(st) && AllOnlyCleans(st) && RelaysListed(st)
  }

  /** If the step picks a server, that server has sent its last block set. */
  ghost predicate PicksListed(h: Hash, st: System, act: Action)
    requires Enabled(h, st, act)
  {
    act.ProxyReceivesFromClient? && act.pick in st.servers
    && act.pick in OnClientMessage(h, st.proxy, act.flow, st.clients[act.flow].outq[0], act.pick).toServers ==>
      PhaseOf(st.servers[act.pick].server) == Working
  }

  lemma PhaseStays(h: Hash, e: ServerEnd)
    requires ServerEndOk(h, e) && PhaseOf(e.server) == Working
    ensures PhaseOf(ServerWritten(e).server) == Working
    ensures e.inq != [] ==> PhaseOf(ServerReceive(h, e).server) == Working
  {
    SM.SendPieceKeeps(h, e.server);
    if e.inq != [] {
      ReceiveAcceptable(h, e);
      StreamHead(h, e, if e.inq[0].UploadBlock? then e.inq[0].flow else 0);
      ReceiveSends(h, e.server, e.inq[0]);
    }
  }

  lemma ServerPhaseStays(h: Hash, st: System, act: Action, s: ServerId)
    requires ServersOk(h, st) && Enabled(h, st, act) && ListedAt(st, s)
    ensures ListedAt(Apply(h, st, act), s)
  {
    if IsProxyStep(act) {
      ProxyStepServer(h, st, act, s);
    } else {
      EndStepServers(h, st, act, s);
      assert ServerEndOk(h, st.servers[s]);
      PhaseStays(h, st.servers[s]);
    }
  }

  lemma ProxyStepServer(h: Hash, st: System, act: Action, s: ServerId)
    requires Enabled(h, st, act) && IsProxyStep(act) && s in st.servers
    ensures s in Apply(h, st, act).servers && Apply(h, st, act).servers[s].server == st.servers[s].server
  {
    match act
    case ProxyReceivesFromClient(f, pick) => FromClientServer(h, st, f, pick, s);
    case ProxyReceivesFromServer(t, order) => FromServerServer(h, st, t, order, s);
    case ProxyClosesClient(f) => CloseClientServer(st, f, s);
    case ProxyClosesServer(t, order) => UnmailedServer(st, OnServerClose(st.proxy, t, order), s);
  }

  lemma RelaysSame(p: Proxy, s: ServerId, msg: Message, f: FlowId)
    requires s in p.storages && f in OnServerMessage(p, s, msg).proxy.clients
    ensures f in p.clients && OnServerMessage(p, s, msg).proxy.clients[f].relay == p.clients[f].relay
  {
    var b := Ballot(p.clients, map[]);
    forall votes: seq<Vote>, succ ensures CastVotes(b, votes, succ).clients.Keys == p.clients.Keys {
      CastVotesClients(b, votes, succ);
    }
    forall votes: seq<Vote>, succ | f in p.clients ensures CastVotes(b, votes, succ).clients[f].relay == p.clients[f].relay {
      VotedRelay(b, votes, succ, f);
    }
  }

  /** Whoever relays after the step relayed before, or to the server just picked. */
  lemma RelaysFrom(h: Hash, st: System, act: Action, f: FlowId, s: ServerId)
    requires ServersOk(h, st) && Enabled(h, st, act) && AllInOrder(st) && !act.ProxyClosesServer?
    requires f in Apply(h, st, act).proxy.clients && s in Apply(h, st, act).proxy.clients[f].relay
    ensures
      || (f in st.proxy.clients && s in st.proxy.clients[f].relay)
      || (act.ProxyReceivesFromClient? && s == act.pick
          && s in OnClientMessage(h, st.proxy, act.flow, st.clients[act.flow].outq[0], s).toServers)
  {
    match act
    case ProxyReceivesFromClient(g, pick) => ClientMessageRelays(h, st, g, pick, f, s);
    case ProxyReceivesFromServer(t, order) => ServerMessageRelays(h, st, t, order, f);
    case _ => OtherRelays(h, st, act, f, s);
  }

  lemma OtherRelays(h: Hash, st: System, act: Action, f: FlowId, s: ServerId)
    requires Enabled(h, st, act) && !act.ProxyReceivesFromClient? && !act.ProxyReceivesFromServer? && !act.ProxyClosesServer?
    requires f in Apply(h, st, act).proxy.clients && s in Apply(h, st, act).proxy.clients[f].relay
    ensures f in st.proxy.clients && s in st.proxy.clients[f].relay
  {
  }

  lemma ClientMessageRelays(h: Hash, st: System, g: FlowId, pick: ServerId, f: FlowId, s: ServerId)
    requires g in st.proxy.clients && g in st.clients && st.clients[g].outq != []
    requires f in FromClient(h, st, g, pick).proxy.clients && s in FromClient(h, st, g, pick).proxy.clients[f].relay
    ensures
      || (f in st.proxy.clients && s in st.proxy.clients[f].relay)
      || (s == pick && s in OnClientMessage(h, st.proxy, g, st.clients[g].outq[0], s).toServers)
  {
    FromClientProxy(h, st, g, pick);
    ClientMessageMail(h, st.proxy, g, st.clients[g].outq[0], pick, s);
  }

  lemma ServerMessageRelays(h: Hash, st: System, t: ServerId, order: seq<Md5>, f: FlowId)
    requires ServersOk(h, st) && InOrderAt(st, t) && st.servers[t].outq != [] && f in FromServer(st, t, order).proxy.clients
    ensures f in st.proxy.clients && FromServer(st, t, order).proxy.clients[f].relay == st.proxy.clients[f].relay
  {
    FromServerPhase(h, st, t, order, t);
    RelaysSame(st.proxy, t, st.servers[t].outq[0], f);
  }

  lemma FromClientCleans(h: Hash, st: System, f: FlowId, pick: ServerId, s: ServerId)
    requires Calm(st) && Enabled(h, st, ProxyReceivesFromClient(f, pick)) && PicksListed(h, st, ProxyReceivesFromClient(f, pick))
    requires s in st.proxy.storages && s in st.servers
    ensures s in FromClient(h, st, f, pick).servers && OnlyCleans(FromClient(h, st, f, pick).servers[s])
  {
    FromClientServer(h, st, f, pick, s);
    ClientMessageMail(h, st.proxy, f, st.clients[f].outq[0], pick, s);
    assert OnlyCleans(st.servers[s]);
    assert s in st.proxy.clients[f].relay ==> ListedAt(st, s);
  }

  lemma ProxyStepCleans(h: Hash, st: System, act: Action, s: ServerId)
    requires Calm(st) && Enabled(h, st, act) && PicksListed(h, st, act) && IsProxyStep(act) && s in st.proxy.storages && s in st.servers
    ensures s in Apply(h, st, act).servers && OnlyCleans(Apply(h, st, act).servers[s])
  {
    match act
    case ProxyReceivesFromClient(f, pick) => FromClientCleans(h, st, f, pick, s);
    case ProxyReceivesFromServer(t, order) => FromServerServer(h, st, t, order, s);
    case ProxyClosesClient(f) => CloseClientServer(st, f, s);
    case ProxyClosesServer(t, order) => UnmailedServer(st, OnServerClose(st.proxy, t, order), s);
  }

  lemma EndStepCleans(h: Hash, st: System, act: Action, s: ServerId)
    requires ServersOk(h, st) && Calm(st) && Enabled(h, st, act) && !IsProxyStep(act) && s in st.proxy.storages && s in st.servers
    ensures s in Apply(h, st, act).servers && OnlyCleans(Apply(h, st, act).servers[s])
  {
    var e := st.servers[s];
    assert ServerEndOk(h, e);
    EndStepServers(h, st, act, s);
    if PhaseOf(e.server) == Working {
      PhaseStays(h, e);
    } else if act == ServerReceives(s) {
      InTail(e.inq);
    }
  }

  lemma StepCleans(h: Hash, st: System, act: Action, s: ServerId)
    requires ServersOk(h, st) && Calm(st) && Enabled(h, st, act) && PicksListed(h, st, act)
    requires s in Apply(h, st, act).proxy.storages && s in Apply(h, st, act).servers
    ensures OnlyCleans(Apply(h, st, act).servers[s])
  {
    if IsProxyStep(act) {
      ProxyStepServers(h, st, act, s);
      ProxyStepCleans(h, st, act, s);
    } else if s in st.servers {
      EndStepStorages(h, st, act, s);
      EndStepCleans(h, st, act, s);
    } else {
      EndStepStorages(h, st, act, s);
    }
  }

  lemma EndStepStorages(h: Hash, st: System, act: Action, s: ServerId)
    requires ServersOk(h, st) && Enabled(h, st, act) && !IsProxyStep(act) && s in Apply(h, st, act).proxy.storages
    ensures s in st.proxy.storages || (act.ConnectServer? && s == st.nextServer && s !in st.servers)
    ensures s !in st.proxy.storages ==> Apply(h, st, act).servers[s] == NewServer(act.files, act.order) && Apply(h, st, act).servers[s].inq == []
    ensures s !in st.proxy.storages ==> Apply(h, st, act).proxy.storages[s] == NewStorage
  {
  }

  lemma ProxyStepServers(h: Hash, st: System, act: Action, s: ServerId)
    requires ServersOk(h, st) && Enabled(h, st, act) && IsProxyStep(act) && s in Apply(h, st, act).proxy.storages
    ensures s in st.proxy.storages && s in st.servers
  {
    match act
    case ProxyReceivesFromClient(f, pick) => FromClientStorages(h, st, f, pick, s);
    case ProxyReceivesFromServer(t, order) => ServerMessageStorages(st.proxy, t, st.servers[t].outq[0]);
    case _ =>
  }

  lemma FromClientStorages(h: Hash, st: System, f: FlowId, pick: ServerId, s: ServerId)
    requires f in st.proxy.clients && f in st.clients && st.clients[f].outq != []
    ensures s in FromClient(h, st, f, pick).proxy.storages <==> s in st.proxy.storages
  {
    FromClientProxy(h, st, f, pick);
    ClientMessageMail(h, st.proxy, f, st.clients[f].outq[0], pick, s);
  }

  lemma ServerMessageStorages(p: Proxy, s: ServerId, msg: Message)
    requires s in p.storages
    ensures OnServerMessage(p, s, msg).proxy.storages.Keys == p.storages.Keys
  {
  }

  lemma NeverEarly(h: Hash, st: System, act: Action, s: ServerId)
    requires Calm(st) && s in st.proxy.storages
    ensures !AnswersEarly(st, act, s)
  {
    if s in st.servers && st.servers[s].inq != [] {
      assert st.servers[s].inq[0] in st.servers[s].inq;
    }
  }

  lemma CalmOrder(h: Hash, st: System, act: Action, s: ServerId)
    requires ServersOk(h, st) && Calm(st) && Enabled(h, st, act) && !act.ProxyClosesServer?
    requires s in Apply(h, st, act).proxy.storages && s in Apply(h, st, act).servers
    ensures InOrderAt(Apply(h, st, act), s)
  {
    if IsProxyStep(act) {
      ProxyStepServers(h, st, act, s);
      ProxyStepOrder(h, st, act, s);
    } else if s in st.proxy.storages {
      EndStepServers(h, st, act, s);
      EndOrder(h, st, act, s);
      NeverEarly(h, st, act, s);
    } else {
      EndStepStorages(h, st, act, s);
      JoinedOrder(h, act.files, act.order);
    }
  }

  lemma StepKeepsServers(h: Hash, st: System, act: Action)
    requires ServersOk(h, st) && AllInOrder(st) && Enabled(h, st, act) && !act.ProxyClosesServer?
    ensures KeepsServers(st, Apply(h, st, act))
  {
    forall s | s in st.proxy.storages ensures s in Apply(h, st, act).proxy.storages {
      if IsProxyStep(act) {
        ProxyStepOrder(h, st, act, s);
      } else {
        EndStepServers(h, st, act, s);
      }
    }
  }

  lemma StepCalm(h: Hash, st: System, act: Action)
    requires ServersOk(h, st) && Calm(st) && Enabled(h, st, act) && PicksListed(h, st, act) && !act.ProxyClosesServer?
    ensures Calm(Apply(h, st, act))
  {
    StepAllInOrder(h, st, act);
    StepAllOnlyCleans(h, st, act);
    StepRelaysListed(h, st, act, Apply(h, st, act));
  }

  lemma StepAllInOrder(h: Hash, st: System, act: Action)
    requires ServersOk(h, st) && Calm(st) && Enabled(h, st, act) && !act.ProxyClosesServer?
    ensures AllInOrder(Apply(h, st, act))
  {
    forall s | s in Apply(h, st, act).proxy.storages && s in Apply(h, st, act).servers ensures InOrderAt(Apply(h, st, act), s) {
      CalmOrder(h, st, act, s);
    }
  }

  lemma StepAllOnlyCleans(h: Hash, st: System, act: Action)
    requires ServersOk(h, st) && Calm(st) && Enabled(h, st, act) && PicksListed(h, st, act)
    ensures AllOnlyCleans(Apply(h, st, act))
  {
    forall s | s in Apply(h, st, act).proxy.storages && s in Apply(h, st, act).servers ensures OnlyCleans(Apply(h, st, act).servers[s]) {
      StepCleans(h, st, act, s);
    }
  }

  lemma StepRelaysListed(h: Hash, st: System, act: Action, st': System)
    requires ServersOk(h, st) && Calm(st) && Enabled(h, st, act) && PicksListed(h, st, act) && !act.ProxyClosesServer?
    requires st' == Apply(h, st, act)
    ensures RelaysListed(st')
  {
    forall f, s | f in st'.proxy.clients && s in st'.proxy.clients[f].relay
      ensures ListedAt(st', s)
    {
      StepRelays(h, st, act, f, s);
    }
  }

  lemma StepRelays(h: Hash, st: System, act: Action, f: FlowId, s: ServerId)
    requires ServersOk(h, st) && Calm(st) && Enabled(h, st, act) && PicksListed(h, st, act) && !act.ProxyClosesServer?
    requires f in Apply(h, st, act).proxy.clients && s in Apply(h, st, act).proxy.clients[f].relay
    ensures ListedAt(Apply(h, st, act), s)
  {
    RelaysFrom(h, st, act, f, s);
    if !(f in st.proxy.clients && s in st.proxy.clients[f].relay) {
      ClientMessagePicks(h, st.proxy, act.flow, st.clients[act.flow].outq[0], s);
    }
    ServerPhaseStays(h, st, act, s);
  }

  lemma ClientMessagePicks(h: Hash, p: Proxy, f: FlowId, msg: Message, pick: ServerId)
    requires f in p.clients && PickOk(p, f, msg, pick) && pick in OnClientMessage(h, p, f, msg, pick).toServers
    ensures pick in p.storages
  {
  }

  // ----- Conditions on runs -----

  /** In the first `i` steps the proxy closes no server's session, and either it picks only servers whose last block
      set it has, or no server joins with more blocks than one block set message holds. */
  ghost predicate ServersStay(h: Hash, run: seq<System>, acts: seq<Action>, i: nat)
    requires IsRun(h, run, acts) && i < |run|
  {
    && (forall k :: 0 <= k < i ==> !acts[k].ProxyClosesServer?)
    && ((forall k :: 0 <= k < i ==> PicksWorking(h, run[k], acts[k]))
        || (forall k :: 0 <= k < i ==> JoinsSmall(acts[k])))
  }

  ghost predicate PicksWorking(h: Hash, st: System, act: Action)
    requires Enabled(h, st, act)
  {
    act.ProxyReceivesFromClient? && act.pick in st.proxy.storages
    && act.pick in OnClientMessage(h, st.proxy, act.flow, st.clients[act.flow].outq[0], act.pick).toServers ==>
      st.proxy.storages[act.pick].phase == Working
  }

  predicate JoinsSmall(act: Action) {
    act.ConnectServer? ==> |act.order| <= 128
  }

  ghost predicate AllListed(st: System) {
    forall s :: s in st.servers ==> ListedAt(st, s)
  }

  lemma {:induction false} WorkingStays(msgs: seq<Message>)
    ensures After(Working, msgs) == Some(Working) || After(Working, msgs) == None
  {
    if msgs != [] {
      WorkingStays(msgs[1..]);
    }
  }

  lemma WorkingListed(h: Hash, st: System, act: Action)
    requires Calm(st) && Enabled(h, st, act) && PicksWorking(h, st, act)
    ensures PicksListed(h, st, act)
  {
    if act.ProxyReceivesFromClient? && act.pick in st.servers
       && act.pick in OnClientMessage(h, st.proxy, act.flow, st.clients[act.flow].outq[0], act.pick).toServers {
      ClientMessagePicks(h, st.proxy, act.flow, st.clients[act.flow].outq[0], act.pick);
      WorkingStays(st.servers[act.pick].outq);
    }
  }

  lemma StepListed(h: Hash, st: System, act: Action)
    requires ServersOk(h, st) && AllListed(st) && Enabled(h, st, act) && JoinsSmall(act)
    ensures AllListed(Apply(h, st, act))
  {
    forall s | s in Apply(h, st, act).servers ensures ListedAt(Apply(h, st, act), s) {
      if s in st.servers {
        ServerPhaseStays(h, st, act, s);
      } else {
        OnlyJoins(h, st, act, s);
        JoinedOrder(h, act.files, act.order);
      }
    }
  }

  lemma OnlyJoins(h: Hash, st: System, act: Action, s: ServerId)
    requires Enabled(h, st, act) && s in Apply(h, st, act).servers && s !in st.servers
    ensures act.ConnectServer? && Apply(h, st, act).servers[s] == NewServer(act.files, act.order)
  {
  }

  ghost predicate AllPicksWorking(h: Hash, run: seq<System>, acts: seq<Action>, i: nat)
    requires IsRun(h, run, acts) && i < |run|
  {
    forall k :: 0 <= k < i ==> PicksWorking(h, run[k], acts[k])
  }

  /** A state of such a run. */
  ghost predicate CalmUnder(st: System, picks: bool) {
    Calm(st) && (picks || AllListed(st))
  }

  lemma CalmStep(h: Hash, st: System, act: Action, picks: bool)
    requires ServersOk(h, st) && CalmUnder(st, picks) && Enabled(h, st, act) && !act.ProxyClosesServer?
    requires if picks then PicksWorking(h, st, act) else JoinsSmall(act)
    ensures CalmUnder(Apply(h, st, act), picks)
  {
    if picks {
      WorkingListed(h, st, act);
    } else {
      StepListed(h, st, act);
    }
    StepCalm(h, st, act);
  }

  lemma RunCalmStep(h: Hash, run: seq<System>, acts: seq<Action>, i: nat, k: nat)
    requires IsRun(h, run, acts) && i < |run| && ServersStay(h, run, acts, i) && k < i
    requires CalmUnder(run[k], AllPicksWorking(h, run, acts, i))
    ensures CalmUnder(run[k + 1], AllPicksWorking(h, run, acts, i))
  {
    RunKeeps(h, run, acts, k);
    CalmStep(h, run[k], acts[k], AllPicksWorking(h, run, acts, i));
  }

  lemma {:induction false} CalmAlong(run: seq<System>, picks: bool, k: nat)
    requires k < |run| && CalmUnder(run[0], picks)
    requires forall j :: 0 <= j < k && CalmUnder(run[j], picks) ==> CalmUnder(run[j + 1], picks)
    ensures CalmUnder(run[k], picks)
    decreases k
  {
    if k > 0 {
      CalmAlong(run, picks, k - 1);
      assert CalmUnder(run[k - 1 + 1], picks);
    }
  }

  lemma RunCalm(h: Hash, run: seq<System>, acts: seq<Action>, i: nat, k: nat)
    requires IsRun(h, run, acts) && i < |run| && ServersStay(h, run, acts, i) && k <= i
    ensures CalmUnder(run[k], AllPicksWorking(h, run, acts, i))
  {
    var picks := AllPicksWorking(h, run, acts, i);
    assert CalmUnder(run[0], picks);
    forall j | 0 <= j < k && CalmUnder(run[j], picks) ensures CalmUnder(run[j + 1], picks) {
      RunCalmStep(h, run, acts, i, j);
    }
    CalmAlong(run, picks, k);
  }

  /** If the proxy closes no server's session itself, and picks only servers whose lists it has in full (or all lists are
      short), then it drops no server. */
  lemma NoServerDropped(h: Hash, run: seq<System>, acts: seq<Action>, i: nat, k: nat)
    requires IsRun(h, run, acts) && i < |run| && ServersStay(h, run, acts, i) && k < i
    ensures KeepsServers(run[k], run[k + 1])
  {
    RunCalm(h, run, acts, i, k);
    RunKeeps(h, run, acts, k);
    StepKeepsServers(h, run[k], acts[k]);
  }
}
