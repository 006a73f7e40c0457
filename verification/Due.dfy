/** No acknowledgement is forgotten: while an agent waits for one, either the last piece of its block is still
    on its way, or its callback waits at a server that has the acknowledgement on its way. */
module Due {
  import opened Types
  import opened FileBlocks
  import SM = ServerModel
  import AM = AgentModel
  import opened ProxyModel
  import opened SystemModel
  import opened ServerLinks
  import opened Invariant
  import opened Frames
  import opened ProxySteps
  import opened UploadHandlers
  import opened DownloadHandlers
  import opened CloseHandlers
  import opened ServerHandlers
  import opened VoteHandlers
  import opened Runs

  predicate IsLast(msg: Message, f: FlowId, m: Md5) {
    msg.UploadBlock? && msg.eof && msg.flow == f && msg.md5 == m
  }

  predicate HasLast(msgs: seq<Message>, f: FlowId, m: Md5) {
    exists msg :: msg in msgs && IsLast(msg, f, m)
  }

  predicate AckDue(e: ServerEnd, f: FlowId, m: Md5) {
    HasLast(e.inq, f, m) || UploadBlockAck(m) in e.outq
  }

  /** The callbacks of a flow are at the server its block is relayed to; and while its agent waits for an
      acknowledgement and has no last piece on its way to the proxy, each of them has one due. */
  ghost predicate DueAt(e: ClientEnd, a: AM.Agent, relay: seq<ServerId>, subs: set<(ServerId, Md5)>, servers: map<ServerId, ServerEnd>, f: FlowId) {
    && (forall x :: x in subs ==> relay == [x.0] && x.0 in servers)
    && (a.phase == AM.WaitingBlockAck && a.current < |a.upload| && !HasLast(e.outq, 0, a.upload[a.current]) ==>
          && Firsts(e.outq) == 0
          && forall x :: x in subs ==> x.0 in servers && AckDue(servers[x.0], f, x.1))
  }

  ghost predicate DueOk(st: System, f: FlowId)
    requires IsUploader(st, f) && f in st.proxy.clients
  {
    DueAt(st.clients[f], AgentOf(st, f), st.proxy.clients[f].relay, Subs(st.proxy, f), st.servers, f)
  }

  ghost predicate DueAll(st: System) {
    forall f :: IsUploader(st, f) && f in st.proxy.clients ==> DueOk(st, f)
  }

  // ----- Frames -----

  /** What is due at a server stays due. */
  ghost predicate Carries(e: ServerEnd, e': ServerEnd, f: FlowId) {
    forall m :: AckDue(e, f, m) ==> AckDue(e', f, m)
  }

  /** A step that leaves the client's channel to the proxy, its agent and the place of its callbacks alone. */
  lemma DueStays(st: System, st': System, f: FlowId)
    requires IsUploader(st, f) && f in st.proxy.clients && DueOk(st, f)
    requires IsUploader(st', f) && AgentOf(st', f) == AgentOf(st, f) && st'.clients[f].outq == st.clients[f].outq
    requires f in st'.proxy.clients && st'.proxy.clients[f].relay == st.proxy.clients[f].relay
    requires Subs(st'.proxy, f) <= Subs(st.proxy, f)
    requires forall x :: x in Subs(st'.proxy, f) && x.0 in st.servers ==>
               x.0 in st'.servers && (AckDue(st.servers[x.0], f, x.1) ==> AckDue(st'.servers[x.0], f, x.1))
    ensures DueOk(st', f)
  {
  }

  lemma CarriesMore(e: ServerEnd, more: seq<Message>, f: FlowId)
    ensures Carries(e, e.(inq := e.inq + more), f)
  {
    forall m | AckDue(e, f, m) ensures AckDue(e.(inq := e.inq + more), f, m) {
      if msg :| msg in e.inq && IsLast(msg, f, m) {
        assert msg in e.inq + more;
      }
    }
  }

  // ----- Servers -----

  lemma ReceiveCarries(h: Hash, e: ServerEnd, f: FlowId)
    requires ServerEndOk(h, e) && e.inq != []
    ensures Carries(e, ServerReceive(h, e), f)
  {
    var e' := ServerReceive(h, e);
    forall m | AckDue(e, f, m) ensures AckDue(e', f, m) {
      if msg :| msg in e.inq && IsLast(msg, f, m) {
        if msg == e.inq[0] {
          StreamHead(h, e, f);
          UploadSends(h, e.server, msg);
          assert UploadBlockAck(m) in [UploadBlockAck(m)];
        } else {
          assert e.inq == [e.inq[0]] + e.inq[1..];
          assert msg in e'.inq;
        }
      }
    }
  }

  lemma WriteCarries(e: ServerEnd, f: FlowId)
    ensures Carries(e, ServerWritten(e), f)
  {
  }

  lemma ServerAloneDue(st: System, s: ServerId, e': ServerEnd)
    requires DueAll(st) && s in st.servers && forall f: FlowId :: Carries(st.servers[s], e', f)
    ensures DueAll(WithServer(st, s, e'))
  {
    var st' := WithServer(st, s, e');
    forall f | IsUploader(st', f) && f in st'.proxy.clients ensures DueOk(st', f) {
      assert DueOk(st, f) && Carries(st.servers[s], e', f);
      assert Subs(st'.proxy, f) == Subs(st.proxy, f);
      DueStays(st, st', f);
    }
  }

  // ----- Clients -----

  lemma ClientAloneDue(st: System, f: FlowId, e': ClientEnd)
    requires DueAll(st) && f in st.clients
    requires e'.party.Uploader? && f in st.proxy.clients ==> DueOk(WithClient(st, f, e'), f)
    ensures DueAll(WithClient(st, f, e'))
  {
    var st' := WithClient(st, f, e');
    forall g | IsUploader(st', g) && g in st'.proxy.clients ensures DueOk(st', g) {
      if g != f {
        assert DueOk(st, g);
        DueStays(st, st', g);
      }
    }
  }

  /** An agent that comes to wait for an acknowledgement has just sent the last piece. */
  lemma LastPieceSent(h: Hash, a: AM.Agent)
    requires a.phase == AM.UploadingBlocks && AM.Sending(h, a)
    ensures
      var r := AM.SendBlockPiece(a);
      r.agent.phase == AM.WaitingBlockAck ==>
        r.agent.current < |r.agent.upload| && HasLast(r.sends, 0, r.agent.upload[r.agent.current])
  {
    AM.NextPiece(h, a);
    var r := AM.SendBlockPiece(a);
    assert r.sends[0] in r.sends;
  }

  lemma ReceiveSendsLast(h: Hash, a: AM.Agent, msg: Message)
    requires AM.AgentOk(h, a) && AM.Expected(a, msg)
    ensures
      var r := AM.OnMessage(a, msg);
      r.agent.phase == AM.WaitingBlockAck && r.agent.current < |r.agent.upload| ==>
        HasLast(r.sends, 0, r.agent.upload[r.agent.current]) || (r.agent == a && r.sends == [])
  {
    if a.phase == AM.WaitingUploadResponse {
      if msg.md5s != [] {
        var a' := a.(phase := AM.UploadingBlocks, upload := msg.md5s, current := 0, offset := 0, piece := 0);
        AM.Starts(h, a');
        LastPieceSent(h, a');
      }
    } else if a.phase == AM.WaitingBlockAck && msg.UploadBlockAck? && a.current + 1 < |a.upload| {
      var a' := a.(phase := AM.UploadingBlocks, current := a.current + 1, offset := 0, piece := 0);
      AM.Starts(h, a');
      LastPieceSent(h, a');
    }
  }

  lemma SentLast(a: seq<Message>, b: seq<Message>, m: Md5)
    ensures HasLast(a + b, 0, m) <==> HasLast(a, 0, m) || HasLast(b, 0, m)
  {
    if msg :| msg in a && IsLast(msg, 0, m) {
      assert msg in a + b;
    }
    if msg :| msg in b && IsLast(msg, 0, m) {
      assert msg in a + b;
    }
  }

  lemma MovedDue(st: System, f: FlowId, e': ClientEnd, sends: seq<Message>)
    requires IsUploader(st, f) && f in st.proxy.clients && DueOk(st, f)
    requires e'.party.Uploader? && e'.outq == st.clients[f].outq + sends
    requires
      var a' := e'.party.agent;
      a'.phase == AM.WaitingBlockAck && a'.current < |a'.upload| ==>
        HasLast(sends, 0, a'.upload[a'.current]) || (a' == AgentOf(st, f) && sends == [])
    ensures DueOk(WithClient(st, f, e'), f)
  {
    var a' := e'.party.agent;
    if a'.phase == AM.WaitingBlockAck && a'.current < |a'.upload| {
      SentLast(st.clients[f].outq, sends, a'.upload[a'.current]);
    }
    assert Subs(WithClient(st, f, e').proxy, f) == Subs(st.proxy, f);
    assert st.clients[f].outq + [] == st.clients[f].outq;
  }

  lemma UploaderReceivesDue(h: Hash, st: System, f: FlowId)
    requires IsUploader(st, f) && UploaderOk(h, st, f) && st.clients[f].inq != [] && DueAll(st)
    ensures DueAll(WithClient(st, f, ClientReceive(st.clients[f])))
  {
    var e, a := st.clients[f], AgentOf(st, f);
    var r := AM.OnMessage(a, e.inq[0]);
    if f in st.proxy.clients {
      assert DueOk(st, f);
      assert AM.AgentOk(h, a) && AM.Expected(a, e.inq[0]) by {
        var at :| UploaderAt(h, st, f, at);
      }
      ReceiveSendsLast(h, a, e.inq[0]);
      MovedDue(st, f, ClientReceive(e), r.sends);
    }
    ClientAloneDue(st, f, ClientReceive(e));
  }

  lemma UploaderWritesDue(h: Hash, st: System, f: FlowId)
    requires IsUploader(st, f) && UploaderOk(h, st, f) && DueAll(st)
    ensures DueAll(WithClient(st, f, ClientWritten(st.clients[f])))
  {
    var e, a := st.clients[f], AgentOf(st, f);
    var r := AM.OnWriteComplete(a);
    if f in st.proxy.clients {
      assert DueOk(st, f);
      if a.phase == AM.UploadingBlocks {
        assert AM.AgentOk(h, a) by {
          var at :| UploaderAt(h, st, f, at);
        }
        LastPieceSent(h, a);
      }
      MovedDue(st, f, ClientWritten(e), r.sends);
    }
    ClientAloneDue(st, f, ClientWritten(e));
  }

  lemma ShutDue(st: System, f: FlowId)
    requires f in st.clients && DueAll(st)
    ensures DueAll(WithClient(st, f, Shut(st.clients[f])))
  {
    if IsUploader(st, f) && f in st.proxy.clients {
      assert DueOk(st, f);
      DueStays(st, WithClient(st, f, Shut(st.clients[f])), f);
    }
    ClientAloneDue(st, f, Shut(st.clients[f]));
  }

  // ----- Joining -----

  lemma ConnectDue(h: Hash, st: System, e: ClientEnd)
    requires Inv(h, st) && DueAll(st)
    requires e.party.Uploader? ==> e.party.agent.phase == AM.WaitingUploadResponse
    ensures DueAll(Connect(st, e))
  {
    var st' := Connect(st, e);
    forall f | IsUploader(st', f) && f in st'.proxy.clients ensures DueOk(st', f) {
      assert Subs(st'.proxy, f) == Subs(st.proxy, f);
      if f == st.proxy.nextFlow {
        KnownFlow(h, st, f);
      } else {
        assert DueOk(st, f);
        DueStays(st, st', f);
      }
    }
  }

  lemma JoinDue(h: Hash, st: System, e: ServerEnd)
    requires ServersOk(h, st) && DueAll(st)
    ensures DueAll(Join(st, e))
  {
    var st' := Join(st, e);
    assert st.nextServer !in st.servers && st.nextServer !in st.proxy.storages;
    forall f | IsUploader(st', f) && f in st'.proxy.clients ensures DueOk(st', f) {
      JoinDueAt(st, e, f);
    }
  }

  lemma JoinDueAt(st: System, e: ServerEnd, f: FlowId)
    requires st.nextServer !in st.servers && st.nextServer !in st.proxy.storages
    requires IsUploader(st, f) && f in st.proxy.clients && DueOk(st, f)
    ensures DueOk(Join(st, e), f)
  {
    var st' := Join(st, e);
    assert Subs(st'.proxy, f) == Subs(st.proxy, f) by {
      assert forall x :: x in Subs(st'.proxy, f) <==> x in Subs(st.proxy, f);
    }
    DueStays(st, st', f);
  }

  // ----- Messages of clients -----

  lemma HandledServerCarries(st: System, st1: System, f: FlowId, r: ProxyResult, g: FlowId, s: ServerId)
    requires Taken(st, st1, f) && s in st.servers
    ensures Carries(st.servers[s], AfterProxy(st1, r).servers[s], g)
  {
    CarriesMore(st.servers[s], Mail(r.toServers, s), g);
    assert AfterProxy(st1, r).servers[s] == st.servers[s].(inq := st.servers[s].inq + Mail(r.toServers, s));
  }

  lemma HandledDue(st: System, f: FlowId, st1: System, r: ProxyResult)
    requires DueAll(st) && Taken(st, st1, f) && ProxyMoves(st.proxy, r.proxy, f)
    requires IsUploader(st, f) && f in r.proxy.clients ==> DueOk(AfterProxy(st1, r), f)
    ensures DueAll(AfterProxy(st1, r))
  {
    var st' := AfterProxy(st1, r);
    forall g | IsUploader(st', g) && g in st'.proxy.clients ensures DueOk(st', g) {
      if g != f {
        assert SameProxy(st.proxy, r.proxy, g);
        assert DueOk(st, g);
        forall s | s in st.servers ensures Carries(st.servers[s], st'.servers[s], g) {
          HandledServerCarries(st, st1, f, r, g, s);
        }
        DueStays(st, st', g);
      }
    }
  }

  /** A handler that changes neither callbacks nor the place of the current block. */
  lemma QuietDue(st: System, f: FlowId, r: ProxyResult, c: Client)
    requires DueAll(st) && IsUploader(st, f) && f in st.proxy.clients && st.clients[f].outq != []
    requires r.proxy == SetClient(st.proxy, f, c).(ids := r.proxy.ids) && c.relay == st.proxy.clients[f].relay
    requires forall id :: id in st.proxy.ids ==> id in r.proxy.ids && r.proxy.ids[id] == st.proxy.ids[id]
    requires AgentOf(st, f).phase != AM.WaitingBlockAck
    ensures DueAll(AfterProxy(PopFromClient(st, f), r))
  {
    PopTakes(st, f);
    SetClientMoves(st.proxy, r.proxy, f, c);
    SameSubs(st.proxy, r.proxy, f);
    assert DueOk(st, f);
    HandledDue(st, f, PopFromClient(st, f), r);
  }

  /** A stream that gets back to where no block is open, and has no last piece, has nothing in it. */
  lemma {:induction false} NothingSent(h: Hash, at: SM.Stream, msgs: seq<Message>, m: Md5)
    requires at.Between? || (at.Inside? && at.md5 == m)
    requires PiecesOnly(msgs, m) && !HasLast(msgs, 0, m) && SM.ReadAll(h, 0, at, msgs) == SM.Between
    ensures msgs == []
    decreases |msgs|
  {
    if msgs != [] {
      var next := SM.Read(h, 0, at, msgs[0]);
      assert msgs[0] in msgs;
      if next.Broken? {
        SM.ReadAllBroken(h, 0, msgs[1..]);
      } else {
        assert next.Inside? && next.md5 == m;
        InTail(msgs);
        assert !HasLast(msgs[1..], 0, m);
        NothingSent(h, next, msgs[1..], m);
      }
    }
  }

  /** What remains in the channel behind a last piece is nothing. */
  lemma BehindLast(h: Hash, st: System, f: FlowId, m: Md5)
    requires IsUploader(st, f) && UploaderOk(h, st, f) && f in st.proxy.clients && st.clients[f].outq != []
    requires AgentOf(st, f).phase == AM.WaitingBlockAck && m == AgentOf(st, f).upload[AgentOf(st, f).current]
    requires IsLast(st.clients[f].outq[0], 0, m) && !HasLast(st.clients[f].outq[1..], 0, m)
    ensures st.clients[f].outq[1..] == []
  {
    var at :| UploaderAt(h, st, f, at);
    var outq := st.clients[f].outq;
    InTail(outq);
    StreamNext(h, at, outq, AgentOf(st, f));
    NothingSent(h, SM.Between, outq[1..], m);
  }

  lemma LastDelivered(st: System, f: FlowId, r: ProxyResult, s: ServerId, m: Md5)
    requires f in st.clients && st.clients[f].outq != [] && IsLast(st.clients[f].outq[0], 0, m)
    requires s in st.servers && Mail(r.toServers, s) == [Stamped(st.clients[f].outq[0], f)]
    ensures AckDue(AfterProxy(PopFromClient(st, f), r).servers[s], f, m)
  {
    var msg := Stamped(st.clients[f].outq[0], f);
    assert msg in AfterProxy(PopFromClient(st, f), r).servers[s].inq && IsLast(msg, f, m);
  }

  lemma FirstPieceDue(h: Hash, st: System, f: FlowId, pick: ServerId)
    requires Inv(h, st) && DueAll(st) && IsUploader(st, f) && f in st.proxy.clients && pick in st.proxy.storages
    requires st.proxy.clients[f].phase == WaitingUploadBlock && st.clients[f].outq != []
    requires st.clients[f].outq[0].UploadBlock? && st.clients[f].outq[0].index == 0
    ensures DueAll(AfterProxy(PopFromClient(st, f), OnUploadBlock(st.proxy, f, st.clients[f].outq[0], pick)))
  {
    var e, a, c := st.clients[f], AgentOf(st, f), st.proxy.clients[f];
    var r := OnUploadBlock(st.proxy, f, e.outq[0], pick);
    assert ClientOk(h, st, f) && DueOk(st, f);
    PopTakes(st, f);
    FirstPieceSent(h, st, f, pick);
    FirstPieceToken(h, e, a, c, Subs(st.proxy, f));
    SubscribeSelf(st.proxy, r.proxy, pick, e.outq[0].md5, f);
    FirstPieceDueAt(st, f, r, pick);
    HandledDue(st, f, PopFromClient(st, f), r);
  }

  lemma FirstPieceDueAt(st: System, f: FlowId, r: ProxyResult, pick: ServerId)
    requires IsUploader(st, f) && f in st.proxy.clients && DueOk(st, f) && st.clients[f].outq != []
    requires AgentOf(st, f).current < |AgentOf(st, f).upload|
    requires
      var e, m := st.clients[f], AgentOf(st, f).upload[AgentOf(st, f).current];
      e.outq[0].UploadBlock? && e.outq[0].index == 0 && e.outq[0].md5 == m && e.outq[0].flow == 0 && Firsts(e.outq[1..]) == 0
    requires f in r.proxy.clients && r.proxy.clients[f].relay == [pick] && pick in st.servers
    requires Subs(r.proxy, f) == {(pick, AgentOf(st, f).upload[AgentOf(st, f).current])}
    requires Mail(r.toServers, pick) == [Stamped(st.clients[f].outq[0], f)]
    ensures DueOk(AfterProxy(PopFromClient(st, f), r), f)
  {
    var e, a := st.clients[f], AgentOf(st, f);
    var m := a.upload[a.current];
    var st' := AfterProxy(PopFromClient(st, f), r);
    if a.phase == AM.WaitingBlockAck && !HasLast(e.outq[1..], 0, m) {
      assert HasLast(e.outq, 0, m);
      var msg :| msg in e.outq && IsLast(msg, 0, m);
      assert e.outq == [e.outq[0]] + e.outq[1..];
      assert msg == e.outq[0];
      LastDelivered(st, f, r, pick, m);
    }
    assert st'.clients[f].outq == e.outq[1..];
  }

  lemma RelayDueAt(h: Hash, st: System, f: FlowId, r: ProxyResult)
    requires IsUploader(st, f) && UploaderOk(h, st, f) && f in st.proxy.clients && DueOk(st, f) && st.clients[f].outq != []
    requires st.clients[f].outq[0].UploadBlock? && st.clients[f].outq[0].index != 0
    requires forall s :: s in st.proxy.storages ==> s in st.servers
    requires f in r.proxy.clients && PieceSent(st, f, r) && Subs(r.proxy, f) == Subs(st.proxy, f)
    requires forall x :: x in Subs(st.proxy, f) && AgentOf(st, f).phase == AM.WaitingBlockAck ==>
               x.1 == AgentOf(st, f).upload[AgentOf(st, f).current]
    ensures DueOk(AfterProxy(PopFromClient(st, f), r), f)
  {
    var e, a := st.clients[f], AgentOf(st, f);
    var st' := AfterProxy(PopFromClient(st, f), r);
    PopTakes(st, f);
    forall s | s in st.servers ensures Carries(st.servers[s], st'.servers[s], f) {
      HandledServerCarries(st, PopFromClient(st, f), f, r, f, s);
    }
    if a.phase == AM.WaitingBlockAck && a.current < |a.upload| && !HasLast(e.outq[1..], 0, a.upload[a.current])
       && HasLast(e.outq, 0, a.upload[a.current]) {
      RelayedLast(h, st, f, r, a.upload[a.current]);
    }
    assert st'.clients[f].outq == e.outq[1..];
  }

  /** The last piece of the block has been relayed. */
  lemma RelayedLast(h: Hash, st: System, f: FlowId, r: ProxyResult, m: Md5)
    requires IsUploader(st, f) && UploaderOk(h, st, f) && f in st.proxy.clients && st.clients[f].outq != []
    requires st.clients[f].outq[0].UploadBlock? && AgentOf(st, f).phase == AM.WaitingBlockAck && m == AgentOf(st, f).upload[AgentOf(st, f).current]
    requires HasLast(st.clients[f].outq, 0, m) && !HasLast(st.clients[f].outq[1..], 0, m)
    requires f in r.proxy.clients && PieceSent(st, f, r)
    requires forall x :: x in Subs(st.proxy, f) ==> x.1 == m && x.0 in st.servers && x.0 in st.proxy.storages && r.proxy.clients[f].relay == [x.0]
    ensures st.clients[f].outq[1..] == []
    ensures forall x :: x in Subs(st.proxy, f) ==> AckDue(AfterProxy(PopFromClient(st, f), r).servers[x.0], f, x.1)
  {
    var outq := st.clients[f].outq;
    var msg :| msg in outq && IsLast(msg, 0, m);
    assert outq == [outq[0]] + outq[1..];
    assert msg == outq[0];
    BehindLast(h, st, f, m);
    forall x | x in Subs(st.proxy, f) ensures AckDue(AfterProxy(PopFromClient(st, f), r).servers[x.0], f, x.1) {
      LastDelivered(st, f, r, x.0, m);
    }
  }

  lemma RelayFacts(h: Hash, st: System, f: FlowId)
    requires IsUploader(st, f) && UploaderOk(h, st, f) && f in st.proxy.clients
    ensures |st.proxy.clients[f].relay| <= 1 && forall s :: s in st.proxy.clients[f].relay ==> s in st.servers
    ensures forall x :: x in Subs(st.proxy, f) && AgentOf(st, f).phase == AM.WaitingBlockAck ==>
              AgentOf(st, f).current < |AgentOf(st, f).upload| && x.1 == AgentOf(st, f).upload[AgentOf(st, f).current]
  {
    var at :| UploaderAt(h, st, f, at);
  }

  lemma RelayDue(h: Hash, st: System, f: FlowId, pick: ServerId)
    requires Inv(h, st) && DueAll(st) && IsUploader(st, f) && f in st.proxy.clients
    requires st.proxy.clients[f].phase == WaitingUploadBlock && st.clients[f].outq != []
    requires st.clients[f].outq[0].UploadBlock? && st.clients[f].outq[0].index != 0
    ensures DueAll(AfterProxy(PopFromClient(st, f), OnUploadBlock(st.proxy, f, st.clients[f].outq[0], pick)))
  {
    var r := OnUploadBlock(st.proxy, f, st.clients[f].outq[0], pick);
    assert UploaderOk(h, st, f) && DueOk(st, f) by {
      assert ClientOk(h, st, f);
    }
    RelayFacts(h, st, f);
    PopTakes(st, f);
    RelaySent(st, f, pick);
    SameSubs(st.proxy, r.proxy, f);
    assert DueOk(AfterProxy(PopFromClient(st, f), r), f) by {
      RelayDueAt(h, st, f, r);
    }
    HandledDue(st, f, PopFromClient(st, f), r);
  }

  lemma QuietUploaderDue(h: Hash, st: System, f: FlowId, pick: ServerId)
    requires DueAll(st) && IsUploader(st, f) && UploaderOk(h, st, f) && f in st.proxy.clients && st.clients[f].outq != []
    requires !st.clients[f].outq[0].UploadBlock?
    ensures DueAll(FromClient(h, st, f, pick))
  {
    var r := OnClientMessage(h, st.proxy, f, st.clients[f].outq[0], pick);
    FromUploaderIs(h, st, f, pick);
    UploaderSends(h, st.clients[f], AgentOf(st, f), st.proxy.clients[f], Subs(st.proxy, f));
    QuietDue(st, f, r, r.proxy.clients[f]);
  }

  lemma FromUploaderDue(h: Hash, st: System, f: FlowId, pick: ServerId)
    requires Inv(h, st) && DueAll(st) && IsUploader(st, f) && f in st.proxy.clients && st.clients[f].outq != []
    requires OnClientMessage(h, st.proxy, f, st.clients[f].outq[0], pick).outcome != Exit
    ensures DueAll(FromClient(h, st, f, pick))
  {
    assert UploaderOk(h, st, f) by {
      assert ClientOk(h, st, f);
    }
    if !st.clients[f].outq[0].UploadBlock? {
      QuietUploaderDue(h, st, f, pick);
    } else {
      FromUploaderIs(h, st, f, pick);
      if st.clients[f].outq[0].index == 0 {
        FirstPieceDue(h, st, f, pick);
      } else {
        RelayDue(h, st, f, pick);
      }
    }
  }

  lemma FromDownloaderDue(h: Hash, st: System, f: FlowId, pick: ServerId)
    requires DueAll(st) && IsDownloader(st, f) && DownloaderOk(st, f) && f in st.proxy.clients && st.clients[f].outq != []
    requires OnClientMessage(h, st.proxy, f, st.clients[f].outq[0], pick).outcome != Exit
    requires PickOk(st.proxy, f, st.clients[f].outq[0], pick)
    ensures DueAll(FromClient(h, st, f, pick))
  {
    var r := OnClientMessage(h, st.proxy, f, st.clients[f].outq[0], pick);
    PopTakes(st, f);
    FromDownloaderIs(h, st, f, pick);
    DownloaderSends(st, f);
    if r.outcome == Close {
      var c' :| !Finished(c') && r == Silent(SetClient(st.proxy, f, c'), Close);
      LeavesAfter(st, f, c');
      LeaveMoves(h, st, f, c');
      HandledDue(st, f, PopFromClient(st, f), Leave(st.proxy, f, c'));
    } else {
      DownloaderMoves(h, st, f, pick);
      HandledDue(st, f, PopFromClient(st, f), r);
    }
  }

  lemma DownloaderMoves(h: Hash, st: System, f: FlowId, pick: ServerId)
    requires IsDownloader(st, f) && DownloaderOk(st, f) && f in st.proxy.clients && st.clients[f].outq != []
    requires OnClientMessage(h, st.proxy, f, st.clients[f].outq[0], pick).outcome == Ok
    requires PickOk(st.proxy, f, st.clients[f].outq[0], pick)
    ensures ProxyMoves(st.proxy, OnClientMessage(h, st.proxy, f, st.clients[f].outq[0], pick).proxy, f)
  {
    var r := OnClientMessage(h, st.proxy, f, st.clients[f].outq[0], pick);
    DownloaderSends(st, f);
    if st.proxy.clients[f].phase == Init {
      DownloadRequestIs(h, st, f, pick);
    } else {
      TransferBlockAckIs(h, st, f, pick);
    }
    assert r.proxy == SetClient(st.proxy, f, r.proxy.clients[f]);
    SetClientMoves(st.proxy, r.proxy, f, r.proxy.clients[f]);
  }

  lemma LeaveDue(h: Hash, st: System, f: FlowId)
    requires DueAll(st) && f in st.clients && f in st.proxy.clients
    ensures DueAll(CloseClient(st, f))
  {
    SetSame(st.proxy, f);
    LeaveMoves(h, st, f, st.proxy.clients[f]);
    HandledDue(st, f, st, Leave(st.proxy, f, st.proxy.clients[f]));
  }

  // ----- Messages of servers -----

  lemma PopCarries(e: ServerEnd, f: FlowId, m: Md5)
    requires e.outq != [] && e.outq[0] != UploadBlockAck(m)
    ensures AckDue(e, f, m) ==> AckDue(Popped(e), f, m)
  {
    assert e.outq == [e.outq[0]] + e.outq[1..];
  }

  /** What a handler run for server `s` leaves of the callbacks is still due. */
  ghost predicate KeepsDue(st: System, s: ServerId, st1: System, r: ProxyResult) {
    && ServedBy(st, s, st1, r)
    && forall f :: f in r.proxy.clients ==>
         && f in st.proxy.clients && r.proxy.clients[f].relay == st.proxy.clients[f].relay
         && Subs(r.proxy, f) <= Subs(st.proxy, f)
         && forall x :: x in Subs(r.proxy, f) && x.0 == s ==> (AckDue(st.servers[s], f, x.1) ==> AckDue(st1.servers[s], f, x.1))
  }

  lemma ServedDue(st: System, s: ServerId, st1: System, r: ProxyResult)
    requires DueAll(st) && KeepsDue(st, s, st1, r)
    ensures DueAll(AfterProxy(st1, r))
  {
    var st' := AfterProxy(st1, r);
    forall f | IsUploader(st', f) && f in st'.proxy.clients ensures DueOk(st', f) {
      assert DueOk(st, f);
      forall x | x in Subs(st'.proxy, f) && x.0 in st.servers
        ensures x.0 in st'.servers && (AckDue(st.servers[x.0], f, x.1) ==> AckDue(st'.servers[x.0], f, x.1))
      {
        ServedServers(st, s, st1, r, x.0);
      }
      DueStays(st, st', f);
    }
  }

  lemma BlockSetDue(h: Hash, st: System, s: ServerId)
    requires ServersOk(h, st) && DueAll(st)
    requires s in st.proxy.storages && s in st.servers && st.servers[s].outq != [] && st.servers[s].outq[0].TransferBlockSet?
    ensures DueAll(AfterProxy(PopFromServer(st, s), LearnSet(st, s)))
  {
    var r := LearnSet(st, s);
    BlockSetServed(h, st, s);
    forall f | f in r.proxy.clients
      ensures Subs(r.proxy, f) <= Subs(st.proxy, f)
      ensures forall x :: x in Subs(r.proxy, f) && x.0 == s ==> (AckDue(st.servers[s], f, x.1) ==> AckDue(Popped(st.servers[s]), f, x.1))
    {
      SameStorage(st.proxy, s, Learned(st.proxy.storages[s], st.servers[s].outq[0]), f);
      forall m ensures AckDue(st.servers[s], f, m) ==> AckDue(Popped(st.servers[s]), f, m) {
        PopCarries(st.servers[s], f, m);
      }
    }
    ServedDue(st, s, PopFromServer(st, s), r);
  }

  lemma ForwardDue(h: Hash, st: System, s: ServerId)
    requires ServersOk(h, st) && DueAll(st)
    requires s in st.proxy.storages && s in st.servers && st.servers[s].outq != [] && st.servers[s].outq[0].TransferBlock?
    ensures DueAll(AfterProxy(PopFromServer(st, s), Forward(st, s)))
  {
    ForwardServed(h, st, s);
    assert Forward(st, s).proxy == st.proxy;
    forall f: FlowId, m ensures AckDue(st.servers[s], f, m) ==> AckDue(Popped(st.servers[s]), f, m) {
      PopCarries(st.servers[s], f, m);
    }
    ServedDue(st, s, PopFromServer(st, s), Forward(st, s));
  }

  lemma VotedRelay(b: Ballot, votes: seq<Vote>, succ: bool, f: FlowId)
    requires f in b.clients
    ensures f in CastVotes(b, votes, succ).clients && CastVotes(b, votes, succ).clients[f].relay == b.clients[f].relay
    decreases |votes|
  {
    if votes != [] {
      VotedRelay(CastVote(b, votes[0], succ), votes[1..], succ, f);
    }
  }

  lemma AckedDue(h: Hash, st: System, s: ServerId, m: Md5)
    requires DueAll(st) && s in st.servers && s in st.proxy.storages
    requires st.servers[s].outq != [] && st.servers[s].outq[0] == UploadBlockAck(m)
    ensures DueAll(AfterProxy(PopFromServer(st, s), Acked(st.proxy, s, m)))
  {
    var r := Acked(st.proxy, s, m);
    var b := Ballot(st.proxy.clients, map[]);
    AckedServed(st, s, m);
    CastVotesClients(b, VotesAt(st.proxy.storages[s], m), true);
    forall f | f in r.proxy.clients
      ensures f in st.proxy.clients && r.proxy.clients[f].relay == st.proxy.clients[f].relay && Subs(r.proxy, f) <= Subs(st.proxy, f)
      ensures forall x :: x in Subs(r.proxy, f) && x.0 == s ==> (AckDue(st.servers[s], f, x.1) ==> AckDue(Popped(st.servers[s]), f, x.1))
    {
      AckedSubs(st.proxy, s, m, f);
      VotedRelay(b, VotesAt(st.proxy.storages[s], m), true, f);
      forall x | x in Subs(r.proxy, f) && x.0 == s ensures AckDue(st.servers[s], f, x.1) ==> AckDue(Popped(st.servers[s]), f, x.1) {
        PopCarries(st.servers[s], f, x.1);
      }
    }
    ServedDue(st, s, PopFromServer(st, s), r);
  }

  lemma LeftDue(h: Hash, st: System, s: ServerId, order: seq<Md5>)
    requires DueAll(st) && s in st.servers && s in st.proxy.storages
    ensures DueAll(AfterProxy(st, OnServerClose(st.proxy, s, order)))
  {
    var r := OnServerClose(st.proxy, s, order);
    var b := Ballot(st.proxy.clients, map[]);
    LeftServed(st, s, order);
    CastVotesClients(b, AllVotes(st.proxy.storages[s].subs, order), false);
    forall f | f in r.proxy.clients
      ensures f in st.proxy.clients && r.proxy.clients[f].relay == st.proxy.clients[f].relay && Subs(r.proxy, f) <= Subs(st.proxy, f)
      ensures forall x :: x in Subs(r.proxy, f) ==> x.0 != s
    {
      LeftSubs(st.proxy, s, order, f);
      VotedRelay(b, AllVotes(st.proxy.storages[s].subs, order), false, f);
    }
    ServedDue(st, s, st, r);
  }

  lemma FromServerDue(h: Hash, st: System, s: ServerId, order: seq<Md5>)
    requires Inv(h, st) && DueAll(st) && s in st.servers && s in st.proxy.storages && st.servers[s].outq != []
    ensures DueAll(FromServer(st, s, order))
  {
    var msg := st.servers[s].outq[0];
    ServerSends(h, st, s);
    ServerOutcome(st.proxy, s, msg);
    if OnServerMessage(st.proxy, s, msg).outcome == Close {
      LeftDue(h, st, s, order);
    } else if msg.TransferBlockSet? {
      BlockSetIs(st.proxy, s, msg);
      BlockSetDue(h, st, s);
    } else if msg.UploadBlockAck? {
      AckIs(st.proxy, s, msg.md5);
      AckedDue(h, st, s, msg.md5);
    } else {
      TransferBlockIs(st, s);
      ForwardDue(h, st, s);
    }
  }
}
