/** The proxy's handlers for uploading clients keep the invariant. */
module UploadHandlers {
  import opened Types
  import opened FileBlocks
  import SM = ServerModel
  import AM = AgentModel
  import opened ProxyModel
  import opened SystemModel
  import opened ServerLinks
  import opened Invariant
  import opened Frames
  import opened ProxySteps

  /** What the proxy can find at the head of an uploading client's channel. */
  lemma UploaderSends(h: Hash, e: ClientEnd, a: AM.Agent, c: Client, subs: set<(ServerId, Md5)>)
    requires UploadPhase(h, e, a, Some(c), subs) && e.outq != []
    ensures c.phase == Init || c.phase == WaitingUploadBlock
    ensures c.phase == Init ==> a.phase == AM.WaitingUploadResponse && e.outq == [UploadRequest(AM.List(a))]
    ensures c.phase == WaitingUploadBlock ==>
              || (e.outq[0].UploadBlock? && e.outq[0].flow == 0)
              || (e.outq == [UploadAllBlocks] && a.phase == AM.WaitingFinalResult)
  {
    assert e.outq[0] in e.outq;
    if a.phase == AM.WaitingFinalResult && |e.outq| > 1 {
      assert e.outq[0] == e.outq[..|e.outq| - 1][0];
    }
  }

  lemma SameSubs(p: Proxy, p': Proxy, g: FlowId)
    requires p'.storages == p.storages
    ensures Subs(p', g) == Subs(p, g) && (SubsOnce(p, g) <==> SubsOnce(p', g))
  {
    assert forall x :: x in Subs(p', g) <==> x in Subs(p, g);
  }

  lemma SetClientMoves(p: Proxy, p': Proxy, f: FlowId, c: Client)
    requires f in p.clients && p' == p.(clients := p.clients[f := c], ids := p'.ids)
    requires forall id :: id in p.ids ==> id in p'.ids && p'.ids[id] == p.ids[id]
    ensures ProxyMoves(p, p', f)
  {
    forall g: FlowId ensures g != f ==> SameProxy(p, p', g) {
      SameSubs(p, p', g);
    }
  }

  lemma IndexedHeld(h: Hash, st: System, m: Md5)
    requires ServersOk(h, st) && Indexed(st.proxy, m)
    ensures Held(st, m)
  {
    var s :| s in st.proxy.storages && m in st.proxy.storages[s].md5s;
    assert IndexOk(st.servers[s], st.proxy.storages[s].md5s);
    assert m in st.servers[s].server.files;
  }

  /** The parts of UploaderOk that a handler run for the flow can change. */
  ghost predicate StandsAt(h: Hash, st: System, f: FlowId, at: SM.Stream)
    requires IsUploader(st, f)
  {
    && UploadPhase(h, st.clients[f], AgentOf(st, f), Context(st, f), Subs(st.proxy, f))
    && (f in st.proxy.clients ==> SubsOnce(st.proxy, f))
    && StreamsAt(h, st, f, at) && BlocksHeld(h, st, f)
  }

  lemma UploaderHandled(h: Hash, st: System, st1: System, f: FlowId, r: ProxyResult)
    requires IsUploader(st, f) && UploaderOk(h, st, f) && Taken(st, st1, f) && ProxyMoves(st.proxy, r.proxy, f)
    requires forall s :: s in st.servers ==> |Mail(r.toServers, s)| <= 1
    requires forall s :: s in st.servers && Mail(r.toServers, s) != [] ==> !Mail(r.toServers, s)[0].DownloadBlock?
    requires exists at :: StandsAt(h, AfterProxy(st1, r), f, at)
    ensures UploaderOk(h, AfterProxy(st1, r), f)
  {
    var st' := AfterProxy(st1, r);
    var at :| StandsAt(h, st', f, at);
    HandledClient(st, st1, f, r);
    forall s | s in st'.servers ensures Pipe(st'.servers[s], f) == [] {
      HandledServer(st, st1, f, r, s);
      if Mail(r.toServers, s) != [] {
        SendToPipe(st.servers[s], Mail(r.toServers, s)[0], f);
        SM.AskedOne(st.servers[s].server.files, Mail(r.toServers, s)[0], f);
      }
    }
    assert UploaderAt(h, st', f, at);
  }

  /** A handler that sends nothing to servers leaves the streams where they are. */
  lemma StreamsStay(h: Hash, st: System, st1: System, f: FlowId, r: ProxyResult, at: SM.Stream)
    requires IsUploader(st, f) && StreamsAt(h, st, f, at) && Taken(st, st1, f) && ProxyMoves(st.proxy, r.proxy, f)
    requires r.toServers == map[]
    requires f in st.proxy.clients && f in r.proxy.clients && r.proxy.clients[f].relay == st.proxy.clients[f].relay
    requires SM.ReadAll(h, 0, at, st1.clients[f].outq) == AM.Sent(h, AgentOf(st, f))
    ensures StreamsAt(h, AfterProxy(st1, r), f, at)
  {
    var st' := AfterProxy(st1, r);
    HandledClient(st, st1, f, r);
    forall s | s in st.servers ensures st'.servers[s] == st.servers[s] {
      HandledServer(st, st1, f, r, s);
    }
  }

  // ----- upload_request -----

  /** What is not to be uploaded is stored already. */
  lemma RequestHeld(h: Hash, st: System, f: FlowId)
    requires ServersOk(h, st) && IsUploader(st, f) && f in st.proxy.clients && st.clients[f].outq != [] && st.clients[f].inq == []
    requires AgentOf(st, f).phase == AM.WaitingUploadResponse
    ensures BlocksHeld(h, AfterProxy(PopFromClient(st, f), OnUploadRequest(st.proxy, f, AM.List(AgentOf(st, f)))), f)
  {
    var ms := AM.List(AgentOf(st, f));
    var r := OnUploadRequest(st.proxy, f, ms);
    var st' := AfterProxy(PopFromClient(st, f), r);
    NeedUploadCovers(st.proxy, ms);
    PopTakes(st, f);
    SetClientMoves(st.proxy, r.proxy, f, r.proxy.clients[f]);
    HandledGrown(st, PopFromClient(st, f), f, r);
    forall m | m in ms ensures m in NeedUpload(st.proxy, ms) || Held(st', m) {
      if m !in NeedUpload(st.proxy, ms) {
        IndexedHeld(h, st, m);
        HeldGrows(st, st', m);
      }
    }
  }

  lemma RequestClient(h: Hash, st: System, f: FlowId)
    requires ServersOk(h, st) && IsUploader(st, f) && UploaderOk(h, st, f) && f in st.proxy.clients
    requires st.proxy.clients[f].phase == Init && st.clients[f].outq == [UploadRequest(AM.List(AgentOf(st, f)))]
    requires AgentOf(st, f).phase == AM.WaitingUploadResponse
    ensures UploaderOk(h, AfterProxy(PopFromClient(st, f), OnUploadRequest(st.proxy, f, AM.List(AgentOf(st, f)))), f)
  {
    var e, a := st.clients[f], AgentOf(st, f);
    var st1 := PopFromClient(st, f);
    var r := OnUploadRequest(st.proxy, f, AM.List(a));
    var st' := AfterProxy(st1, r);
    SetClientMoves(st.proxy, r.proxy, f, r.proxy.clients[f]);
    HandledClient(st, st1, f, r);
    SameSubs(st.proxy, r.proxy, f);
    NeedUploadCovers(st.proxy, AM.List(a));
    assert st'.clients[f].inq == [UploadResponse(NeedUpload(st.proxy, AM.List(a)))] && st'.clients[f].outq == [];
    RequestHeld(h, st, f);
    var at :| StreamsAt(h, st, f, at);
    assert e.outq[1..] == [];
    StreamsStay(h, st, st1, f, r, at);
    assert StandsAt(h, st', f, at);
    UploaderHandled(h, st, st1, f, r);
  }

  lemma UploadRequestKeeps(h: Hash, st: System, f: FlowId)
    requires Inv(h, st) && IsUploader(st, f) && f in st.proxy.clients
    requires st.proxy.clients[f].phase == Init && st.clients[f].outq != []
    ensures st.clients[f].outq[0].UploadRequest?
    ensures Inv(h, AfterProxy(PopFromClient(st, f), OnUploadRequest(st.proxy, f, st.clients[f].outq[0].md5s)))
  {
    var st1 := PopFromClient(st, f);
    var r := OnUploadRequest(st.proxy, f, AM.List(AgentOf(st, f)));
    UploaderSends(h, st.clients[f], AgentOf(st, f), st.proxy.clients[f], Subs(st.proxy, f));
    PopTakes(st, f);
    SetClientMoves(st.proxy, r.proxy, f, r.proxy.clients[f]);
    assert UploaderOk(h, AfterProxy(st1, r), f) by {
      RequestClient(h, st, f);
    }
    assert IdsOk(h, AfterProxy(st1, r)) by {
      HandledGrown(st, st1, f, r);
      IdsOkGrows(h, st, AfterProxy(st1, r));
    }
    QuietAddressed(h, st, f, r);
    HandledKeeps(h, st, st1, f, r);
  }

  // ----- upload_all_blocks -----

  lemma AllHeld(h: Hash, st: System, f: FlowId)
    requires IsUploader(st, f) && UploaderOk(h, st, f) && (AgentOf(st, f).phase == AM.WaitingFinalResult || AgentOf(st, f).phase == AM.Succ)
    ensures forall m :: m in AM.List(AgentOf(st, f)) ==> Held(st, m)
  {
    var a := AgentOf(st, f);
    forall m | m in AM.List(a) ensures Held(st, m) {
      if m in a.upload {
        var j :| 0 <= j < |a.upload| && a.upload[j] == m;
        assert Held(st, a.upload[j]);
      }
    }
  }

  /** The proxy checks nothing before it registers a file, but every block of it is stored. */
  lemma UploadAllRegisters(h: Hash, st: System, f: FlowId)
    requires IdsOk(h, st) && IsUploader(st, f) && UploaderOk(h, st, f) && f in st.proxy.clients
    requires st.proxy.clients[f].phase == WaitingUploadBlock && st.clients[f].outq != [] && st.clients[f].outq[0].UploadAllBlocks?
    ensures IdsOk(h, AfterProxy(PopFromClient(st, f), OnUploadAllBlocks(h, st.proxy, f)))
  {
    var st1 := PopFromClient(st, f);
    var r := OnUploadAllBlocks(h, st.proxy, f);
    var st' := AfterProxy(st1, r);
    UploaderSends(h, st.clients[f], AgentOf(st, f), st.proxy.clients[f], Subs(st.proxy, f));
    AllHeld(h, st, f);
    SetClientMoves(st.proxy, r.proxy, f, r.proxy.clients[f]);
    HandledGrown(st, st1, f, r);
    forall m | Held(st, m) ensures Held(st', m) {
      HeldGrows(st, st', m);
    }
  }

  lemma UploadAllFrame(h: Hash, st: System, f: FlowId)
    requires IsUploader(st, f) && UploaderOk(h, st, f) && f in st.proxy.clients
    requires st.proxy.clients[f].phase == WaitingUploadBlock && st.clients[f].outq != [] && st.clients[f].outq[0].UploadAllBlocks?
    ensures
      var r := OnUploadAllBlocks(h, st.proxy, f);
      var st' := AfterProxy(PopFromClient(st, f), r);
      && UploadPhase(h, st'.clients[f], AgentOf(st, f), Context(st', f), Subs(st'.proxy, f)) && SubsOnce(r.proxy, f)
      && (exists at :: StreamsAt(h, st', f, at)) && BlocksHeld(h, st', f)
  {
    var a := AgentOf(st, f);
    UploaderSends(h, st.clients[f], a, st.proxy.clients[f], Subs(st.proxy, f));
    var st1 := PopFromClient(st, f);
    var r := OnUploadAllBlocks(h, st.proxy, f);
    var st' := AfterProxy(st1, r);
    SetClientMoves(st.proxy, r.proxy, f, r.proxy.clients[f]);
    HandledClient(st, st1, f, r);
    SameSubs(st.proxy, r.proxy, f);
    assert st'.clients[f].inq == [FileStoreSucc(FileId(h, AM.List(a)))] && st'.clients[f].outq == [];
    var at :| UploaderAt(h, st, f, at);
    ReadAllOne(h, at, UploadAllBlocks);
    StreamsStay(h, st, st1, f, r, at);
    HandledGrown(st, st1, f, r);
    forall m | Held(st, m) ensures Held(st', m) {
      HeldGrows(st, st', m);
    }
  }

  lemma UploadAllClient(h: Hash, st: System, f: FlowId)
    requires IsUploader(st, f) && UploaderOk(h, st, f) && f in st.proxy.clients
    requires st.proxy.clients[f].phase == WaitingUploadBlock && st.clients[f].outq != [] && st.clients[f].outq[0].UploadAllBlocks?
    ensures UploaderOk(h, AfterProxy(PopFromClient(st, f), OnUploadAllBlocks(h, st.proxy, f)), f)
  {
    var r := OnUploadAllBlocks(h, st.proxy, f);
    SetClientMoves(st.proxy, r.proxy, f, r.proxy.clients[f]);
    UploadAllFrame(h, st, f);
    var at :| StreamsAt(h, AfterProxy(PopFromClient(st, f), r), f, at);
    assert StandsAt(h, AfterProxy(PopFromClient(st, f), r), f, at);
    UploaderHandled(h, st, PopFromClient(st, f), f, r);
  }

  lemma UploadAllKeeps(h: Hash, st: System, f: FlowId)
    requires Inv(h, st) && IsUploader(st, f) && f in st.proxy.clients
    requires st.proxy.clients[f].phase == WaitingUploadBlock && st.clients[f].outq != [] && st.clients[f].outq[0].UploadAllBlocks?
    ensures Inv(h, AfterProxy(PopFromClient(st, f), OnUploadAllBlocks(h, st.proxy, f)))
  {
    var r := OnUploadAllBlocks(h, st.proxy, f);
    SetClientMoves(st.proxy, r.proxy, f, r.proxy.clients[f]);
    assert ClientOk(h, st, f);
    UploadAllRegisters(h, st, f);
    UploadAllClient(h, st, f);
    QuietAddressed(h, st, f, r);
    HandledKeeps(h, st, PopFromClient(st, f), f, r);
  }

  lemma ReadAllOne(h: Hash, at: SM.Stream, msg: Message)
    requires msg.UploadAllBlocks? && SM.ReadAll(h, 0, at, [msg]) == SM.Between
    ensures at == SM.Between
  {
    assert [msg][1..] == [];
  }

  // ----- upload_block -----

  /** A piece relayed with the flow's id is read by the server as it left the client. */
  lemma StampedReads(h: Hash, at: SM.Stream, msg: Message, f: FlowId)
    requires msg.UploadBlock? && msg.flow == 0
    ensures SM.Read(h, f, at, Stamped(msg, f)) == SM.Read(h, 0, at, msg)
  {
  }

  lemma StreamNext(h: Hash, at: SM.Stream, msgs: seq<Message>, a: AM.Agent)
    requires msgs != [] && (a.phase == AM.UploadingBlocks ==> AM.Sending(h, a)) && SM.ReadAll(h, 0, at, msgs) == AM.Sent(h, a)
    ensures SM.Read(h, 0, at, msgs[0]) != SM.Broken
    ensures SM.ReadAll(h, 0, SM.Read(h, 0, at, msgs[0]), msgs[1..]) == AM.Sent(h, a)
  {
    SM.ReadAllBroken(h, 0, msgs[1..]);
  }

  lemma SubscribeOthers(p: Proxy, p': Proxy, s: ServerId, m: Md5, f: FlowId, g: FlowId)
    requires s in p.storages && g != f
    requires p'.storages == p.storages[s := p.storages[s].(subs := Subscribe(p.storages[s].subs, m, f))]
    ensures Subs(p', g) == Subs(p, g) && (SubsOnce(p, g) ==> SubsOnce(p', g))
  {
    assert forall x :: x in Subs(p', g) <==> x in Subs(p, g);
    if SubsOnce(p, g) {
      var flows := if m in p.storages[s].subs then p.storages[s].subs[m] else [];
      assert VotesOnce(VotesOn(m, flows + [f]), g) by {
        assert m in p.storages[s].subs ==> VotesOnce(VotesOn(m, flows), g);
        forall i, j | 0 <= i < j < |flows| + 1 && (flows + [f])[i] == g ensures (flows + [f])[j] != g {
          if j < |flows| {
            assert VotesOn(m, flows)[i].flow == g && VotesOn(m, flows)[j].flow == flows[j];
          }
        }
      }
    }
  }

  lemma SubscribeSelf(p: Proxy, p': Proxy, s: ServerId, m: Md5, f: FlowId)
    requires s in p.storages && Subs(p, f) == {}
    requires p'.storages == p.storages[s := p.storages[s].(subs := Subscribe(p.storages[s].subs, m, f))]
    ensures Subs(p', f) == {(s, m)} && SubsOnce(p', f)
  {
    forall s', m' | s' in p.storages && m' in p.storages[s'].subs ensures f !in p.storages[s'].subs[m'] {
      assert (s', m') !in Subs(p, f);
    }
    assert forall x :: x in Subs(p', f) <==> x == (s, m);
  }

  lemma FirstPieceMoves(p: Proxy, f: FlowId, msg: Message, pick: ServerId)
    requires f in p.clients && msg.UploadBlock? && msg.index == 0 && pick in p.storages
    ensures ProxyMoves(p, OnUploadBlock(p, f, msg, pick).proxy, f)
  {
    var r := OnUploadBlock(p, f, msg, pick);
    forall g: FlowId ensures g != f ==> SameProxy(p, r.proxy, g) {
      if g != f {
        SubscribeOthers(p, r.proxy, pick, msg.md5, f, g);
      }
    }
  }

  /** The token of the block is in the first piece, so the flow has no callback and no reply. */
  lemma FirstPieceToken(h: Hash, e: ClientEnd, a: AM.Agent, c: Client, subs: set<(ServerId, Md5)>)
    requires UploadPhase(h, e, a, Some(c), subs) && c.phase == WaitingUploadBlock && e.outq != []
    requires e.outq[0].UploadBlock? && e.outq[0].index == 0
    ensures a.phase == AM.UploadingBlocks || a.phase == AM.WaitingBlockAck
    ensures Token(e, a.upload[a.current], c, subs) && Firsts(e.outq[1..]) == 0 && subs == {} && e.inq == []
    ensures e.outq[0].md5 == a.upload[a.current]
  {
    assert e.outq[0] in e.outq;
  }

  lemma FirstPieceClient(h: Hash, e: ClientEnd, a: AM.Agent, c: Client, subs: set<(ServerId, Md5)>, pick: ServerId)
    requires UploadPhase(h, e, a, Some(c), {}) && c.phase == WaitingUploadBlock && e.outq != []
    requires e.outq[0].UploadBlock? && e.outq[0].index == 0
    ensures UploadPhase(h, e.(outq := e.outq[1..]), a, Some(c.(succ := 0, fail := 0, relay := [pick])), {(pick, e.outq[0].md5)})
  {
    FirstPieceToken(h, e, a, c, {});
    InTail(e.outq);
  }

  /** What follows when the proxy takes the piece `msg` from flow `f`. */
  lemma PieceTaken(h: Hash, st: System, f: FlowId, at: SM.Stream)
    requires IsUploader(st, f) && f in st.proxy.clients && st.clients[f].outq != [] && StreamsAt(h, st, f, at)
    requires st.clients[f].outq[0].UploadBlock? && st.clients[f].outq[0].flow == 0
    ensures
      var msg := st.clients[f].outq[0];
      && SM.Read(h, f, at, Stamped(msg, f)) == SM.Read(h, 0, at, msg) != SM.Broken
      && (msg.index == 0 ==> at == SM.Between)
      && SM.ReadAll(h, 0, SM.Read(h, 0, at, msg), st.clients[f].outq[1..]) == AM.Sent(h, AgentOf(st, f))
  {
    StreamNext(h, at, st.clients[f].outq, AgentOf(st, f));
    StampedReads(h, at, st.clients[f].outq[0], f);
  }

  /** The piece at the head of the flow's channel is sent to the server of its current block, if that
      is still connected, and to no other. */
  ghost predicate PieceSent(st: System, f: FlowId, r: ProxyResult)
    requires f in st.clients && st.clients[f].outq != [] && st.clients[f].outq[0].UploadBlock?
    requires f in st.proxy.clients && f in r.proxy.clients
  {
    var msg, c := st.clients[f].outq[0], r.proxy.clients[f];
    && ProxyMoves(st.proxy, r.proxy, f) && r.toClients == map[] && r.proxy.ids == st.proxy.ids
    && |c.relay| <= 1 && (forall s :: s in c.relay ==> s in st.servers)
    && (msg.index != 0 ==> c.relay == st.proxy.clients[f].relay)
    && forall s :: s in st.servers ==>
         Mail(r.toServers, s) == if c.relay == [s] && s in st.proxy.storages then [Stamped(msg, f)] else []
  }

  lemma PieceStream(h: Hash, st: System, f: FlowId, r: ProxyResult, at: SM.Stream, s: ServerId)
    requires ServersOk(h, st) && IsUploader(st, f) && f in st.proxy.clients && f in r.proxy.clients
    requires st.clients[f].outq != [] && StreamsAt(h, st, f, at) && s in st.servers
    requires st.clients[f].outq[0].UploadBlock? && st.clients[f].outq[0].flow == 0
    requires PieceSent(st, f, r)
    ensures
      var msg, c := st.clients[f].outq[0], r.proxy.clients[f];
      && MailOk(h, st.servers[s], Mail(r.toServers, s), f)
      && (s in st.proxy.storages ==>
            StreamThrough(h, AfterProxy(PopFromClient(st, f), r).servers[s], f)
              == if c.relay == [s] then SM.Read(h, 0, at, msg) else SM.Between)
  {
    var msg, c := st.clients[f].outq[0], r.proxy.clients[f];
    PieceTaken(h, st, f, at);
    HandledServer(st, PopFromClient(st, f), f, r, s);
    if c.relay == [s] && s in st.proxy.storages {
      assert StreamThrough(h, st.servers[s], f) == at;
      SendToStream(h, st.servers[s], Stamped(msg, f), f);
    }
  }

  /** A piece goes to the servers of the flow's current block, which are then where the flow is. */
  lemma PieceStreams(h: Hash, st: System, f: FlowId, r: ProxyResult, at: SM.Stream)
    requires ServersOk(h, st) && IsUploader(st, f) && f in st.proxy.clients && f in r.proxy.clients
    requires st.clients[f].outq != [] && StreamsAt(h, st, f, at)
    requires st.clients[f].outq[0].UploadBlock? && st.clients[f].outq[0].flow == 0
    requires PieceSent(st, f, r)
    ensures StreamsAt(h, AfterProxy(PopFromClient(st, f), r), f, SM.Read(h, 0, at, st.clients[f].outq[0]))
    ensures Addressed(h, st, f, r)
  {
    var msg, c := st.clients[f].outq[0], r.proxy.clients[f];
    PieceTaken(h, st, f, at);
    HandledClient(st, PopFromClient(st, f), f, r);
    forall s | s in st.servers
      ensures s in st.proxy.storages ==>
                StreamThrough(h, AfterProxy(PopFromClient(st, f), r).servers[s], f)
                  == if c.relay == [s] then SM.Read(h, 0, at, msg) else SM.Between
      ensures MailOk(h, st.servers[s], Mail(r.toServers, s), f)
    {
      PieceStream(h, st, f, r, at, s);
    }
  }

  lemma PieceFrame(h: Hash, st: System, f: FlowId, r: ProxyResult)
    requires ServersOk(h, st) && IsUploader(st, f) && UploaderOk(h, st, f)
    requires f in st.proxy.clients && f in r.proxy.clients && st.clients[f].outq != []
    requires st.clients[f].outq[0].UploadBlock? && st.proxy.clients[f].phase == WaitingUploadBlock
    requires PieceSent(st, f, r)
    ensures Addressed(h, st, f, r)
    ensures
      var st' := AfterProxy(PopFromClient(st, f), r);
      && st'.clients[f] == st.clients[f].(outq := st.clients[f].outq[1..])
      && (exists at :: StreamsAt(h, st', f, at)) && BlocksHeld(h, st', f)
  {
    var e := st.clients[f];
    var st1 := PopFromClient(st, f);
    UploaderSends(h, e, AgentOf(st, f), st.proxy.clients[f], Subs(st.proxy, f));
    var at :| StreamsAt(h, st, f, at);
    PieceStreams(h, st, f, r, at);
    HandledClient(st, st1, f, r);
    BlocksHeldSame(h, st, st1, f, r);
  }

  lemma PieceStands(h: Hash, st: System, f: FlowId, r: ProxyResult)
    requires ServersOk(h, st) && IsUploader(st, f) && UploaderOk(h, st, f)
    requires f in st.proxy.clients && f in r.proxy.clients && st.clients[f].outq != []
    requires st.clients[f].outq[0].UploadBlock? && st.proxy.clients[f].phase == WaitingUploadBlock
    requires PieceSent(st, f, r)
    requires UploadPhase(h, st.clients[f].(outq := st.clients[f].outq[1..]), AgentOf(st, f), Some(r.proxy.clients[f]), Subs(r.proxy, f))
    requires SubsOnce(r.proxy, f)
    ensures exists at :: StandsAt(h, AfterProxy(PopFromClient(st, f), r), f, at)
  {
    PieceFrame(h, st, f, r);
    var at :| StreamsAt(h, AfterProxy(PopFromClient(st, f), r), f, at);
    assert StandsAt(h, AfterProxy(PopFromClient(st, f), r), f, at);
  }

  lemma PieceClient(h: Hash, st: System, f: FlowId, r: ProxyResult)
    requires IsUploader(st, f) && UploaderOk(h, st, f)
    requires f in st.proxy.clients && f in r.proxy.clients && st.clients[f].outq != [] && st.clients[f].outq[0].UploadBlock?
    requires PieceSent(st, f, r)
    requires exists at :: StandsAt(h, AfterProxy(PopFromClient(st, f), r), f, at)
    ensures UploaderOk(h, AfterProxy(PopFromClient(st, f), r), f)
  {
    PopTakes(st, f);
    forall s | s in st.servers
      ensures |Mail(r.toServers, s)| <= 1 && (Mail(r.toServers, s) != [] ==> !Mail(r.toServers, s)[0].DownloadBlock?)
    {
      assert Mail(r.toServers, s) == [] || Mail(r.toServers, s) == [Stamped(st.clients[f].outq[0], f)];
    }
    UploaderHandled(h, st, PopFromClient(st, f), f, r);
  }

  lemma PieceKeeps(h: Hash, st: System, f: FlowId, r: ProxyResult)
    requires Inv(h, st) && IsUploader(st, f)
    requires f in st.proxy.clients && f in r.proxy.clients && st.clients[f].outq != []
    requires st.clients[f].outq[0].UploadBlock? && st.proxy.clients[f].phase == WaitingUploadBlock
    requires PieceSent(st, f, r)
    requires UploadPhase(h, st.clients[f].(outq := st.clients[f].outq[1..]), AgentOf(st, f), Some(r.proxy.clients[f]), Subs(r.proxy, f))
    requires SubsOnce(r.proxy, f)
    ensures Inv(h, AfterProxy(PopFromClient(st, f), r))
  {
    var st1 := PopFromClient(st, f);
    assert UploaderOk(h, AfterProxy(st1, r), f) by {
      PieceStands(h, st, f, r);
      PieceClient(h, st, f, r);
    }
    assert Addressed(h, st, f, r) by {
      PieceFrame(h, st, f, r);
    }
    assert IdsOk(h, AfterProxy(st1, r)) by {
      PopTakes(st, f);
      HandledGrown(st, st1, f, r);
      IdsOkGrows(h, st, AfterProxy(st1, r));
    }
    HandledKeeps(h, st, st1, f, r);
  }

  lemma FirstPieceSent(h: Hash, st: System, f: FlowId, pick: ServerId)
    requires ServersOk(h, st) && f in st.clients && f in st.proxy.clients && pick in st.proxy.storages
    requires st.clients[f].outq != [] && st.clients[f].outq[0].UploadBlock? && st.clients[f].outq[0].index == 0
    ensures PieceSent(st, f, OnUploadBlock(st.proxy, f, st.clients[f].outq[0], pick))
  {
    FirstPieceMoves(st.proxy, f, st.clients[f].outq[0], pick);
  }

  lemma FirstPieceKeeps(h: Hash, st: System, f: FlowId, pick: ServerId)
    requires Inv(h, st) && IsUploader(st, f) && f in st.proxy.clients && pick in st.proxy.storages
    requires st.proxy.clients[f].phase == WaitingUploadBlock && st.clients[f].outq != []
    requires st.clients[f].outq[0].UploadBlock? && st.clients[f].outq[0].index == 0
    ensures Inv(h, AfterProxy(PopFromClient(st, f), OnUploadBlock(st.proxy, f, st.clients[f].outq[0], pick)))
  {
    var e, a, c := st.clients[f], AgentOf(st, f), st.proxy.clients[f];
    var msg := e.outq[0];
    var r := OnUploadBlock(st.proxy, f, msg, pick);
    FirstPieceSent(h, st, f, pick);
    assert UploadPhase(h, e.(outq := e.outq[1..]), a, Some(r.proxy.clients[f]), Subs(r.proxy, f)) && SubsOnce(r.proxy, f) by {
      assert UploadPhase(h, e, a, Some(c), Subs(st.proxy, f));
      FirstPieceToken(h, e, a, c, Subs(st.proxy, f));
      FirstPieceClient(h, e, a, c, Subs(st.proxy, f), pick);
      SubscribeSelf(st.proxy, r.proxy, pick, msg.md5, f);
    }
    PieceKeeps(h, st, f, r);
  }

  lemma BlocksHeldSame(h: Hash, st: System, st1: System, f: FlowId, r: ProxyResult)
    requires IsUploader(st, f) && BlocksHeld(h, st, f) && Taken(st, st1, f) && ProxyMoves(st.proxy, r.proxy, f)
    requires Mail(r.toClients, f) == []
    ensures BlocksHeld(h, AfterProxy(st1, r), f)
  {
    var st' := AfterProxy(st1, r);
    HandledGrown(st, st1, f, r);
    HandledClient(st, st1, f, r);
    assert st'.clients[f].inq == st.clients[f].inq;
    forall m | Held(st, m) ensures Held(st', m) {
      HeldGrows(st, st', m);
    }
  }

  lemma RelayMoves(p: Proxy, f: FlowId, msg: Message, pick: ServerId)
    requires f in p.clients && msg.UploadBlock? && msg.index != 0
    ensures ProxyMoves(p, OnUploadBlock(p, f, msg, pick).proxy, f)
  {
  }

  lemma RelayClient(h: Hash, e: ClientEnd, a: AM.Agent, c: Client, subs: set<(ServerId, Md5)>)
    requires UploadPhase(h, e, a, Some(c), subs) && c.phase == WaitingUploadBlock && e.outq != []
    requires e.outq[0].UploadBlock? && e.outq[0].index != 0
    ensures UploadPhase(h, e.(outq := e.outq[1..]), a, Some(c), subs)
  {
    InTail(e.outq);
    if a.phase == AM.WaitingFinalResult {
      var rest := e.outq[1..];
      assert rest[..|rest| - 1] == e.outq[..|e.outq| - 1][1..];
      InTail(e.outq[..|e.outq| - 1]);
    }
  }

  lemma RelaySent(st: System, f: FlowId, pick: ServerId)
    requires f in st.clients && f in st.proxy.clients
    requires |st.proxy.clients[f].relay| <= 1 && forall s :: s in st.proxy.clients[f].relay ==> s in st.servers
    requires st.clients[f].outq != [] && st.clients[f].outq[0].UploadBlock? && st.clients[f].outq[0].index != 0
    ensures PieceSent(st, f, OnUploadBlock(st.proxy, f, st.clients[f].outq[0], pick))
  {
    var c := st.proxy.clients[f];
    RelayMoves(st.proxy, f, st.clients[f].outq[0], pick);
    assert c.relay == [] || c.relay == [c.relay[0]];
  }

  lemma RelayKeeps(h: Hash, st: System, f: FlowId, pick: ServerId)
    requires Inv(h, st) && IsUploader(st, f) && f in st.proxy.clients
    requires st.proxy.clients[f].phase == WaitingUploadBlock && st.clients[f].outq != []
    requires st.clients[f].outq[0].UploadBlock? && st.clients[f].outq[0].index != 0
    ensures Inv(h, AfterProxy(PopFromClient(st, f), OnUploadBlock(st.proxy, f, st.clients[f].outq[0], pick)))
  {
    var e, c := st.clients[f], st.proxy.clients[f];
    var r := OnUploadBlock(st.proxy, f, e.outq[0], pick);
    assert UploaderOk(h, st, f);
    assert |c.relay| <= 1 && forall s :: s in c.relay ==> s in st.servers by {
      var at :| StreamsAt(h, st, f, at);
    }
    RelaySent(st, f, pick);
    assert UploadPhase(h, e.(outq := e.outq[1..]), AgentOf(st, f), Some(c), Subs(st.proxy, f)) by {
      assert UploadPhase(h, e, AgentOf(st, f), Some(c), Subs(st.proxy, f));
      RelayClient(h, e, AgentOf(st, f), c, Subs(st.proxy, f));
    }
    PieceKeeps(h, st, f, r);
  }
}
