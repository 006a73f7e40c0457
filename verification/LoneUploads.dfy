/** Uploads that do not meet. As long as no two flows wait for the same block at the same server, and no server is
    dropped, no agent ever gets a reply while it is still sending its block, and every upload that is left alone ends
    well. */
module LoneUploads {
  import opened Types
  import opened FileBlocks
  import SM = ServerModel
  import AM = AgentModel
  import opened ProxyModel
  import opened SystemModel
  import opened ServerLinks
  import opened Invariant
  import opened Frames
  import opened ClientSteps
  import opened ConnectSteps
  import opened ProxySteps
  import opened UploadHandlers
  import opened DownloadHandlers
  import opened CloseHandlers
  import opened ServerHandlers
  import opened VoteHandlers
  import opened Runs
  import opened Due
  import opened EndToEnd
  import opened Progress
  import opened OverlookedReplies
  import opened DroppedServers
  import opened DownloadsEnd
  import opened StayingConnected

  // ----- Answers -----

  /** A message that will fire, or make the server fire, the callbacks for `m`. */
  predicate Answers(msg: Message, m: Md5) {
    msg == UploadBlockAck(m) || (msg.UploadBlock? && msg.eof && msg.md5 == m)
  }

  function Answering(msgs: seq<Message>, m: Md5): nat {
    if msgs == [] then 0 else (if Answers(msgs[0], m) then 1 else 0) + Answering(msgs[1..], m)
  }

  function AnswersDue(e: ServerEnd, m: Md5): nat {
    Answering(e.inq, m) + Answering(e.outq, m)
  }

  lemma {:induction false} AnsweringAppend(a: seq<Message>, b: seq<Message>, m: Md5)
    ensures Answering(a + b, m) == Answering(a, m) + Answering(b, m)
  {
    if a == [] {
      assert a + b == b;
    } else {
      AnsweringAppend(a[1..], b, m);
      assert (a + b)[1..] == a[1..] + b;
    }
  }

  lemma AnsweringOne(msg: Message, m: Md5)
    ensures Answering([msg], m) == if Answers(msg, m) then 1 else 0
  {
    assert [msg][1..] == [];
  }

  lemma {:induction false} AnsweringNone(msgs: seq<Message>, m: Md5)
    requires forall msg :: msg in msgs ==> !Answers(msg, m)
    ensures Answering(msgs, m) == 0
  {
    if msgs != [] {
      InTail(msgs);
      AnsweringNone(msgs[1..], m);
    }
  }

  function Callbacks(p: Proxy, s: ServerId, m: Md5): seq<FlowId> {
    if s in p.storages && m in p.storages[s].subs then p.storages[s].subs[m] else []
  }

  /** No two flows wait for the same block at the same server. */
  ghost predicate Alone(st: System) {
    forall s, m :: |Callbacks(st.proxy, s, m)| <= 1
  }

  // ----- The invariant of uploads that do not meet -----

  predicate EndsBlock(msg: Message) {
    msg.UploadBlock? && msg.eof
  }

  /** The client has yet to send, or the proxy to get, the last piece of a block. */
  predicate StillSends(e: ClientEnd) {
    e.party.Uploader? && (e.party.agent.phase == AM.UploadingBlocks || exists msg :: msg in e.outq && EndsBlock(msg))
  }

  predicate StartsWithFirst(msgs: seq<Message>) {
    msgs != [] && msgs[0].UploadBlock? && msgs[0].index == 0
  }

  /** Whoever still sends a block has its first piece or its callback before it, so it has had no reply. */
  ghost predicate AwaitsReply(e: ClientEnd, subs: set<(ServerId, Md5)>) {
    StillSends(e) ==>
      var a := e.party.agent;
      && (a.phase == AM.UploadingBlocks || a.phase == AM.WaitingBlockAck) && a.current < |a.upload|
      && (forall msg :: msg in e.outq && EndsBlock(msg) ==> msg.md5 == a.upload[a.current])
      && (subs != {} || StartsWithFirst(e.outq))
  }

  predicate Live(st: System, f: FlowId) {
    IsUploader(st, f) && f in st.proxy.clients
  }

  /** Answers are due only to callbacks, and only when their block has been sent in full. */
  ghost predicate Matched(st: System, s: ServerId, m: Md5)
    requires s in st.servers
  {
    && AnswersDue(st.servers[s], m) <= |Callbacks(st.proxy, s, m)|
    && (AnswersDue(st.servers[s], m) > 0 ==>
          forall f :: f in Callbacks(st.proxy, s, m) && Live(st, f) ==> !StillSends(st.clients[f]))
  }

  ghost predicate Lone(st: System) {
    && (forall f :: Live(st, f) ==> AwaitsReply(st.clients[f], Subs(st.proxy, f)))
    && (forall s, m :: s in st.proxy.storages && s in st.servers ==> Matched(st, s, m))
  }

  lemma CallbackSubs(p: Proxy, f: FlowId, s: ServerId, m: Md5)
    ensures f in Callbacks(p, s, m) <==> (s, m) in Subs(p, f)
  {
  }

  lemma MatchedStays(st: System, st': System, s: ServerId, m: Md5)
    requires s in st.servers && s in st'.servers && Matched(st, s, m)
    requires AnswersDue(st'.servers[s], m) <= AnswersDue(st.servers[s], m)
    requires Callbacks(st'.proxy, s, m) == Callbacks(st.proxy, s, m)
    requires forall f :: f in Callbacks(st.proxy, s, m) && Live(st', f) && StillSends(st'.clients[f]) ==>
               Live(st, f) && StillSends(st.clients[f])
    ensures Matched(st', s, m)
  {
  }

  // ----- Steps of clients -----

  lemma ClientAloneLone(st: System, f: FlowId, e': ClientEnd)
    requires Lone(st) && f in st.clients && (e'.party.Uploader? <==> st.clients[f].party.Uploader?)
    requires Live(st, f) ==> AwaitsReply(e', Subs(st.proxy, f))
    requires Live(st, f) && Subs(st.proxy, f) != {} && StillSends(e') ==> StillSends(st.clients[f])
    ensures Lone(WithClient(st, f, e'))
  {
    var st' := WithClient(st, f, e');
    forall s, m | s in st'.proxy.storages && s in st'.servers ensures Matched(st', s, m) {
      forall g | g in Callbacks(st.proxy, s, m) ensures Subs(st.proxy, g) != {} {
        CallbackSubs(st.proxy, g, s, m);
      }
      MatchedStays(st, st', s, m);
    }
  }

  /** A stream that ends between blocks, without a last piece in it, has no piece in it. */
  lemma {:induction false} NoEndNothing(h: Hash, at: SM.Stream, msgs: seq<Message>)
    requires forall msg :: msg in msgs ==> msg.UploadBlock? && !msg.eof && msg.flow == 0
    requires SM.ReadAll(h, 0, at, msgs) == SM.Between
    ensures msgs == []
    decreases |msgs|
  {
    if msgs != [] {
      var next := SM.Read(h, 0, at, msgs[0]);
      assert msgs[0] in msgs;
      InTail(msgs);
      if next.Broken? {
        SM.ReadAllBroken(h, 0, msgs[1..]);
      } else {
        NoEndNothing(h, next, msgs[1..]);
      }
    }
  }

  /** Nothing is left in the channel of a client that gets a reply. */
  lemma RepliedOut(h: Hash, e: ClientEnd, a: AM.Agent, c: Client, subs: set<(ServerId, Md5)>, at: SM.Stream)
    requires e.party.Uploader? && e.party.agent == a && UploadPhase(h, e, a, Some(c), subs) && e.inq != []
    requires AwaitsReply(e, subs)
    requires (a.phase == AM.UploadingBlocks ==> AM.Sending(h, a)) && SM.ReadAll(h, 0, at, e.outq) == AM.Sent(h, a)
    ensures subs == {} && a.phase != AM.UploadingBlocks && e.outq == []
  {
    if a.phase == AM.UploadingBlocks || a.phase == AM.WaitingBlockAck {
      assert Firsts(e.outq) == 0 && |subs| == 0;
      assert !StillSends(e);
      NoEndNothing(h, at, e.outq);
    }
  }

  lemma ReceiveAwaits(h: Hash, e: ClientEnd, a: AM.Agent)
    requires AM.AgentOk(h, a) && e.inq != [] && AM.Expected(a, e.inq[0])
    requires e.party.Uploader? && e.party.agent == a && e.outq == [] && a.phase != AM.UploadingBlocks
    ensures AwaitsReply(ClientReceive(e), {})
  {
    var msg := e.inq[0];
    var r := AM.OnMessage(a, msg);
    if a.phase == AM.WaitingUploadResponse {
      AM.ResponseStarts(h, a, msg);
    } else if a.phase == AM.WaitingBlockAck && msg.UploadBlockAck? {
      AM.AckStarts(h, a, msg);
    }
    assert ClientReceive(e).outq == r.sends;
  }

  lemma UploaderReceivesLone(h: Hash, st: System, f: FlowId)
    requires IsUploader(st, f) && UploaderOk(h, st, f) && st.clients[f].inq != [] && Lone(st)
    ensures Live(st, f) ==> AgentOf(st, f).phase != AM.UploadingBlocks
    ensures Lone(WithClient(st, f, ClientReceive(st.clients[f])))
  {
    var e, a := st.clients[f], AgentOf(st, f);
    if f in st.proxy.clients {
      var at :| UploaderAt(h, st, f, at);
      RepliedOut(h, e, a, st.proxy.clients[f], Subs(st.proxy, f), at);
      assert AM.Expected(a, e.inq[0]);
      ReceiveAwaits(h, e, a);
    }
    ClientAloneLone(st, f, ClientReceive(e));
  }

  lemma UploaderWritesLone(h: Hash, st: System, f: FlowId)
    requires IsUploader(st, f) && UploaderOk(h, st, f) && Lone(st)
    ensures Lone(WithClient(st, f, ClientWritten(st.clients[f])))
  {
    var e, a := st.clients[f], AgentOf(st, f);
    var e' := ClientWritten(e);
    if a.phase == AM.UploadingBlocks {
      assert AM.AgentOk(h, a) by {
        var at :| UploaderAt(h, st, f, at);
      }
      AM.WriteCompleteContinues(h, a);
      AM.NextPiece(h, a);
      forall msg | msg in e'.outq && EndsBlock(msg) ensures msg in e.outq || msg.md5 == a.upload[a.current] {
      }
    } else {
      assert e'.outq == e.outq;
    }
    ClientAloneLone(st, f, e');
  }

  // ----- Joining -----

  lemma ConnectedSame(st: System, e: ClientEnd, g: FlowId)
    requires Live(Connect(st, e), g)
    ensures g != st.proxy.nextFlow ==> Live(st, g) && Connect(st, e).clients[g] == st.clients[g]
    ensures Subs(Connect(st, e).proxy, g) == Subs(st.proxy, g)
  {
    SameSubs(st.proxy, Connect(st, e).proxy, g);
  }

  lemma ConnectLone(h: Hash, st: System, e: ClientEnd)
    requires Inv(h, st) && Lone(st) && !StillSends(e)
    ensures Lone(Connect(st, e))
  {
    var st', f := Connect(st, e), st.proxy.nextFlow;
    assert f !in st.proxy.clients && f !in st.clients by {
      KnownFlow(h, st, f);
    }
    forall g | Live(st', g) ensures AwaitsReply(st'.clients[g], Subs(st'.proxy, g)) {
      ConnectedSame(st, e, g);
    }
    forall s, m | s in st'.proxy.storages && s in st'.servers ensures Matched(st', s, m) {
      ConnectedMatched(st, e, s, m);
    }
  }

  lemma ConnectedMatched(st: System, e: ClientEnd, s: ServerId, m: Md5)
    requires s in st.servers && Matched(st, s, m) && !StillSends(e)
    ensures Matched(Connect(st, e), s, m)
  {
    forall g | Live(Connect(st, e), g) && StillSends(Connect(st, e).clients[g]) ensures Live(st, g) && StillSends(st.clients[g]) {
      ConnectedSame(st, e, g);
    }
    MatchedStays(st, Connect(st, e), s, m);
  }

  lemma JoinLone(h: Hash, st: System, e: ServerEnd)
    requires ServersOk(h, st) && Lone(st) && e.inq == [] && forall msg, m :: msg in e.outq ==> !Answers(msg, m)
    ensures Lone(Join(st, e))
  {
    var st', s := Join(st, e), st.nextServer;
    assert s !in st.servers && s !in st.proxy.storages;
    forall f | Live(st', f) ensures AwaitsReply(st'.clients[f], Subs(st'.proxy, f)) {
      JoinSubs(st.proxy, s, f);
      assert Live(st, f);
    }
    forall t, m | t in st'.proxy.storages && t in st'.servers ensures Matched(st', t, m) {
      if t == s {
        AnsweringNone(e.outq, m);
      } else {
        MatchedStays(st, st', t, m);
      }
    }
  }

  // ----- Steps of servers -----

  lemma ServerAloneLone(st: System, s: ServerId, e': ServerEnd)
    requires Lone(st) && s in st.servers && forall m :: AnswersDue(e', m) <= AnswersDue(st.servers[s], m)
    ensures Lone(WithServer(st, s, e'))
  {
    var st' := WithServer(st, s, e');
    forall f | Live(st', f) ensures AwaitsReply(st'.clients[f], Subs(st'.proxy, f)) {
      assert Live(st, f);
    }
    forall t, m | t in st'.proxy.storages && t in st'.servers ensures Matched(st', t, m) {
      MatchedStays(st, st', t, m);
    }
  }

  /** A last piece turns into its acknowledgement; nothing else that a server sends is an answer. */
  lemma ReceiveAnswers(h: Hash, e: ServerEnd, m: Md5)
    requires ServerEndOk(h, e) && e.inq != []
    ensures AnswersDue(ServerReceive(h, e), m) <= AnswersDue(e, m)
  {
    var msg := e.inq[0];
    var r := SM.OnMessage(h, e.server, msg);
    ReceiveAcceptable(h, e);
    StreamHead(h, e, if msg.UploadBlock? then msg.flow else 0);
    AnsweringAppend(e.outq, r.sends, m);
    if msg.UploadBlock? {
      UploadSends(h, e.server, msg);
      AnsweringOne(UploadBlockAck(msg.md5), m);
    } else {
      OtherSends(h, e.server, msg, m);
      AnsweringNone(r.sends, m);
    }
  }

  lemma OtherSends(h: Hash, sv: SM.Server, msg: Message, m: Md5)
    requires SM.ServerOk(h, sv) && SM.Acceptable(sv, msg) && !msg.UploadBlock?
    ensures forall x :: x in SM.OnMessage(h, sv, msg).sends ==> !Answers(x, m)
  {
    if msg.DownloadBlock? {
      DownloadSends(h, sv, msg.md5, msg.flow, msg.flow);
    } else if msg.ClientClean? {
      assert SM.OnMessage(h, sv, msg) == SM.OnClientClean(sv, msg.flow);
      SM.CleanDownloadKeeps(h, sv, msg.flow);
    }
  }

  lemma WriteAnswers(h: Hash, e: ServerEnd, m: Md5)
    requires ServerEndOk(h, e)
    ensures AnswersDue(ServerWritten(e), m) <= AnswersDue(e, m)
  {
    var r := SM.OnWriteComplete(e.server);
    WriteCompleteSends(h, e.server);
    AnsweringAppend(e.outq, r.sends, m);
    AnsweringNone(r.sends, m);
  }

  // ----- Messages of clients -----

  lemma MailedAnswers(st: System, st1: System, f: FlowId, r: ProxyResult, s: ServerId, m: Md5)
    requires Taken(st, st1, f) && s in st.servers
    ensures AnswersDue(AfterProxy(st1, r).servers[s], m) == AnswersDue(st.servers[s], m) + Answering(Mail(r.toServers, s), m)
  {
    AnsweringAppend(st.servers[s].inq, Mail(r.toServers, s), m);
    assert AfterProxy(st1, r).servers[s] == Mailed(st.servers[s], Mail(r.toServers, s));
  }

  /** A handler run for flow `f`, but for the answers it may send. */
  lemma HandledLone(st: System, st1: System, f: FlowId, r: ProxyResult)
    requires Lone(st) && Taken(st, st1, f) && ProxyMoves(st.proxy, r.proxy, f)
    requires Live(AfterProxy(st1, r), f) ==> AwaitsReply(AfterProxy(st1, r).clients[f], Subs(r.proxy, f))
    requires forall s, m :: s in st.proxy.storages && s in st.servers ==> Matched(AfterProxy(st1, r), s, m)
    ensures Lone(AfterProxy(st1, r))
  {
    var st' := AfterProxy(st1, r);
    forall g | Live(st', g) ensures AwaitsReply(st'.clients[g], Subs(st'.proxy, g)) {
      if g != f {
        assert SameProxy(st.proxy, r.proxy, g);
        assert Live(st, g);
      }
    }
  }

  /** Flows other than `f` go on sending as before. */
  lemma HandledSends(st: System, st1: System, f: FlowId, r: ProxyResult, g: FlowId)
    requires Taken(st, st1, f) && ProxyMoves(st.proxy, r.proxy, f) && g != f
    ensures Live(AfterProxy(st1, r), g) <==> Live(st, g)
    ensures Live(st, g) ==> (StillSends(AfterProxy(st1, r).clients[g]) <==> StillSends(st.clients[g]))
  {
    assert SameProxy(st.proxy, r.proxy, g);
  }

  /** What the proxy does on a message other than a piece sends no answer. */
  lemma QuietMail(h: Hash, p: Proxy, f: FlowId, msg: Message, pick: ServerId)
    requires f in p.clients && !msg.UploadBlock?
    ensures
      var r := OnClientMessage(h, p, f, msg, pick);
      r.proxy.storages == p.storages && forall s: ServerId, x :: x in Mail(r.toServers, s) ==> x.DownloadBlock?
  {
  }

  lemma QuietLone(st: System, st1: System, f: FlowId, r: ProxyResult)
    requires Lone(st) && Taken(st, st1, f) && ProxyMoves(st.proxy, r.proxy, f) && r.proxy.storages == st.proxy.storages
    requires forall s: ServerId, x :: x in Mail(r.toServers, s) ==> x.DownloadBlock? || x.ClientClean?
    requires Live(AfterProxy(st1, r), f) ==> !StillSends(AfterProxy(st1, r).clients[f])
    ensures Lone(AfterProxy(st1, r))
  {
    var st' := AfterProxy(st1, r);
    forall s, m | s in st.proxy.storages && s in st.servers ensures Matched(st', s, m) {
      MailedAnswers(st, st1, f, r, s, m);
      forall x | x in Mail(r.toServers, s) ensures !Answers(x, m) {
        assert x.DownloadBlock? || x.ClientClean?;
      }
      AnsweringNone(Mail(r.toServers, s), m);
      forall g | Live(st', g) && StillSends(st'.clients[g]) ensures Live(st, g) && StillSends(st.clients[g]) {
        HandledSends(st, st1, f, r, g);
      }
      MatchedStays(st, st', s, m);
    }
    HandledLone(st, st1, f, r);
  }

  /** The last piece of a block is all that is left in the channel, and its agent has no more to send. */
  lemma EndTaken(h: Hash, e: ClientEnd, a: AM.Agent, at: SM.Stream)
    requires e.outq != [] && EndsBlock(e.outq[0]) && Firsts(e.outq[1..]) == 0
    requires forall msg :: msg in e.outq ==> msg.UploadBlock? && msg.flow == 0
    requires AM.AgentOk(h, a) && SM.ReadAll(h, 0, at, e.outq) == AM.Sent(h, a)
    ensures e.outq[1..] == [] && a.phase != AM.UploadingBlocks
  {
    assert e.outq[0] in e.outq;
    StreamNext(h, at, e.outq, a);
    if e.outq[1..] != [] {
      var next := e.outq[1];
      assert next in e.outq && next == e.outq[1..][0];
      NoFirsts(e.outq[1..]);
      StreamNext(h, SM.Between, e.outq[1..], a);
    }
  }

  lemma PieceEnds(h: Hash, st: System, f: FlowId)
    requires Live(st, f) && UploaderOk(h, st, f) && st.clients[f].outq != [] && EndsBlock(st.clients[f].outq[0])
    requires AgentOf(st, f).phase == AM.UploadingBlocks || AgentOf(st, f).phase == AM.WaitingBlockAck
    requires Firsts(st.clients[f].outq[1..]) == 0
    ensures st.clients[f].outq[1..] == [] && AgentOf(st, f).phase != AM.UploadingBlocks
  {
    var at :| UploaderAt(h, st, f, at);
    EndTaken(h, st.clients[f], AgentOf(st, f), at);
  }

  /** What is left of the client's sending once a piece is taken. */
  lemma TakenAwaits(e: ClientEnd, subs: set<(ServerId, Md5)>, subs': set<(ServerId, Md5)>)
    requires e.outq != [] && AwaitsReply(e, subs) && (subs' != {} || (subs' == subs && !StartsWithFirst(e.outq)))
    ensures StillSends(e.(outq := e.outq[1..])) ==> StillSends(e)
    ensures AwaitsReply(e.(outq := e.outq[1..]), subs')
  {
    InTail(e.outq);
  }

  /** A piece is relayed. An answer is due for it only if it ends its block, and then to its own callback. */
  lemma PieceMatched(st: System, f: FlowId, r: ProxyResult, s: ServerId, m: Md5)
    requires Lone(st) && Live(st, f) && st.clients[f].outq != [] && st.clients[f].outq[0].UploadBlock?
    requires f in r.proxy.clients && PieceSent(st, f, r) && s in st.proxy.storages && s in st.servers
    requires Callbacks(r.proxy, s, m) == Callbacks(st.proxy, s, m)
    requires r.proxy.clients[f].relay == [s] ==> !Answers(st.clients[f].outq[0], m)
    ensures Matched(AfterProxy(PopFromClient(st, f), r), s, m)
  {
    var st1, st', msg := PopFromClient(st, f), AfterProxy(PopFromClient(st, f), r), st.clients[f].outq[0];
    PopTakes(st, f);
    MailedAnswers(st, st1, f, r, s, m);
    AnsweringOne(Stamped(msg, f), m);
    forall g | Live(st', g) && StillSends(st'.clients[g]) ensures Live(st, g) && StillSends(st.clients[g]) {
      if g == f {
        InTail(st.clients[f].outq);
      } else {
        HandledSends(st, st1, f, r, g);
      }
    }
    MatchedStays(st, st', s, m);
  }

  /** The piece of the flow that waits alone for block `m` at `s`. */
  lemma OwnMatched(st: System, f: FlowId, r: ProxyResult, s: ServerId, m: Md5)
    requires Lone(st) && Live(st, f) && st.clients[f].outq != [] && st.clients[f].outq[0].UploadBlock?
    requires f in r.proxy.clients && PieceSent(st, f, r) && s in st.proxy.storages && s in st.servers
    requires Callbacks(r.proxy, s, m) == [f] && AnswersDue(st.servers[s], m) == 0
    requires EndsBlock(st.clients[f].outq[0]) ==> !StillSends(st.clients[f].(outq := st.clients[f].outq[1..]))
    ensures Matched(AfterProxy(PopFromClient(st, f), r), s, m)
  {
    var st1, st', msg := PopFromClient(st, f), AfterProxy(PopFromClient(st, f), r), st.clients[f].outq[0];
    PopTakes(st, f);
    MailedAnswers(st, st1, f, r, s, m);
    AnsweringOne(Stamped(msg, f), m);
    HandledClient(st, st1, f, r);
    assert st'.clients[f] == st.clients[f].(outq := st.clients[f].outq[1..]) by {
      assert st.clients[f].inq + [] == st.clients[f].inq;
    }
  }

  lemma PieceLone(st: System, f: FlowId, r: ProxyResult)
    requires Lone(st) && Live(st, f) && st.clients[f].outq != [] && st.clients[f].outq[0].UploadBlock?
    requires f in r.proxy.clients && PieceSent(st, f, r)
    requires Subs(r.proxy, f) != {} || Subs(r.proxy, f) == Subs(st.proxy, f)
    requires st.clients[f].outq[0].index == 0 ==> Subs(r.proxy, f) != {}
    requires forall s, m :: s in st.proxy.storages && s in st.servers ==> Matched(AfterProxy(PopFromClient(st, f), r), s, m)
    ensures Lone(AfterProxy(PopFromClient(st, f), r))
  {
    var e := st.clients[f];
    PopTakes(st, f);
    TakenAwaits(e, Subs(st.proxy, f), Subs(r.proxy, f));
    HandledClient(st, PopFromClient(st, f), f, r);
    assert e.inq + [] == e.inq;
    HandledLone(st, PopFromClient(st, f), f, r);
  }

  lemma SubscribedCallbacks(p: Proxy, f: FlowId, msg: Message, pick: ServerId, s: ServerId, m: Md5)
    requires f in p.clients && msg.UploadBlock? && msg.index == 0 && pick in p.storages
    ensures Callbacks(OnUploadBlock(p, f, msg, pick).proxy, s, m)
         == if s == pick && m == msg.md5 then Callbacks(p, s, m) + [f] else Callbacks(p, s, m)
  {
  }

  predicate FirstPieceAtHead(st: System, f: FlowId, pick: ServerId) {
    && Live(st, f) && pick in st.proxy.storages && st.proxy.clients[f].phase == WaitingUploadBlock
    && StartsWithFirst(st.clients[f].outq)
  }

  lemma FirstPieceSubs(h: Hash, st: System, f: FlowId, pick: ServerId)
    requires FirstPieceAtHead(st, f, pick) && UploaderOk(h, st, f)
    ensures
      var e := st.clients[f];
      && Subs(OnUploadBlock(st.proxy, f, e.outq[0], pick).proxy, f) == {(pick, e.outq[0].md5)}
      && (EndsBlock(e.outq[0]) ==> e.outq[1..] == [] && AgentOf(st, f).phase != AM.UploadingBlocks)
  {
    var e := st.clients[f];
    FirstPieceToken(h, e, AgentOf(st, f), st.proxy.clients[f], Subs(st.proxy, f));
    SubscribeSelf(st.proxy, OnUploadBlock(st.proxy, f, e.outq[0], pick).proxy, pick, e.outq[0].md5, f);
    if EndsBlock(e.outq[0]) {
      PieceEnds(h, st, f);
    }
  }

  lemma FirstPieceMatched(st: System, f: FlowId, pick: ServerId, s: ServerId, m: Md5)
    requires Lone(st) && FirstPieceAtHead(st, f, pick) && s in st.proxy.storages && s in st.servers
    requires
      var e := st.clients[f];
      var r := OnUploadBlock(st.proxy, f, e.outq[0], pick);
      && PieceSent(st, f, r) && Alone(AfterProxy(PopFromClient(st, f), r))
      && (EndsBlock(e.outq[0]) ==> e.outq[1..] == [] && AgentOf(st, f).phase != AM.UploadingBlocks)
    ensures Matched(AfterProxy(PopFromClient(st, f), OnUploadBlock(st.proxy, f, st.clients[f].outq[0], pick)), s, m)
  {
    var e := st.clients[f];
    var r := OnUploadBlock(st.proxy, f, e.outq[0], pick);
    SubscribedCallbacks(st.proxy, f, e.outq[0], pick, s, m);
    assert |Callbacks(AfterProxy(PopFromClient(st, f), r).proxy, s, m)| <= 1;
    if s == pick && m == e.outq[0].md5 {
      assert Matched(st, pick, m);
      OwnMatched(st, f, r, pick, m);
    } else {
      PieceMatched(st, f, r, s, m);
    }
  }

  lemma FirstPieceLone(h: Hash, st: System, f: FlowId, pick: ServerId)
    requires ServersOk(h, st) && Lone(st) && FirstPieceAtHead(st, f, pick) && UploaderOk(h, st, f)
    requires Alone(AfterProxy(PopFromClient(st, f), OnUploadBlock(st.proxy, f, st.clients[f].outq[0], pick)))
    ensures Lone(AfterProxy(PopFromClient(st, f), OnUploadBlock(st.proxy, f, st.clients[f].outq[0], pick)))
  {
    var r := OnUploadBlock(st.proxy, f, st.clients[f].outq[0], pick);
    FirstPieceSent(h, st, f, pick);
    FirstPieceSubs(h, st, f, pick);
    forall s, m | s in st.proxy.storages && s in st.servers ensures Matched(AfterProxy(PopFromClient(st, f), r), s, m) {
      FirstPieceMatched(st, f, pick, s, m);
    }
    PieceLone(st, f, r);
  }

  /** A later piece of a block: if it is the last one, the callback for the block is where it goes. */
  lemma LaterPiece(h: Hash, st: System, f: FlowId)
    requires Live(st, f) && UploaderOk(h, st, f) && DueOk(st, f) && AwaitsReply(st.clients[f], Subs(st.proxy, f))
    requires st.clients[f].outq != [] && EndsBlock(st.clients[f].outq[0]) && st.clients[f].outq[0].index != 0
    ensures StillSends(st.clients[f]) && exists s :: Subs(st.proxy, f) == {(s, st.clients[f].outq[0].md5)} && st.proxy.clients[f].relay == [s]
    ensures st.clients[f].outq[1..] == [] && AgentOf(st, f).phase != AM.UploadingBlocks
  {
    var e := st.clients[f];
    assert e.outq[0] in e.outq;
    assert StillSends(e);
    var x :| x in Subs(st.proxy, f);
    assert Firsts(e.outq) == 0 && Subs(st.proxy, f) == {x} && x.1 == e.outq[0].md5 by {
      var at :| UploaderAt(h, st, f, at);
      PendingToken(h, e, AgentOf(st, f), st.proxy.clients[f], Subs(st.proxy, f), x);
    }
    assert st.proxy.clients[f].relay == [x.0];
    assert Subs(st.proxy, f) == {(x.0, e.outq[0].md5)};
    PieceEnds(h, st, f);
  }

  lemma RelayLone(h: Hash, st: System, f: FlowId, pick: ServerId)
    requires ServersOk(h, st) && Lone(st) && Alone(st) && Live(st, f) && UploaderOk(h, st, f) && DueOk(st, f)
    requires st.proxy.clients[f].phase == WaitingUploadBlock && st.clients[f].outq != []
    requires st.clients[f].outq[0].UploadBlock? && st.clients[f].outq[0].index != 0
    ensures Lone(AfterProxy(PopFromClient(st, f), OnUploadBlock(st.proxy, f, st.clients[f].outq[0], pick)))
  {
    var e, msg := st.clients[f], st.clients[f].outq[0];
    var r := OnUploadBlock(st.proxy, f, msg, pick);
    var st' := AfterProxy(PopFromClient(st, f), r);
    RelayFacts(h, st, f);
    PopTakes(st, f);
    RelaySent(st, f, pick);
    SameSubs(st.proxy, r.proxy, f);
    if msg.eof {
      LaterPiece(h, st, f);
      var s :| Subs(st.proxy, f) == {(s, msg.md5)} && st.proxy.clients[f].relay == [s];
      RelayEndMatched(st, f, r, s);
    }
    forall s, m | s in st.proxy.storages && s in st.servers ensures Matched(st', s, m) {
      if !(msg.eof && r.proxy.clients[f].relay == [s] && m == msg.md5) {
        PieceMatched(st, f, r, s, m);
      }
    }
    PieceLone(st, f, r);
  }

  lemma RelayEndMatched(st: System, f: FlowId, r: ProxyResult, s: ServerId)
    requires Lone(st) && Alone(st) && Live(st, f) && st.clients[f].outq != [] && EndsBlock(st.clients[f].outq[0])
    requires Subs(st.proxy, f) == {(s, st.clients[f].outq[0].md5)} && s in st.servers
    requires f in r.proxy.clients && PieceSent(st, f, r) && r.proxy.storages == st.proxy.storages
    requires st.clients[f].outq[1..] == [] && AgentOf(st, f).phase != AM.UploadingBlocks
    ensures s in st.proxy.storages && Matched(AfterProxy(PopFromClient(st, f), r), s, st.clients[f].outq[0].md5)
  {
    var m := st.clients[f].outq[0].md5;
    assert (s, m) in Subs(st.proxy, f);
    CallbackSubs(st.proxy, f, s, m);
    assert |Callbacks(st.proxy, s, m)| <= 1;
    assert Callbacks(st.proxy, s, m) == [f];
    assert Matched(st, s, m);
    assert st.clients[f].outq[0] in st.clients[f].outq;
    assert StillSends(st.clients[f]);
    OwnMatched(st, f, r, s, m);
  }

  lemma FromUploaderLone(h: Hash, st: System, f: FlowId, pick: ServerId)
    requires ServersOk(h, st) && Lone(st) && Alone(st) && Live(st, f) && UploaderOk(h, st, f) && DueOk(st, f)
    requires st.clients[f].outq != [] && OnClientMessage(h, st.proxy, f, st.clients[f].outq[0], pick).outcome != Exit
    requires Alone(FromClient(h, st, f, pick))
    ensures Lone(FromClient(h, st, f, pick))
  {
    var msg := st.clients[f].outq[0];
    FromUploaderIs(h, st, f, pick);
    if !msg.UploadBlock? {
      var r := OnClientMessage(h, st.proxy, f, msg, pick);
      UploaderSends(h, st.clients[f], AgentOf(st, f), st.proxy.clients[f], Subs(st.proxy, f));
      QuietMail(h, st.proxy, f, msg, pick);
      FromUploaderMoves(h, st, f, pick);
      PopTakes(st, f);
      QuietLone(st, PopFromClient(st, f), f, r);
    } else if msg.index == 0 {
      FirstPieceLone(h, st, f, pick);
    } else {
      RelayLone(h, st, f, pick);
    }
  }

  lemma LeaveLone(h: Hash, st: System, st1: System, f: FlowId, c: Client)
    requires Lone(st) && Taken(st, st1, f) && f in st.proxy.clients
    ensures Lone(AfterProxy(st1, Leave(st.proxy, f, c)))
  {
    LeaveMoves(h, st, f, c);
    QuietLone(st, st1, f, Leave(st.proxy, f, c));
  }

  lemma FromDownloaderLone(h: Hash, st: System, f: FlowId, pick: ServerId)
    requires Lone(st) && IsDownloader(st, f) && DownloaderOk(st, f) && f in st.proxy.clients && st.clients[f].outq != []
    requires OnClientMessage(h, st.proxy, f, st.clients[f].outq[0], pick).outcome != Exit
    requires PickOk(st.proxy, f, st.clients[f].outq[0], pick)
    ensures Lone(FromClient(h, st, f, pick))
  {
    var r := OnClientMessage(h, st.proxy, f, st.clients[f].outq[0], pick);
    PopTakes(st, f);
    FromDownloaderIs(h, st, f, pick);
    DownloaderSends(st, f);
    if r.outcome == Close {
      var c' :| !Finished(c') && r == Silent(SetClient(st.proxy, f, c'), Close);
      LeavesAfter(st, f, c');
      LeaveLone(h, st, PopFromClient(st, f), f, c');
    } else {
      DownloaderMoves(h, st, f, pick);
      QuietMail(h, st.proxy, f, st.clients[f].outq[0], pick);
      QuietLone(st, PopFromClient(st, f), f, r);
    }
  }

  // ----- Messages of servers -----

  /** A handler run for server `s` that takes no part in answers. */
  lemma ServedLone(st: System, s: ServerId, r: ProxyResult)
    requires Lone(st) && s in st.servers && st.servers[s].outq != [] && ServedBy(st, s, PopFromServer(st, s), r)
    requires r.proxy.clients == st.proxy.clients
    requires forall f :: Subs(r.proxy, f) == Subs(st.proxy, f)
    requires forall t, m :: Callbacks(r.proxy, t, m) == Callbacks(st.proxy, t, m)
    ensures Lone(AfterProxy(PopFromServer(st, s), r))
  {
    var st1, st' := PopFromServer(st, s), AfterProxy(PopFromServer(st, s), r);
    forall f | Live(st', f) ensures Live(st, f) && AwaitsReply(st'.clients[f], Subs(st'.proxy, f)) {
      assert Live(st, f);
    }
    forall t, m | t in st'.proxy.storages && t in st'.servers ensures Matched(st', t, m) {
      ServedServers(st, s, st1, r, t);
      MatchedStays(st, st', t, m);
    }
  }

  lemma AckedCallbacks(p: Proxy, s: ServerId, m: Md5, t: ServerId, m': Md5)
    requires s in p.storages
    ensures Callbacks(Acked(p, s, m).proxy, t, m') == if t == s && m' == m then [] else Callbacks(p, t, m')
  {
  }

  lemma AckedMatched(st: System, s: ServerId, m: Md5, t: ServerId, m': Md5)
    requires Lone(st) && Alone(st) && s in st.servers && s in st.proxy.storages && t in st.proxy.storages && t in st.servers
    requires st.servers[s].outq != [] && st.servers[s].outq[0] == UploadBlockAck(m)
    ensures Matched(AfterProxy(PopFromServer(st, s), Acked(st.proxy, s, m)), t, m')
  {
    var st1, r := PopFromServer(st, s), Acked(st.proxy, s, m);
    var st' := AfterProxy(st1, r);
    AckedServed(st, s, m);
    ServedServers(st, s, st1, r, t);
    AckedCallbacks(st.proxy, s, m, t, m');
    CastVotesClients(Ballot(st.proxy.clients, map[]), VotesAt(st.proxy.storages[s], m), true);
    assert Matched(st, t, m');
    if t == s && m' == m {
      assert |Callbacks(st.proxy, s, m)| <= 1;
    } else {
      MatchedStays(st, st', t, m');
    }
  }

  /** An acknowledgement answers the one callback that waits for it, of a block sent in full. */
  lemma AckedLone(h: Hash, st: System, s: ServerId, m: Md5)
    requires Lone(st) && Alone(st) && s in st.servers && s in st.proxy.storages
    requires st.servers[s].outq != [] && st.servers[s].outq[0] == UploadBlockAck(m)
    ensures Lone(AfterProxy(PopFromServer(st, s), Acked(st.proxy, s, m)))
  {
    var st1, r := PopFromServer(st, s), Acked(st.proxy, s, m);
    var st' := AfterProxy(st1, r);
    CastVotesClients(Ballot(st.proxy.clients, map[]), VotesAt(st.proxy.storages[s], m), true);
    forall f | Live(st', f) ensures AwaitsReply(st'.clients[f], Subs(st'.proxy, f)) {
      assert Live(st, f);
      AckedSubs(st.proxy, s, m, f);
      CallbackSubs(st.proxy, f, s, m);
      assert Matched(st, s, m);
    }
    forall t, m' | t in st'.proxy.storages && t in st'.servers ensures Matched(st', t, m') {
      AckedMatched(st, s, m, t, m');
    }
  }

  lemma FromServerLone(h: Hash, st: System, s: ServerId, order: seq<Md5>)
    requires ServersOk(h, st) && Lone(st) && Alone(st) && s in st.servers && s in st.proxy.storages && st.servers[s].outq != []
    requires s in FromServer(st, s, order).proxy.storages
    ensures Lone(FromServer(st, s, order))
  {
    var msg := st.servers[s].outq[0];
    ServerSends(h, st, s);
    ServerOutcome(st.proxy, s, msg);
    if msg.TransferBlockSet? {
      BlockSetIs(st.proxy, s, msg);
      BlockSetLone(st, s);
    } else if msg.UploadBlockAck? {
      AckIs(st.proxy, s, msg.md5);
      AckedLone(h, st, s, msg.md5);
    } else {
      TransferBlockIs(st, s);
      ForwardLone(st, s);
    }
  }

  lemma LearnedSubs(p: Proxy, s: ServerId, x: Storage, f: FlowId)
    requires s in p.storages && x.subs == p.storages[s].subs
    ensures Subs(SetStorage(p, s, x), f) == Subs(p, f)
  {
    assert forall y :: y in Subs(SetStorage(p, s, x), f) <==> y in Subs(p, f);
  }

  lemma BlockSetLone(st: System, s: ServerId)
    requires Lone(st) && s in st.proxy.storages && s in st.servers
    requires st.servers[s].outq != [] && st.servers[s].outq[0].TransferBlockSet?
    ensures Lone(AfterProxy(PopFromServer(st, s), LearnSet(st, s)))
  {
    var r := LearnSet(st, s);
    assert ServedBy(st, s, PopFromServer(st, s), r);
    forall f ensures Subs(r.proxy, f) == Subs(st.proxy, f) {
      LearnedSubs(st.proxy, s, Learned(st.proxy.storages[s], st.servers[s].outq[0]), f);
    }
    ServedLone(st, s, r);
  }

  lemma ForwardLone(st: System, s: ServerId)
    requires Lone(st)
    requires s in st.proxy.storages && s in st.servers && st.servers[s].outq != [] && st.servers[s].outq[0].TransferBlock?
    ensures Lone(AfterProxy(PopFromServer(st, s), Forward(st, s)))
  {
    assert ServedBy(st, s, PopFromServer(st, s), Forward(st, s));
    assert Forward(st, s).proxy == st.proxy;
    ServedLone(st, s, Forward(st, s));
  }

  // ----- Every step -----

  lemma EndStepLone(h: Hash, st: System, act: Action)
    requires Inv(h, st) && Lone(st) && Enabled(h, st, act) && !IsProxyStep(act)
    ensures Lone(Apply(h, st, act))
  {
    match act
    case ConnectUploader(file) => ConnectLone(h, st, NewUploader(h, file));
    case ConnectDownloader(id) => ConnectLone(h, st, NewDownloader(id));
    case ConnectServer(files, order) => JoinLone(h, st, NewServer(files, order));
    case ClientReceives(f) =>
      assert ClientOk(h, st, f);
      if st.clients[f].party.Uploader? {
        UploaderReceivesLone(h, st, f);
      } else {
        ClientAloneLone(st, f, ClientReceive(st.clients[f]));
      }
    case ClientWriteComplete(f) =>
      assert ClientOk(h, st, f);
      UploaderWritesLone(h, st, f);
    case ClientCloses(f) => ClientAloneLone(st, f, Shut(st.clients[f]));
    case ServerReceives(s) =>
      forall m ensures AnswersDue(ServerReceive(h, st.servers[s]), m) <= AnswersDue(st.servers[s], m) {
        ReceiveAnswers(h, st.servers[s], m);
      }
      ServerAloneLone(st, s, ServerReceive(h, st.servers[s]));
    case ServerWriteComplete(s) =>
      forall m ensures AnswersDue(ServerWritten(st.servers[s]), m) <= AnswersDue(st.servers[s], m) {
        WriteAnswers(h, st.servers[s], m);
      }
      ServerAloneLone(st, s, ServerWritten(st.servers[s]));
    case ServerCloses(s) => ServerAloneLone(st, s, Closed(st.servers[s]));
  }

  lemma FromClientLone(h: Hash, st: System, f: FlowId, pick: ServerId)
    requires ServersOk(h, st) && Lone(st) && Alone(st) && Enabled(h, st, ProxyReceivesFromClient(f, pick))
    requires ClientOk(h, st, f) && (Live(st, f) ==> DueOk(st, f)) && Alone(FromClient(h, st, f, pick))
    ensures Lone(FromClient(h, st, f, pick))
  {
    if st.clients[f].party.Uploader? {
      FromUploaderLone(h, st, f, pick);
    } else {
      FromDownloaderLone(h, st, f, pick);
    }
  }

  lemma CloseLone(h: Hash, st: System, f: FlowId)
    requires FlowsOk(h, st) && Lone(st) && f in st.proxy.clients
    ensures Lone(CloseClient(st, f))
  {
    KnownFlow(h, st, f);
    SetSame(st.proxy, f);
    LeaveLone(h, st, st, f, st.proxy.clients[f]);
  }

  lemma ProxyStepLone(h: Hash, st: System, act: Action)
    requires Inv(h, st) && DueAll(st) && Lone(st) && Alone(st) && Enabled(h, st, act) && IsProxyStep(act)
    requires Alone(Apply(h, st, act)) && KeepsServers(st, Apply(h, st, act))
    ensures Lone(Apply(h, st, act))
  {
    match act
    case ProxyReceivesFromClient(f, pick) =>
      assert ClientOk(h, st, f) && (Live(st, f) ==> DueOk(st, f));
      FromClientLone(h, st, f, pick);
    case ProxyReceivesFromServer(s, order) => FromServerLone(h, st, s, order);
    case ProxyClosesClient(f) => CloseLone(h, st, f);
    case ProxyClosesServer(s, order) => DropsServer(st, s, order);
  }

  lemma StepLone(h: Hash, st: System, act: Action)
    requires Inv(h, st) && DueAll(st) && Lone(st) && Alone(st) && Enabled(h, st, act)
    requires Alone(Apply(h, st, act)) && KeepsServers(st, Apply(h, st, act))
    ensures Lone(Apply(h, st, act))
  {
    if IsProxyStep(act) {
      ProxyStepLone(h, st, act);
    } else {
      EndStepLone(h, st, act);
    }
  }

  // ----- Runs -----

  /** In the run up to state `i`, no two flows ever wait for the same block at the same server, and nothing makes the
      proxy drop a server. */
  ghost predicate LoneRun(h: Hash, run: seq<System>, acts: seq<Action>, i: nat)
    requires IsRun(h, run, acts) && i < |run|
  {
    (forall k :: 0 <= k <= i ==> Alone(run[k])) && ServersStay(h, run, acts, i)
  }

  lemma RunStepLone(h: Hash, run: seq<System>, acts: seq<Action>, i: nat, k: nat)
    requires IsRun(h, run, acts) && i < |run| && LoneRun(h, run, acts, i) && k < i && Lone(run[k])
    ensures Lone(run[k + 1])
  {
    RunKeeps(h, run, acts, k);
    RunDue(h, run, acts, k);
    assert Alone(run[k + 1]);
    NoServerDropped(h, run, acts, i, k);
    StepLone(h, run[k], acts[k]);
  }

  lemma {:induction false} LoneAlong(run: seq<System>, i: nat)
    requires i < |run| && Lone(run[0])
    requires forall k :: 0 <= k < i && Lone(run[k]) ==> Lone(run[k + 1])
    ensures Lone(run[i])
    decreases i
  {
    if i > 0 {
      LoneAlong(run, i - 1);
      assert Lone(run[i - 1 + 1]);
    }
  }

  lemma RunLone(h: Hash, run: seq<System>, acts: seq<Action>, i: nat)
    requires IsRun(h, run, acts) && i < |run| && LoneRun(h, run, acts, i)
    ensures Lone(run[i])
  {
    forall k | 0 <= k < i && Lone(run[k]) ensures Lone(run[k + 1]) {
      RunStepLone(h, run, acts, i, k);
    }
    assert Lone(run[0]);
    LoneAlong(run, i);
  }

  /** Uploads that do not meet get no reply early: an agent that has a reply to handle is not sending. */
  lemma NoEarlyReply(h: Hash, run: seq<System>, acts: seq<Action>, i: nat, f: FlowId)
    requires IsRun(h, run, acts) && i < |run| && LoneRun(h, run, acts, i) && Live(run[i], f) && run[i].clients[f].inq != []
    ensures AgentOf(run[i], f).phase != AM.UploadingBlocks && run[i].clients[f].outq == []
  {
    RunLone(h, run, acts, i);
    RunKeeps(h, run, acts, i);
    var st := run[i];
    assert UploaderOk(h, st, f) by {
      assert ClientOk(h, st, f);
    }
    var at :| UploaderAt(h, st, f, at);
    RepliedOut(h, st.clients[f], AgentOf(st, f), st.proxy.clients[f], Subs(st.proxy, f), at);
  }

  ghost predicate JustConnected(st: System, f: FlowId) {
    StaysConnected(st, f) && AgentOf(st, f).phase == AM.WaitingUploadResponse
  }

  /** In a run without such meetings, an upload whose session nobody closes stays connected, and has succeeded when the
      system comes to rest. */
  lemma LoneUploadsEndWell(h: Hash, run: seq<System>, acts: seq<Action>, i: nat, j: nat, f: FlowId)
    requires IsRun(h, run, acts) && i <= j < |run| && LoneRun(h, run, acts, j)
    requires JustConnected(run[i], f) && LeftAlone(acts, f, i, j)
    requires AtRest(h, run[j]) && ServersOpen(run[j])
    ensures StaysConnected(run[j], f) && AgentOf(run[j], f).phase == AM.Succ
  {
    ServersKept(h, run, acts, j);
    forall k | i <= k <= j ensures StaysConnected(run[k], f) {
      RunStays(h, run, acts, i, k, f);
    }
    forall k | i <= k < j
      ensures StaysConnected(run[k], f) && !(acts[k] == ClientReceives(f) && AgentOf(run[k], f).phase == AM.UploadingBlocks)
    {
      if acts[k] == ClientReceives(f) {
        assert Enabled(h, run[k], acts[k]);
        NoEarlyReply(h, run, acts, k, f);
      }
    }
    assert StaysConnected(run[j], f);
    UploadsEndWell(h, run, acts, i, j, f);
  }
}
