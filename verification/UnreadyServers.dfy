/** Two more short runs that end badly, for every hash function: a block is uploaded when no server is connected, which
    ends the proxy; and a block is uploaded to a server that has not sent its last block set, which the proxy then drops
    for answering. */
module UnreadyServers {
  import opened Types
  import opened FileBlocks
  import SM = ServerModel
  import AM = AgentModel
  import opened ProxyModel
  import opened SystemModel
  import opened Invariant
  import opened Safety
  import opened Shortcomings

  /** A file of one piece. */
  function Tiny(): Bytes {
    [0 as byte]
  }

  function Label(h: Hash): Md5 {
    h(Tiny())
  }

  function Request(h: Hash): AM.Agent {
    AM.Agent(AM.WaitingUploadResponse, Tiny(), [Block(Label(h), 0, 1)], [], 0, 0, 0)
  }

  function Sent(h: Hash): AM.Agent {
    Request(h).(phase := AM.WaitingBlockAck, upload := [Label(h)], offset := 1, piece := 1)
  }

  function Piece(h: Hash): Message {
    UploadBlock(Label(h), 0, 0, true, Tiny())
  }

  function Context(h: Hash): Client {
    NewClient.(phase := WaitingUploadBlock, uploading := [Label(h)])
  }

  /** One client, and servers that have not told the proxy of any block. */
  function One(c: Client, e: ClientEnd, storages: map<ServerId, Storage>, servers: map<ServerId, ServerEnd>, next: nat): System {
    System(Proxy(map[0 := c], storages, map[], 1), map[0 := e], servers, next)
  }

  function NoClients(storages: map<ServerId, Storage>, servers: map<ServerId, ServerEnd>, next: nat): System {
    System(Proxy(map[], storages, map[], 0), map[], servers, next)
  }

  lemma TinySplit(h: Hash)
    ensures Split(h, Tiny(), 0) == [Block(Label(h), 0, 1)] && Md5s(Split(h, Tiny(), 0)) == [Label(h)]
  {
    assert Tiny()[0..1] == Tiny();
    assert Split(h, Tiny(), 1) == [];
  }

  lemma Connects(h: Hash, storages: map<ServerId, Storage>, servers: map<ServerId, ServerEnd>, next: nat)
    requires Reachable(h, NoClients(storages, servers, next))
    ensures Reachable(h, One(NewClient, Busy(Request(h), [], [UploadRequest([Label(h)])]), storages, servers, next))
  {
    TinySplit(h);
    ReachableStep(h, NoClients(storages, servers, next), ConnectUploader(Tiny()));
    assert Apply(h, NoClients(storages, servers, next), ConnectUploader(Tiny()))
        == One(NewClient, Busy(Request(h), [], [UploadRequest([Label(h)])]), storages, servers, next);
  }

  lemma AnswerEnds(h: Hash, storages: map<ServerId, Storage>, servers: map<ServerId, ServerEnd>, next: nat)
    requires NeedUpload(Proxy(map[0 := NewClient], storages, map[], 1), [Label(h)]) == [Label(h)]
    ensures
      var st := One(NewClient, Busy(Request(h), [], [UploadRequest([Label(h)])]), storages, servers, next);
      var st' := One(Context(h), Busy(Request(h), [UploadResponse([Label(h)])], []), storages, servers, next);
      ClientMessageEnds(st, 0, OnUploadRequest(st.proxy, 0, [Label(h)]), st')
  {
    assert [UploadRequest([Label(h)])][1..] == [];
    forall s | s in servers ensures servers[s].inq + [] == servers[s].inq {
    }
  }

  lemma Answered(h: Hash, storages: map<ServerId, Storage>, servers: map<ServerId, ServerEnd>, next: nat, pick: ServerId)
    requires Reachable(h, NoClients(storages, servers, next))
    requires (forall s :: s in storages ==> storages[s].md5s == {}) && (storages != map[] ==> pick in storages)
    ensures Reachable(h, One(Context(h), Busy(Request(h), [UploadResponse([Label(h)])], []), storages, servers, next))
  {
    var st := One(NewClient, Busy(Request(h), [], [UploadRequest([Label(h)])]), storages, servers, next);
    Connects(h, storages, servers, next);
    NeedsAll(st.proxy, Label(h));
    AnswerEnds(h, storages, servers, next);
    AfterClientMessage(h, st, 0, pick, OnUploadRequest(st.proxy, 0, [Label(h)]),
                       One(Context(h), Busy(Request(h), [UploadResponse([Label(h)])], []), storages, servers, next));
  }

  lemma TinyPiece(h: Hash)
    ensures ClientReceive(Busy(Request(h), [UploadResponse([Label(h)])], [])) == Busy(Sent(h), [], [Piece(h)])
  {
    assert Tiny()[0..1] == Tiny();
    assert [UploadResponse([Label(h)])][1..] == [];
  }

  lemma PieceReady(h: Hash, storages: map<ServerId, Storage>, servers: map<ServerId, ServerEnd>, next: nat, pick: ServerId)
    requires Reachable(h, NoClients(storages, servers, next))
    requires (forall s :: s in storages ==> storages[s].md5s == {}) && (storages != map[] ==> pick in storages)
    ensures Reachable(h, One(Context(h), Busy(Sent(h), [], [Piece(h)]), storages, servers, next))
  {
    var st := One(Context(h), Busy(Request(h), [UploadResponse([Label(h)])], []), storages, servers, next);
    Answered(h, storages, servers, next, pick);
    TinyPiece(h);
    ReachableStep(h, st, ClientReceives(0));
    assert Apply(h, st, ClientReceives(0)) == One(Context(h), Busy(Sent(h), [], [Piece(h)]), storages, servers, next);
  }

  // ----- No server -----

  /** A client starts to upload a block when no server is connected: whatever is picked, the proxy process ends. */
  lemma NoServerStopsProxy(h: Hash)
    ensures exists st, f ::
              && Reachable(h, st) && IsUploader(st, f) && f in st.proxy.clients && st.clients[f].outq != [] && st.proxy.storages == map[]
              && forall pick :: PickOk(st.proxy, f, st.clients[f].outq[0], pick)
                   && OnClientMessage(h, st.proxy, f, st.clients[f].outq[0], pick).outcome == Exit
  {
    StartReachable(h);
    PieceReady(h, map[], map[], 0, 0);
    var st := One(Context(h), Busy(Sent(h), [], [Piece(h)]), map[], map[], 0);
    assert IsUploader(st, 0);
  }

  // ----- A server with many blocks -----

  /** A store that takes more than one block set message to announce. */
  ghost predicate Large(h: Hash, files: map<Md5, Bytes>, order: seq<Md5>) {
    Enumerates(order, files.Keys) && |order| > 128 && forall m :: m in files ==> h(files[m]) == m
  }

  function Lister(files: map<Md5, Bytes>, order: seq<Md5>): SM.Server {
    SM.Server(SM.TransferingBlockSet, order, 128, files.Keys, files, map[], map[], map[])
  }

  function FirstSet(order: seq<Md5>): Message
    requires |order| > 128
  {
    TransferBlockSet(order[0..128], false)
  }

  lemma Lists(h: Hash, files: map<Md5, Bytes>, order: seq<Md5>)
    requires Large(h, files, order)
    ensures Reachable(h, NoClients(map[0 := NewStorage], map[0 := Serving(Lister(files, order), [], [FirstSet(order)])], 1))
  {
    StartReachable(h);
    ReachableStep(h, Start(), ConnectServer(files, order));
    assert NewServer(files, order) == Serving(Lister(files, order), [], [FirstSet(order)]);
    assert Apply(h, Start(), ConnectServer(files, order))
        == NoClients(map[0 := NewStorage], map[0 := Serving(Lister(files, order), [], [FirstSet(order)])], 1);
  }

  function Awaiting(h: Hash, md5s: set<Md5>): Storage {
    Storage(WaitingBlockSet, md5s, map[Label(h) := [0]])
  }

  function Relayed(h: Hash, x: Storage, e: ServerEnd): System {
    One(Context(h).(relay := [0]), Busy(Sent(h), [], []), map[0 := x], map[0 := e], 1)
  }

  lemma PieceRelayed(h: Hash, servers: map<ServerId, ServerEnd>)
    ensures
      var p := One(Context(h), Busy(Sent(h), [], [Piece(h)]), map[0 := NewStorage], servers, 1).proxy;
      OnUploadBlock(p, 0, Piece(h), 0)
        == ProxyResult(Proxy(map[0 := Context(h).(relay := [0])], map[0 := Awaiting(h, {})], map[], 1), map[], map[0 := [Piece(h)]], Ok)
  {
    var subs: map<Md5, seq<FlowId>> := map[];
    var none: seq<FlowId> := [];
    assert none + [0] == [0];
    assert Subscribe(subs, Label(h), 0) == map[Label(h) := [0]];
  }

  lemma Relays(h: Hash, files: map<Md5, Bytes>, order: seq<Md5>)
    requires Large(h, files, order)
    ensures Reachable(h, Relayed(h, Awaiting(h, {}), Serving(Lister(files, order), [Piece(h)], [FirstSet(order)])))
  {
    var servers := map[0 := Serving(Lister(files, order), [], [FirstSet(order)])];
    var st := One(Context(h), Busy(Sent(h), [], [Piece(h)]), map[0 := NewStorage], servers, 1);
    Lists(h, files, order);
    PieceReady(h, map[0 := NewStorage], servers, 1, 0);
    PieceRelayed(h, servers);
    RelayEnds(h, Lister(files, order), [FirstSet(order)]);
    AfterClientMessage(h, st, 0, 0, OnUploadBlock(st.proxy, 0, Piece(h), 0),
                       Relayed(h, Awaiting(h, {}), Serving(Lister(files, order), [Piece(h)], [FirstSet(order)])));
  }

  lemma RelayEnds(h: Hash, sv: SM.Server, outq: seq<Message>)
    ensures
      var st := One(Context(h), Busy(Sent(h), [], [Piece(h)]), map[0 := NewStorage], map[0 := Serving(sv, [], outq)], 1);
      var p' := Proxy(map[0 := Context(h).(relay := [0])], map[0 := Awaiting(h, {})], map[], 1);
      ClientMessageEnds(st, 0, ProxyResult(p', map[], map[0 := [Piece(h)]], Ok), Relayed(h, Awaiting(h, {}), Serving(sv, [Piece(h)], outq)))
  {
    assert [Piece(h)][1..] == [];
  }

  function Stored(h: Hash, files: map<Md5, Bytes>, order: seq<Md5>): SM.Server {
    Lister(files, order).(items := files.Keys + {Label(h)}, files := if Label(h) in files then files else files[Label(h) := Tiny()])
  }

  lemma Stores(h: Hash, files: map<Md5, Bytes>, order: seq<Md5>)
    requires |order| > 128
    ensures ServerReceive(h, Serving(Lister(files, order), [Piece(h)], [FirstSet(order)]))
         == Serving(Stored(h, files, order), [], [FirstSet(order), UploadBlockAck(Label(h))])
  {
    var none: map<FlowId, SM.Upload> := map[];
    assert none - {0} == none;
    assert [] + Tiny() == Tiny();
    assert [Piece(h)][1..] == [];
    assert [FirstSet(order)] + [UploadBlockAck(Label(h))] == [FirstSet(order), UploadBlockAck(Label(h))];
  }

  lemma Answers(h: Hash, files: map<Md5, Bytes>, order: seq<Md5>)
    requires Large(h, files, order)
    ensures Reachable(h, Relayed(h, Awaiting(h, {}), Serving(Stored(h, files, order), [], [FirstSet(order), UploadBlockAck(Label(h))])))
  {
    var st := Relayed(h, Awaiting(h, {}), Serving(Lister(files, order), [Piece(h)], [FirstSet(order)]));
    Relays(h, files, order);
    Stores(h, files, order);
    ReachableStep(h, st, ServerReceives(0));
    assert Apply(h, st, ServerReceives(0))
        == Relayed(h, Awaiting(h, {}), Serving(Stored(h, files, order), [], [FirstSet(order), UploadBlockAck(Label(h))]));
  }

  lemma SetLearned(h: Hash, order: seq<Md5>, e: ServerEnd)
    requires |order| > 128
    ensures
      var md5s := set m | m in order[0..128];
      OnServerMessage(Relayed(h, Awaiting(h, {}), e).proxy, 0, FirstSet(order)) == Silent(Relayed(h, Awaiting(h, md5s), e).proxy, Ok)
  {
    var md5s := set m | m in order[0..128];
    var none: set<Md5> := {};
    assert none + md5s == md5s;
    assert map[0 := Awaiting(h, {})][0 := Awaiting(h, md5s)] == map[0 := Awaiting(h, md5s)];
  }

  lemma Learns(h: Hash, files: map<Md5, Bytes>, order: seq<Md5>)
    requires Large(h, files, order)
    ensures Reachable(h, Relayed(h, Awaiting(h, set m | m in order[0..128]),
                                 Serving(Stored(h, files, order), [], [UploadBlockAck(Label(h))])))
  {
    var md5s := set m | m in order[0..128];
    var e := Serving(Stored(h, files, order), [], [FirstSet(order), UploadBlockAck(Label(h))]);
    var e' := Serving(Stored(h, files, order), [], [UploadBlockAck(Label(h))]);
    var st, st' := Relayed(h, Awaiting(h, {}), e), Relayed(h, Awaiting(h, md5s), e');
    Answers(h, files, order);
    SetLearned(h, order, e);
    assert Enumerates([Label(h)], st.proxy.storages[0].subs.Keys);
    assert e.outq[1..] == e'.outq;
    assert st'.servers == st.servers[0 := st.servers[0].(outq := st.servers[0].outq[1..])];
    AfterServerMessage(h, st, 0, [Label(h)], Silent(st'.proxy, Ok), st');
  }

  lemma FailsToOne(h: Hash)
    ensures
      var c := Context(h).(relay := [0]);
      CastVotes(Ballot(map[0 := c], map[]), AllVotes(map[Label(h) := [0]], [Label(h)]), false).mail == map[0 := [UploadBlockFail(Label(h))]]
  {
    var c := Context(h).(relay := [0]);
    var subs: map<Md5, seq<FlowId>> := map[Label(h) := [0]];
    var v := Vote(Label(h), 0);
    assert [Label(h)][1..] == [];
    assert AllVotes(subs, []) == [];
    assert VotesOn(Label(h), [0]) == [v];
    assert [v] + [] == [v];
    assert [v][1..] == [];
    assert AllVotes(subs, [Label(h)]) == [v];
    var b := CastVote(Ballot(map[0 := c], map[]), v, false);
    assert b.mail == map[0 := [UploadBlockFail(Label(h))]] by {
      var none: seq<Message> := [];
      assert none + [UploadBlockFail(Label(h))] == [UploadBlockFail(Label(h))];
    }
    assert CastVotes(b, [], false) == b;
  }

  /** The acknowledgement comes out of order. */
  lemma Drops(h: Hash, md5s: set<Md5>, sv: SM.Server)
    ensures
      var st := Relayed(h, Awaiting(h, md5s), Serving(sv, [], [UploadBlockAck(Label(h))]));
      var st' := CloseServer(st, 0, [Label(h)]);
      && FromServer(st, 0, [Label(h)]) == st' && 0 !in st'.proxy.storages
      && st'.clients[0].inq == [UploadBlockFail(Label(h))]
  {
    var st := Relayed(h, Awaiting(h, md5s), Serving(sv, [], [UploadBlockAck(Label(h))]));
    FailsToOne(h);
    assert OnServerClose(st.proxy, 0, [Label(h)]).toClients == map[0 := [UploadBlockFail(Label(h))]];
  }

  /** In this step the proxy drops a server for acknowledging a block that it has stored, and tells the client that its
      upload has failed. */
  ghost predicate DroppedForAnswer(h: Hash, st: System, s: ServerId, order: seq<Md5>, f: FlowId, m: Md5) {
    && Enabled(h, st, ProxyReceivesFromServer(s, order))
    && st.servers[s].outq[0] == UploadBlockAck(m) && m in st.servers[s].server.files
    && var st' := FromServer(st, s, order);
    && s !in st'.proxy.storages && f in st'.clients && st'.clients[f].inq == [UploadBlockFail(m)]
  }

  lemma AnswerDropped(h: Hash, md5s: set<Md5>, sv: SM.Server)
    requires Label(h) in sv.files
    ensures DroppedForAnswer(h, Relayed(h, Awaiting(h, md5s), Serving(sv, [], [UploadBlockAck(Label(h))])), 0, [Label(h)], 0, Label(h))
  {
    var st := Relayed(h, Awaiting(h, md5s), Serving(sv, [], [UploadBlockAck(Label(h))]));
    Drops(h, md5s, sv);
    assert st.proxy.storages[0].subs.Keys == {Label(h)};
    assert Enumerates([Label(h)], {Label(h)});
  }

  /** A server with more blocks than one message announces is picked for a block before its list is through. It stores
      the block and acknowledges it, and is dropped for that. */
  lemma UnreadyServerDropped(h: Hash, files: map<Md5, Bytes>, order: seq<Md5>)
    requires Large(h, files, order)
    ensures exists st, s, order', f, m :: Reachable(h, st) && DroppedForAnswer(h, st, s, order', f, m)
  {
    var md5s := set m | m in order[0..128];
    var st := Relayed(h, Awaiting(h, md5s), Serving(Stored(h, files, order), [], [UploadBlockAck(Label(h))]));
    Learns(h, files, order);
    AnswerDropped(h, md5s, Stored(h, files, order));
  }
}
