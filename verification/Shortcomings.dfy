/** Two short runs that end badly, for every hash function: an agent overlooks a reply because another client sends
    the same file, and asking for an empty file makes the proxy read beyond an empty list. */
module Shortcomings {
  import opened Types
  import opened FileBlocks
  import SM = ServerModel
  import AM = AgentModel
  import opened ProxyModel
  import opened SystemModel
  import opened Invariant
  import opened Safety
  import opened Progress

  function Start(): System {
    System(Proxy(map[], map[], map[], 0), map[], map[], 0)
  }

  lemma StartReachable(h: Hash)
    ensures Reachable(h, Start())
  {
    assert IsRun(h, [Start()], []);
  }

  lemma ReachableStep(h: Hash, st: System, act: Action)
    requires Reachable(h, st) && Enabled(h, st, act)
    ensures Reachable(h, Apply(h, st, act))
  {
    var run, acts :| IsRun(h, run, acts) && st == run[|acts|];
    var run', acts' := run + [Apply(h, st, act)], acts + [act];
    forall i | 0 <= i < |acts'| ensures Enabled(h, run'[i], acts'[i]) && run'[i + 1] == Apply(h, run'[i], acts'[i]) {
      if i < |acts| {
        assert run'[i] == run[i] && run'[i + 1] == run[i + 1] && acts'[i] == acts[i];
      }
    }
    assert IsRun(h, run', acts');
  }

  /** What the ends look like after the proxy has handled a client's message with result `r`. */
  ghost predicate ClientMessageEnds(st: System, f: FlowId, r: ProxyResult, st': System)
    requires f in st.clients && st.clients[f].outq != []
  {
    && st'.proxy == r.proxy && st'.nextServer == st.nextServer
    && st'.clients.Keys == st.clients.Keys && st'.servers.Keys == st.servers.Keys
    && (forall g :: g in st.clients ==>
          st'.clients[g] == st.clients[g].(inq := st.clients[g].inq + Mail(r.toClients, g),
                                           outq := if g == f then st.clients[g].outq[1..] else st.clients[g].outq))
    && (forall s :: s in st.servers ==> st'.servers[s] == st.servers[s].(inq := st.servers[s].inq + Mail(r.toServers, s)))
  }

  lemma ClientMessageGives(h: Hash, st: System, f: FlowId, pick: ServerId, r: ProxyResult, st': System)
    requires f in st.proxy.clients && f in st.clients && st.clients[f].outq != []
    requires r == OnClientMessage(h, st.proxy, f, st.clients[f].outq[0], pick) && r.outcome == Ok && ClientMessageEnds(st, f, r, st')
    ensures FromClient(h, st, f, pick) == st'
  {
    assert AfterProxy(PopFromClient(st, f), r).clients == st'.clients;
    assert AfterProxy(PopFromClient(st, f), r).servers == st'.servers;
  }

  lemma AfterClientMessage(h: Hash, st: System, f: FlowId, pick: ServerId, r: ProxyResult, st': System)
    requires Reachable(h, st) && f in st.proxy.clients && f in st.clients && st.clients[f].outq != []
    requires PickOk(st.proxy, f, st.clients[f].outq[0], pick)
    requires r == OnClientMessage(h, st.proxy, f, st.clients[f].outq[0], pick) && r.outcome == Ok && ClientMessageEnds(st, f, r, st')
    ensures Reachable(h, st')
  {
    ReachableStep(h, st, ProxyReceivesFromClient(f, pick));
    ClientMessageGives(h, st, f, pick, r, st');
  }

  /** The same for a server's message. */
  ghost predicate ServerMessageEnds(st: System, s: ServerId, r: ProxyResult, st': System)
    requires s in st.servers && st.servers[s].outq != []
  {
    && st'.proxy == r.proxy && st'.nextServer == st.nextServer && r.toServers == map[]
    && st'.clients.Keys == st.clients.Keys
    && (forall g :: g in st.clients ==> st'.clients[g] == st.clients[g].(inq := st.clients[g].inq + Mail(r.toClients, g)))
    && st'.servers == st.servers[s := st.servers[s].(outq := st.servers[s].outq[1..])]
  }

  lemma ServerMessageGives(st: System, s: ServerId, order: seq<Md5>, r: ProxyResult, st': System)
    requires s in st.proxy.storages && s in st.servers && st.servers[s].outq != []
    requires r == OnServerMessage(st.proxy, s, st.servers[s].outq[0]) && r.outcome == Ok && ServerMessageEnds(st, s, r, st')
    ensures FromServer(st, s, order) == st'
  {
    forall t | t in st'.servers ensures AfterProxy(PopFromServer(st, s), r).servers[t] == st'.servers[t] {
      assert st'.servers[t].inq + [] == st'.servers[t].inq;
    }
    assert AfterProxy(PopFromServer(st, s), r).clients == st'.clients;
    assert AfterProxy(PopFromServer(st, s), r).servers == st'.servers;
  }

  lemma AfterServerMessage(h: Hash, st: System, s: ServerId, order: seq<Md5>, r: ProxyResult, st': System)
    requires Reachable(h, st) && s in st.proxy.storages && s in st.servers && st.servers[s].outq != []
    requires Enumerates(order, st.proxy.storages[s].subs.Keys)
    requires r == OnServerMessage(st.proxy, s, st.servers[s].outq[0]) && r.outcome == Ok && ServerMessageEnds(st, s, r, st')
    ensures Reachable(h, st')
  {
    ReachableStep(h, st, ProxyReceivesFromServer(s, order));
    ServerMessageGives(st, s, order, r, st');
  }

  // ----- An empty file -----

  function EmptyAgent(): AM.Agent {
    AM.Agent(AM.WaitingUploadResponse, [], [], [], 0, 0, 0)
  }

  function EmptySystem(c: Client, a: AM.Agent, inq: seq<Message>, outq: seq<Message>, ids: map<Md5, seq<Md5>>): System {
    System(Proxy(map[0 := c], map[], ids, 1), map[0 := ClientEnd(Uploader(a, true), true, inq, outq)], map[], 0)
  }

  lemma EmptyAsks(h: Hash)
    ensures Reachable(h, EmptySystem(NewClient, EmptyAgent(), [], [UploadRequest([])], map[]))
  {
    StartReachable(h);
    ReachableStep(h, Start(), ConnectUploader([]));
    assert Md5s([]) == [];
  }

  lemma EmptyAnswered(h: Hash)
    ensures Reachable(h, EmptySystem(NewClient.(phase := WaitingUploadBlock), EmptyAgent(), [UploadResponse([])], [], map[]))
  {
    var st := EmptySystem(NewClient, EmptyAgent(), [], [UploadRequest([])], map[]);
    EmptyAsks(h);
    assert [UploadRequest([])][1..] == [];
    AfterClientMessage(h, st, 0, 0, OnUploadRequest(st.proxy, 0, []),
                       EmptySystem(NewClient.(phase := WaitingUploadBlock), EmptyAgent(), [UploadResponse([])], [], map[]));
  }

  lemma EmptySent(h: Hash)
    ensures Reachable(h, EmptySystem(NewClient.(phase := WaitingUploadBlock), EmptyAgent().(phase := AM.WaitingFinalResult), [], [UploadAllBlocks], map[]))
  {
    var st := EmptySystem(NewClient.(phase := WaitingUploadBlock), EmptyAgent(), [UploadResponse([])], [], map[]);
    EmptyAnswered(h);
    ReachableStep(h, st, ClientReceives(0));
    assert [UploadResponse([])][1..] == [];
    assert ClientReceive(st.clients[0]) == ClientEnd(Uploader(EmptyAgent().(phase := AM.WaitingFinalResult), true), true, [], [UploadAllBlocks]);
    assert Apply(h, st, ClientReceives(0))
        == EmptySystem(NewClient.(phase := WaitingUploadBlock), EmptyAgent().(phase := AM.WaitingFinalResult), [], [UploadAllBlocks], map[]);
  }

  lemma EmptyRegistered(h: Hash)
    ensures Reachable(h, EmptySystem(NewClient.(phase := HaveUploadedAllBlocks), EmptyAgent().(phase := AM.WaitingFinalResult),
                                     [FileStoreSucc(h([]))], [], map[h([]) := []]))
  {
    var st := EmptySystem(NewClient.(phase := WaitingUploadBlock), EmptyAgent().(phase := AM.WaitingFinalResult), [], [UploadAllBlocks], map[]);
    EmptySent(h);
    assert [UploadAllBlocks][1..] == [];
    assert FileId(h, []) == h([]);
    AfterClientMessage(h, st, 0, 0, OnUploadAllBlocks(h, st.proxy, 0),
                       EmptySystem(NewClient.(phase := HaveUploadedAllBlocks), EmptyAgent().(phase := AM.WaitingFinalResult),
                                   [FileStoreSucc(h([]))], [], map[h([]) := []]));
  }

  /** Five steps: a client stores an empty file, another asks for it, and handling that reads beyond an empty list. */
  lemma EmptyFileStopsProxy(h: Hash)
    ensures exists st, f, pick ::
              && Reachable(h, st) && IsDownloader(st, f) && f in st.proxy.clients
              && st.clients[f].outq == [DownloadRequest(h([]), [])] && PickOk(st.proxy, f, st.clients[f].outq[0], pick)
              && OnClientMessage(h, st.proxy, f, st.clients[f].outq[0], pick).outcome == Exit
  {
    var st := EmptySystem(NewClient.(phase := HaveUploadedAllBlocks), EmptyAgent().(phase := AM.WaitingFinalResult),
                          [FileStoreSucc(h([]))], [], map[h([]) := []]);
    EmptyRegistered(h);
    ReachableStep(h, st, ConnectDownloader(h([])));
    var st' := Apply(h, st, ConnectDownloader(h([])));
    assert IsDownloader(st', 1) && PickOk(st'.proxy, 1, st'.clients[1].outq[0], 0);
  }

  // ----- Two uploads of the same file -----

  /** One block of two pieces. */
  function File(): Bytes {
    seq(PIECE_SIZE + 1, _ => 0 as byte)
  }

  function Name(h: Hash): Md5 {
    h(File())
  }

  function Head(h: Hash, f: FlowId): Message {
    UploadBlock(Name(h), 0, f, false, File()[..PIECE_SIZE])
  }

  function Last(h: Hash, f: FlowId): Message {
    UploadBlock(Name(h), 1, f, true, File()[PIECE_SIZE..])
  }

  function Asking(h: Hash): AM.Agent {
    AM.Agent(AM.WaitingUploadResponse, File(), [Block(Name(h), 0, PIECE_SIZE + 1)], [], 0, 0, 0)
  }

  function HalfWay(h: Hash): AM.Agent {
    Asking(h).(phase := AM.UploadingBlocks, upload := [Name(h)], offset := PIECE_SIZE, piece := 1)
  }

  function AllSent(h: Hash): AM.Agent {
    HalfWay(h).(phase := AM.WaitingBlockAck, offset := PIECE_SIZE + 1, piece := 2)
  }

  function Busy(a: AM.Agent, inq: seq<Message>, outq: seq<Message>): ClientEnd {
    ClientEnd(Uploader(a, true), true, inq, outq)
  }

  function Told(h: Hash): Client {
    NewClient.(phase := WaitingUploadBlock, uploading := [Name(h)])
  }

  function EmptyServer(): SM.Server {
    SM.Server(SM.Working, [], 0, {}, map[], map[], map[], map[])
  }

  function Serving(sv: SM.Server, inq: seq<Message>, outq: seq<Message>): ServerEnd {
    ServerEnd(sv, true, true, inq, outq)
  }

  /** Two clients and one server. */
  function Two(c0: Client, c1: Client, x: Storage, e0: ClientEnd, e1: ClientEnd, e: ServerEnd): System {
    System(Proxy(map[0 := c0, 1 := c1], map[0 := x], map[], 2), map[0 := e0, 1 := e1], map[0 := e], 1)
  }

  function Ready(flows: seq<FlowId>, h: Hash): Storage {
    Storage(Working, {}, if flows == [] then map[] else map[Name(h) := flows])
  }

  lemma OneBlock(h: Hash)
    ensures Split(h, File(), 0) == [Block(Name(h), 0, PIECE_SIZE + 1)] && Md5s(Split(h, File(), 0)) == [Name(h)]
  {
    assert File()[0..PIECE_SIZE + 1] == File();
    assert Split(h, File(), PIECE_SIZE + 1) == [];
  }

  lemma ServerConnects(h: Hash)
    ensures Reachable(h, System(Proxy(map[], map[0 := NewStorage], map[], 0), map[], map[0 := Serving(EmptyServer(), [], [TransferBlockSet([], true)])], 1))
  {
    var none: map<Md5, Bytes> := map[];
    var act := ConnectServer(none, []);
    StartReachable(h);
    assert Enumerates<Md5>([], none.Keys);
    ReachableStep(h, Start(), act);
    assert none.Keys == {};
    assert NewServer(none, []) == Serving(EmptyServer(), [], [TransferBlockSet([], true)]);
    assert Apply(h, Start(), act) == Join(Start(), NewServer(none, []));
  }

  lemma ServerReady(h: Hash)
    ensures Reachable(h, System(Proxy(map[], map[0 := Ready([], h)], map[], 0), map[], map[0 := Serving(EmptyServer(), [], [])], 1))
  {
    var st := System(Proxy(map[], map[0 := NewStorage], map[], 0), map[], map[0 := Serving(EmptyServer(), [], [TransferBlockSet([], true)])], 1);
    var st' := System(Proxy(map[], map[0 := Ready([], h)], map[], 0), map[], map[0 := Serving(EmptyServer(), [], [])], 1);
    ServerConnects(h);
    ServerKnown(h);
    assert Enumerates<Md5>([], st.proxy.storages[0].subs.Keys);
    assert [TransferBlockSet([], true)][1..] == [];
    assert st'.servers == st.servers[0 := st.servers[0].(outq := st.servers[0].outq[1..])];
    AfterServerMessage(h, st, 0, [], Silent(st'.proxy, Ok), st');
  }

  lemma ServerKnown(h: Hash)
    ensures OnServerMessage(Proxy(map[], map[0 := NewStorage], map[], 0), 0, TransferBlockSet([], true))
         == Silent(Proxy(map[], map[0 := Ready([], h)], map[], 0), Ok)
  {
    var ms: seq<Md5> := [];
    assert (set m | m in ms) == {};
    assert NewStorage.md5s + {} == {};
    assert map[0 := NewStorage][0 := NewStorage.(md5s := NewStorage.md5s + {})] == map[0 := NewStorage];
    assert Learn(Proxy(map[], map[0 := NewStorage], map[], 0), 0, {}) == Proxy(map[], map[0 := NewStorage], map[], 0);
  }

  /** Two clients have connected to upload, and no block has been sent yet. */
  function Asked(h: Hash, c0: Client, c1: Client, e0: ClientEnd, e1: ClientEnd): System {
    Two(c0, c1, Ready([], h), e0, e1, Serving(EmptyServer(), [], []))
  }

  function AskingEnd(h: Hash): ClientEnd {
    Busy(Asking(h), [], [UploadRequest([Name(h)])])
  }

  function AnsweredEnd(h: Hash): ClientEnd {
    Busy(Asking(h), [UploadResponse([Name(h)])], [])
  }

  lemma BothAsk(h: Hash)
    ensures Reachable(h, Asked(h, NewClient, NewClient, AskingEnd(h), AskingEnd(h)))
  {
    var st := System(Proxy(map[], map[0 := Ready([], h)], map[], 0), map[], map[0 := Serving(EmptyServer(), [], [])], 1);
    var act := ConnectUploader(File());
    ServerReady(h);
    OneBlock(h);
    ReachableStep(h, st, act);
    ReachableStep(h, Apply(h, st, act), act);
    assert Apply(h, Apply(h, st, act), act) == Asked(h, NewClient, NewClient, AskingEnd(h), AskingEnd(h));
  }

  lemma NeedsAll(p: Proxy, m: Md5)
    requires forall s :: s in p.storages ==> p.storages[s].md5s == {}
    ensures NeedUpload(p, [m]) == [m]
  {
    assert [m][1..] == [];
  }

  lemma OneAnswered(h: Hash)
    ensures Reachable(h, Asked(h, Told(h), NewClient, AnsweredEnd(h), AskingEnd(h)))
  {
    var st := Asked(h, NewClient, NewClient, AskingEnd(h), AskingEnd(h));
    BothAsk(h);
    NeedsAll(st.proxy, Name(h));
    AfterClientMessage(h, st, 0, 0, OnUploadRequest(st.proxy, 0, [Name(h)]), Asked(h, Told(h), NewClient, AnsweredEnd(h), AskingEnd(h)));
  }

  lemma BothAnswered(h: Hash)
    ensures Reachable(h, Asked(h, Told(h), Told(h), AnsweredEnd(h), AnsweredEnd(h)))
  {
    var st := Asked(h, Told(h), NewClient, AnsweredEnd(h), AskingEnd(h));
    OneAnswered(h);
    NeedsAll(st.proxy, Name(h));
    AfterClientMessage(h, st, 1, 0, OnUploadRequest(st.proxy, 1, [Name(h)]), Asked(h, Told(h), Told(h), AnsweredEnd(h), AnsweredEnd(h)));
  }

  lemma FirstPiece(h: Hash)
    ensures ClientReceive(AnsweredEnd(h)) == SendingEnd(h)
  {
    assert File()[0..PIECE_SIZE] == File()[..PIECE_SIZE];
  }

  lemma SecondPiece(h: Hash)
    ensures ClientWritten(Busy(HalfWay(h), [], [])) == Busy(AllSent(h), [], [Last(h, 0)])
  {
    assert File()[PIECE_SIZE..PIECE_SIZE + 1] == File()[PIECE_SIZE..];
  }

  function SendingEnd(h: Hash): ClientEnd {
    Busy(HalfWay(h), [], [Head(h, 0)])
  }

  lemma OneSends(h: Hash)
    ensures Reachable(h, Asked(h, Told(h), Told(h), SendingEnd(h), AnsweredEnd(h)))
  {
    var st := Asked(h, Told(h), Told(h), AnsweredEnd(h), AnsweredEnd(h));
    BothAnswered(h);
    FirstPiece(h);
    ReachableStep(h, st, ClientReceives(0));
    assert Apply(h, st, ClientReceives(0)) == Asked(h, Told(h), Told(h), SendingEnd(h), AnsweredEnd(h));
  }

  lemma BothSend(h: Hash)
    ensures Reachable(h, Asked(h, Told(h), Told(h), SendingEnd(h), SendingEnd(h)))
  {
    var st := Asked(h, Told(h), Told(h), SendingEnd(h), AnsweredEnd(h));
    OneSends(h);
    FirstPiece(h);
    ReachableStep(h, st, ClientReceives(1));
    assert Apply(h, st, ClientReceives(1)) == Asked(h, Told(h), Told(h), SendingEnd(h), SendingEnd(h));
  }

  function Placed(h: Hash): Client {
    Told(h).(relay := [0])
  }

  /** The first client's first piece has reached the server's channel. */
  function OnePlaced(h: Hash): System {
    Two(Placed(h), Told(h), Ready([0], h), Busy(HalfWay(h), [], []), Busy(HalfWay(h), [], [Head(h, 0)]), Serving(EmptyServer(), [Head(h, 0)], []))
  }

  function BothPlaced(h: Hash): System {
    Two(Placed(h), Placed(h), Ready([0, 1], h), Busy(HalfWay(h), [], []), Busy(HalfWay(h), [], []),
        Serving(EmptyServer(), [Head(h, 0), Head(h, 1)], []))
  }

  lemma OnePlaces(h: Hash)
    ensures OnUploadBlock(Asked(h, Told(h), Told(h), SendingEnd(h), SendingEnd(h)).proxy, 0, Head(h, 0), 0)
         == ProxyResult(OnePlaced(h).proxy, map[], map[0 := [Head(h, 0)]], Ok)
  {
    var subs: map<Md5, seq<FlowId>> := map[];
    var none: seq<FlowId> := [];
    assert none + [0] == [0];
    assert Subscribe(subs, Name(h), 0) == map[Name(h) := [0]];
    assert map[0 := Told(h), 1 := Told(h)][0 := Placed(h)] == map[0 := Placed(h), 1 := Told(h)];
    assert map[0 := Ready([], h)][0 := Ready([0], h)] == map[0 := Ready([0], h)];
  }

  lemma BothPlace(h: Hash)
    ensures OnUploadBlock(OnePlaced(h).proxy, 1, Head(h, 0), 0) == ProxyResult(BothPlaced(h).proxy, map[], map[0 := [Head(h, 1)]], Ok)
  {
    var subs: map<Md5, seq<FlowId>> := map[Name(h) := [0]];
    assert [0] + [1] == [0, 1];
    assert Subscribe(subs, Name(h), 1) == map[Name(h) := [0, 1]];
    assert map[0 := Placed(h), 1 := Told(h)][1 := Placed(h)] == map[0 := Placed(h), 1 := Placed(h)];
    assert map[0 := Ready([0], h)][0 := Ready([0, 1], h)] == map[0 := Ready([0, 1], h)];
  }

  lemma OneIsPlaced(h: Hash)
    ensures Reachable(h, OnePlaced(h))
  {
    var st := Asked(h, Told(h), Told(h), SendingEnd(h), SendingEnd(h));
    BothSend(h);
    OnePlaces(h);
    AfterClientMessage(h, st, 0, 0, OnUploadBlock(st.proxy, 0, Head(h, 0), 0), OnePlaced(h));
  }

  lemma BothArePlaced(h: Hash)
    ensures Reachable(h, BothPlaced(h))
  {
    OneIsPlaced(h);
    BothPlace(h);
    AfterClientMessage(h, OnePlaced(h), 1, 0, OnUploadBlock(OnePlaced(h).proxy, 1, Head(h, 0), 0), BothPlaced(h));
  }

  /** The first client has sent its block in full. */
  function OneSent(h: Hash, outq: seq<Message>, e: ServerEnd): System {
    Two(Placed(h), Placed(h), Ready([0, 1], h), Busy(AllSent(h), [], outq), Busy(HalfWay(h), [], []), e)
  }

  lemma OneWrites(h: Hash)
    ensures Reachable(h, OneSent(h, [Last(h, 0)], Serving(EmptyServer(), [Head(h, 0), Head(h, 1)], [])))
  {
    BothArePlaced(h);
    SecondPiece(h);
    ReachableStep(h, BothPlaced(h), ClientWriteComplete(0));
    assert Apply(h, BothPlaced(h), ClientWriteComplete(0)) == OneSent(h, [Last(h, 0)], Serving(EmptyServer(), [Head(h, 0), Head(h, 1)], []));
  }

  lemma LastRelayed(h: Hash, e: ServerEnd)
    ensures
      var p := OneSent(h, [Last(h, 0)], e).proxy;
      OnUploadBlock(p, 0, Last(h, 0), 0) == ProxyResult(p, map[], map[0 := [Last(h, 0)]], Ok)
  {
  }

  lemma OneHasSent(h: Hash)
    ensures Reachable(h, OneSent(h, [], Serving(EmptyServer(), [Head(h, 0), Head(h, 1), Last(h, 0)], [])))
  {
    var e := Serving(EmptyServer(), [Head(h, 0), Head(h, 1)], []);
    var st := OneSent(h, [Last(h, 0)], e);
    OneWrites(h);
    LastRelayed(h, e);
    AfterClientMessage(h, st, 0, 0, OnUploadBlock(st.proxy, 0, Last(h, 0), 0),
                       OneSent(h, [], Serving(EmptyServer(), [Head(h, 0), Head(h, 1), Last(h, 0)], [])));
  }

  function Begun(h: Hash): SM.Upload {
    SM.Upload(Some(Name(h)), File()[..PIECE_SIZE])
  }

  function Holding(h: Hash): SM.Server {
    EmptyServer().(items := {Name(h)}, files := map[Name(h) := File()], uploads := map[1 := Begun(h)])
  }

  lemma AfterServerReceives(h: Hash, e: ServerEnd, e': ServerEnd)
    requires Reachable(h, OneSent(h, [], e)) && e.open && e.inq != [] && e' == ServerReceive(h, e)
    ensures Reachable(h, OneSent(h, [], e'))
  {
    ReachableStep(h, OneSent(h, [], e), ServerReceives(0));
    assert Apply(h, OneSent(h, [], e), ServerReceives(0)) == OneSent(h, [], e');
  }

  lemma HeadTaken(h: Hash, f: FlowId, uploads: map<FlowId, SM.Upload>, rest: seq<Message>)
    requires f !in uploads
    ensures ServerReceive(h, Serving(EmptyServer().(uploads := uploads), [Head(h, f)] + rest, []))
         == Serving(EmptyServer().(uploads := uploads[f := Begun(h)]), rest, [])
  {
    assert [] + File()[..PIECE_SIZE] == File()[..PIECE_SIZE];
    assert ([Head(h, f)] + rest)[1..] == rest;
  }

  lemma LastTaken(h: Hash)
    ensures ServerReceive(h, Serving(EmptyServer().(uploads := map[0 := Begun(h), 1 := Begun(h)]), [Last(h, 0)], []))
         == Serving(Holding(h), [], [UploadBlockAck(Name(h))])
  {
    assert File()[..PIECE_SIZE] + File()[PIECE_SIZE..] == File();
    assert [Last(h, 0)][1..] == [];
    assert map[0 := Begun(h), 1 := Begun(h)] - {0} == map[1 := Begun(h)];
  }

  /** The server has handled both first pieces and the last piece of the first client. */
  lemma ServerStores(h: Hash)
    ensures Reachable(h, OneSent(h, [], Serving(Holding(h), [], [UploadBlockAck(Name(h))])))
  {
    var e0 := Serving(EmptyServer(), [Head(h, 0), Head(h, 1), Last(h, 0)], []);
    var e1 := Serving(EmptyServer().(uploads := map[0 := Begun(h)]), [Head(h, 1), Last(h, 0)], []);
    var e2 := Serving(EmptyServer().(uploads := map[0 := Begun(h), 1 := Begun(h)]), [Last(h, 0)], []);
    OneHasSent(h);
    HeadTaken(h, 0, map[], [Head(h, 1), Last(h, 0)]);
    assert [Head(h, 0)] + [Head(h, 1), Last(h, 0)] == e0.inq;
    AfterServerReceives(h, e0, e1);
    HeadTaken(h, 1, map[0 := Begun(h)], [Last(h, 0)]);
    assert [Head(h, 1)] + [Last(h, 0)] == e1.inq;
    AfterServerReceives(h, e1, e2);
    LastTaken(h);
    AfterServerReceives(h, e2, Serving(Holding(h), [], [UploadBlockAck(Name(h))]));
  }

  /** One acknowledgement has answered both clients, and the second is still sending. */
  function BothReplied(h: Hash): System {
    Two(Placed(h).(succ := 1), Placed(h).(succ := 1), Storage(Working, {Name(h)}, map[]),
        Busy(AllSent(h), [UploadBlockAck(Name(h))], []), Busy(HalfWay(h), [UploadBlockAck(Name(h))], []), Serving(Holding(h), [], []))
  }

  lemma BothVote(h: Hash)
    ensures CastVotes(Ballot(map[0 := Placed(h), 1 := Placed(h)], map[]), VotesOn(Name(h), [0, 1]), true)
         == Ballot(map[0 := Placed(h).(succ := 1), 1 := Placed(h).(succ := 1)], map[0 := [UploadBlockAck(Name(h))], 1 := [UploadBlockAck(Name(h))]])
  {
    var c, c', ack := Placed(h), Placed(h).(succ := 1), [UploadBlockAck(Name(h))];
    var b0, b1 := Ballot(map[0 := c, 1 := c], map[]), Ballot(map[0 := c', 1 := c], map[0 := ack]);
    var b2 := Ballot(map[0 := c', 1 := c'], map[0 := ack, 1 := ack]);
    var votes := VotesOn(Name(h), [0, 1]);
    assert [] + ack == ack;
    assert CastVote(b0, Vote(Name(h), 0), true) == b1;
    assert CastVote(b1, Vote(Name(h), 1), true) == b2;
    assert votes == [Vote(Name(h), 0), Vote(Name(h), 1)];
    assert votes[1..] == [Vote(Name(h), 1)] && votes[1..][1..] == [];
    assert CastVotes(b1, votes[1..], true) == b2;
  }

  function Replies(h: Hash): ProxyResult {
    ProxyResult(BothReplied(h).proxy, map[0 := [UploadBlockAck(Name(h))], 1 := [UploadBlockAck(Name(h))]], map[], Ok)
  }

  lemma BothGet(h: Hash)
    ensures ServerMessageEnds(OneSent(h, [], Serving(Holding(h), [], [UploadBlockAck(Name(h))])), 0, Replies(h), BothReplied(h))
  {
    assert [UploadBlockAck(Name(h))][1..] == [];
  }

  lemma BothAnswer(h: Hash)
    ensures OnServerMessage(OneSent(h, [], Serving(Holding(h), [], [UploadBlockAck(Name(h))])).proxy, 0, UploadBlockAck(Name(h))) == Replies(h)
  {
    var p := OneSent(h, [], Serving(Holding(h), [], [UploadBlockAck(Name(h))])).proxy;
    var subs: map<Md5, seq<FlowId>> := map[Name(h) := [0, 1]];
    BothVote(h);
    assert subs - {Name(h)} == map[];
    var r := Publish(p, 0, Name(h), true);
    assert r.proxy.storages == map[0 := Storage(Working, {}, map[])];
    var none: set<Md5> := {};
    assert none + {Name(h)} == {Name(h)};
    assert Learn(r.proxy, 0, {Name(h)}).storages == map[0 := Storage(Working, {Name(h)}, map[])];
  }

  lemma BothAreReplied(h: Hash)
    ensures Reachable(h, BothReplied(h))
  {
    var st := OneSent(h, [], Serving(Holding(h), [], [UploadBlockAck(Name(h))]));
    ServerStores(h);
    BothAnswer(h);
    BothGet(h);
    assert Enumerates([Name(h)], {Name(h)});
    assert st.proxy.storages[0].subs.Keys == {Name(h)};
    AfterServerMessage(h, st, 0, [Name(h)], Replies(h), BothReplied(h));
  }

  /** Two clients store the same file of two pieces on one server. The acknowledgement of the first client's block
      reaches the second while that is still sending; it ignores it, and has then lost its only reply. */
  lemma ReplyOverlooked(h: Hash)
    ensures exists st ::
              && Reachable(h, st) && Enabled(h, st, ClientReceives(1)) && IsUploader(st, 1) && 1 in st.proxy.clients
              && !Overlooked(st, 1) && Overlooked(Apply(h, st, ClientReceives(1)), 1)
  {
    var st := BothReplied(h);
    BothAreReplied(h);
    assert st.clients[1].inq == [UploadBlockAck(Name(h))];
    assert Apply(h, st, ClientReceives(1)).clients[1] == Busy(HalfWay(h), [], []);
    assert !Overlooked(st, 1) && Overlooked(Apply(h, st, ClientReceives(1)), 1);
  }
}
