/** The whole system as steps: clients, the proxy, storage servers and the FIFO channels between
    them. A handler is one step, since every process is single-threaded; the two ends of a session
    close independently, and a closed end receives nothing more. */
module SystemModel {
  import opened Types
  import opened FileBlocks
  import SM = ServerModel
  import AM = AgentModel
  import DM = DownloaderModel
  import opened ProxyModel

  /** `writing` is Session::writing_: a write is under way, so a write-complete event is due. */
  datatype Party =
    | Uploader(agent: AM.Agent, writing: bool)
    | Downloader(downloader: DM.Downloader)

  /** A client with the two channels of its session: `inq` from the proxy, `outq` to the proxy. */
  datatype ClientEnd = ClientEnd(party: Party, open: bool, inq: seq<Message>, outq: seq<Message>)

  datatype ServerEnd = ServerEnd(server: SM.Server, open: bool, writing: bool, inq: seq<Message>, outq: seq<Message>)

  /** Clients are known by the flow id the proxy gives them; the ids of storage servers are ours.
      Ends are kept after they close, so that what they stored or wrote can be spoken about. */
  datatype System = System(
    proxy: Proxy,
    clients: map<FlowId, ClientEnd>,
    servers: map<ServerId, ServerEnd>,
    nextServer: nat)

  datatype Action =
    | ConnectUploader(file: Bytes)
    | ConnectDownloader(id: Md5)
    | ConnectServer(files: map<Md5, Bytes>, order: seq<Md5>)
    | ClientReceives(flow: FlowId)
    | ClientWriteComplete(flow: FlowId)
    | ClientCloses(flow: FlowId)
    | ServerReceives(server: ServerId)
    | ServerWriteComplete(server: ServerId)
    | ServerCloses(server: ServerId)
    | ProxyReceivesFromClient(flow: FlowId, pick: ServerId)
    | ProxyReceivesFromServer(server: ServerId, order: seq<Md5>)
    | ProxyClosesClient(flow: FlowId)
    | ProxyClosesServer(server: ServerId, order: seq<Md5>)

  // ----- Ends -----

  function ToClients(clients: map<FlowId, ClientEnd>, mail: map<FlowId, seq<Message>>): map<FlowId, ClientEnd> {
    map f | f in clients :: clients[f].(inq := clients[f].inq + Mail(mail, f))
  }

  function ToServers(servers: map<ServerId, ServerEnd>, mail: map<ServerId, seq<Message>>): map<ServerId, ServerEnd> {
    map s | s in servers :: servers[s].(inq := servers[s].inq + Mail(mail, s))
  }

  function AfterAgent(e: ClientEnd, r: AM.AgentResult, writing: bool): ClientEnd {
    e.(party := Uploader(r.agent, writing || r.sends != []), open := e.open && r.outcome == Ok, outq := e.outq + r.sends)
  }

  function AfterDownloader(e: ClientEnd, r: DM.DownloaderResult): ClientEnd {
    e.(party := Downloader(r.downloader), open := r.downloader.phase == DM.Receiving, outq := e.outq + r.sends)
  }

  function AfterServer(e: ServerEnd, r: SM.ServerResult, writing: bool): ServerEnd {
    e.(server := r.server, writing := writing || r.sends != [], open := e.open && r.outcome == Ok, outq := e.outq + r.sends)
  }

  function ClientReceive(e: ClientEnd): ClientEnd
    requires e.inq != []
  {
    var e' := e.(inq := e.inq[1..]);
    match e.party
    case Uploader(a, writing) => AfterAgent(e', AM.OnMessage(a, e.inq[0]), writing)
    case Downloader(d) => AfterDownloader(e', DM.OnMessage(d, e.inq[0]))
  }

  function ServerReceive(h: Hash, e: ServerEnd): ServerEnd
    requires e.inq != []
  {
    AfterServer(e.(inq := e.inq[1..]), SM.OnMessage(h, e.server, e.inq[0]), e.writing)
  }

  function NewServer(files: map<Md5, Bytes>, order: seq<Md5>): ServerEnd {
    var r := SM.OnConnection(files, order);
    ServerEnd(r.server, true, true, [], r.sends)
  }

  // ----- The proxy's steps -----

  function AfterProxy(st: System, r: ProxyResult): System {
    st.(proxy := r.proxy, clients := ToClients(st.clients, r.toClients), servers := ToServers(st.servers, r.toServers))
  }

  function CloseClient(st: System, f: FlowId): System
    requires f in st.proxy.clients
  {
    AfterProxy(st, OnClientClose(st.proxy, f))
  }

  function CloseServer(st: System, s: ServerId, order: seq<Md5>): System
    requires s in st.proxy.storages
  {
    AfterProxy(st, OnServerClose(st.proxy, s, order))
  }

  function PopFromClient(st: System, f: FlowId): System
    requires f in st.clients && st.clients[f].outq != []
  {
    st.(clients := st.clients[f := st.clients[f].(outq := st.clients[f].outq[1..])])
  }

  function PopFromServer(st: System, s: ServerId): System
    requires s in st.servers && st.servers[s].outq != []
  {
    st.(servers := st.servers[s := st.servers[s].(outq := st.servers[s].outq[1..])])
  }

  // ----- Steps -----

  ghost predicate Enabled(h: Hash, st: System, act: Action) {
    match act
    case ConnectUploader(_) => true
    case ConnectDownloader(_) => true
    case ConnectServer(files, order) =>
      Enumerates(order, files.Keys) && forall m :: m in files ==> h(files[m]) == m
    case ClientReceives(f) => f in st.clients && st.clients[f].open && st.clients[f].inq != []
    case ClientWriteComplete(f) =>
      f in st.clients && st.clients[f].open && st.clients[f].party.Uploader? && st.clients[f].party.writing
    case ClientCloses(f) => f in st.clients
    case ServerReceives(s) => s in st.servers && st.servers[s].open && st.servers[s].inq != []
    case ServerWriteComplete(s) => s in st.servers && st.servers[s].open && st.servers[s].writing
    case ServerCloses(s) => s in st.servers
    case ProxyReceivesFromClient(f, pick) =>
      && f in st.proxy.clients && f in st.clients && st.clients[f].outq != []
      && PickOk(st.proxy, f, st.clients[f].outq[0], pick)
      && OnClientMessage(h, st.proxy, f, st.clients[f].outq[0], pick).outcome != Exit
    case ProxyReceivesFromServer(s, order) =>
      && s in st.proxy.storages && s in st.servers && st.servers[s].outq != []
      && Enumerates(order, st.proxy.storages[s].subs.Keys)
    case ProxyClosesClient(f) => f in st.proxy.clients
    case ProxyClosesServer(s, order) =>
      s in st.proxy.storages && Enumerates(order, st.proxy.storages[s].subs.Keys)
  }

  function WithClient(st: System, f: FlowId, e: ClientEnd): System {
    st.(clients := st.clients[f := e])
  }

  function WithServer(st: System, s: ServerId, e: ServerEnd): System {
    st.(servers := st.servers[s := e])
  }

  /** clientOnConnection: the next flow id is given to the client. */
  function Connect(st: System, e: ClientEnd): System {
    var f := st.proxy.nextFlow;
    st.(proxy := st.proxy.(clients := st.proxy.clients[f := NewClient], nextFlow := f + 1), clients := st.clients[f := e])
  }

  function NewUploader(h: Hash, file: Bytes): ClientEnd {
    var r := AM.OnConnection(h, file);
    ClientEnd(Uploader(r.agent, true), true, [], r.sends)
  }

  function NewDownloader(id: Md5): ClientEnd {
    var r := DM.OnConnection(id);
    ClientEnd(Downloader(r.downloader), true, [], r.sends)
  }

  /** storageOnConnection, with the server's own onConnection. */
  function Join(st: System, e: ServerEnd): System {
    var s := st.nextServer;
    st.(proxy := SetStorage(st.proxy, s, NewStorage), servers := st.servers[s := e], nextServer := s + 1)
  }

  function ClientWritten(e: ClientEnd): ClientEnd
    requires e.party.Uploader?
  {
    AfterAgent(e, AM.OnWriteComplete(e.party.agent), false)
  }

  function ServerWritten(e: ServerEnd): ServerEnd {
    AfterServer(e, SM.OnWriteComplete(e.server), false)
  }

  function Shut(e: ClientEnd): ClientEnd {
    e.(open := false)
  }

  function Closed(e: ServerEnd): ServerEnd {
    e.(open := false)
  }

  function FromClient(h: Hash, st: System, f: FlowId, pick: ServerId): System
    requires f in st.proxy.clients && f in st.clients && st.clients[f].outq != []
  {
    var r := OnClientMessage(h, st.proxy, f, st.clients[f].outq[0], pick);
    var st' := AfterProxy(PopFromClient(st, f), r);
    if r.outcome == Close then CloseClient(st', f) else st'
  }

  /** Nobody reads on in the channel of a server that is dropped, so the message that did not fit stays there. */
  function FromServer(st: System, s: ServerId, order: seq<Md5>): System
    requires s in st.proxy.storages && s in st.servers && st.servers[s].outq != []
  {
    var r := OnServerMessage(st.proxy, s, st.servers[s].outq[0]);
    if r.outcome == Close then CloseServer(st, s, order)
    else AfterProxy(PopFromServer(st, s), r)
  }

  /** The only step a process does not survive is one in which it exits: then `Enabled` is false for
      the proxy, and the end is closed for the others. */
  ghost function Apply(h: Hash, st: System, act: Action): System
    requires Enabled(h, st, act)
  {
    match act
    case ConnectUploader(file) => Connect(st, NewUploader(h, file))
    case ConnectDownloader(id) => Connect(st, NewDownloader(id))
    case ConnectServer(files, order) => Join(st, NewServer(files, order))
    case ClientReceives(f) => WithClient(st, f, ClientReceive(st.clients[f]))
    case ClientWriteComplete(f) => WithClient(st, f, ClientWritten(st.clients[f]))
    case ClientCloses(f) => WithClient(st, f, Shut(st.clients[f]))
    case ServerReceives(s) => WithServer(st, s, ServerReceive(h, st.servers[s]))
    case ServerWriteComplete(s) => WithServer(st, s, ServerWritten(st.servers[s]))
    case ServerCloses(s) => WithServer(st, s, Closed(st.servers[s]))
    case ProxyReceivesFromClient(f, pick) => FromClient(h, st, f, pick)
    case ProxyReceivesFromServer(s, order) => FromServer(st, s, order)
    case ProxyClosesClient(f) => CloseClient(st, f)
    case ProxyClosesServer(s, order) => CloseServer(st, s, order)
  }

  // ----- Runs -----

  ghost predicate Held(st: System, m: Md5) {
    exists s :: s in st.servers && m in st.servers[s].server.files
  }

  /** A fresh proxy. Its id table and the stores of servers met earlier may be left over from
      before: then each file id is the hash of its list, and every listed block is stored. */
  ghost predicate Initial(h: Hash, st: System) {
    && st.clients == map[] && st.proxy.clients == map[] && st.proxy.storages == map[]
    && (forall s :: s in st.servers ==>
          && s < st.nextServer
          && var e := st.servers[s];
          && !e.open && e.inq == [] && e.outq == [] && SM.ServerOk(h, e.server)
          && e.server.phase == SM.Working && e.server.uploads == map[] && e.server.downloads == map[])
    && (forall id :: id in st.proxy.ids ==>
          && id == FileId(h, st.proxy.ids[id])
          && forall m :: m in st.proxy.ids[id] ==> Held(st, m))
  }

  ghost predicate IsRun(h: Hash, run: seq<System>, acts: seq<Action>) {
    && |run| == |acts| + 1
    && Initial(h, run[0])
    && forall i :: 0 <= i < |acts| ==> Enabled(h, run[i], acts[i]) && run[i + 1] == Apply(h, run[i], acts[i])
  }
}
