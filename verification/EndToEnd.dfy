/** What a run promises from one state to a later one, and from an uploaded file to a downloaded one. */
module EndToEnd {
  import opened Types
  import opened FileBlocks
  import SM = ServerModel
  import AM = AgentModel
  import DM = DownloaderModel
  import opened ProxyModel
  import opened SystemModel
  import opened ServerLinks
  import opened Invariant
  import opened Frames
  import opened Runs
  import opened Safety

  // ----- Nothing is forgotten -----

  lemma ClientMessageIds(h: Hash, p: Proxy, f: FlowId, msg: Message, pick: ServerId)
    requires f in p.clients
    ensures
      var p' := OnClientMessage(h, p, f, msg, pick).proxy;
      forall id :: id in p.ids ==> id in p'.ids && p'.ids[id] == p.ids[id]
  {
  }

  lemma ServerMessageIds(p: Proxy, s: ServerId, msg: Message)
    requires s in p.storages
    ensures OnServerMessage(p, s, msg).proxy.ids == p.ids
  {
  }

  /** `st'` has the servers of `st` with their stores, whatever was sent to them. */
  ghost predicate SameStores(st: System, st': System) {
    forall s :: s in st.servers ==> s in st'.servers && st'.servers[s].server == st.servers[s].server
  }

  lemma AfterProxyStores(st: System, r: ProxyResult)
    ensures SameStores(st, AfterProxy(st, r)) && AfterProxy(st, r).proxy == r.proxy
  {
  }

  lemma FromClientGrows(h: Hash, st: System, f: FlowId, pick: ServerId)
    requires f in st.proxy.clients && f in st.clients && st.clients[f].outq != []
    ensures Grown(st, FromClient(h, st, f, pick))
  {
    var r := OnClientMessage(h, st.proxy, f, st.clients[f].outq[0], pick);
    var st' := AfterProxy(PopFromClient(st, f), r);
    ClientMessageIds(h, st.proxy, f, st.clients[f].outq[0], pick);
    AfterProxyStores(PopFromClient(st, f), r);
    if r.outcome == Close {
      AfterProxyStores(st', OnClientClose(st'.proxy, f));
    }
  }

  lemma FromServerGrows(st: System, s: ServerId, order: seq<Md5>)
    requires s in st.proxy.storages && s in st.servers && st.servers[s].outq != []
    ensures Grown(st, FromServer(st, s, order))
  {
    var r := OnServerMessage(st.proxy, s, st.servers[s].outq[0]);
    ServerMessageIds(st.proxy, s, st.servers[s].outq[0]);
    if r.outcome == Close {
      AfterProxyStores(st, OnServerClose(st.proxy, s, order));
    } else {
      AfterProxyStores(PopFromServer(st, s), r);
    }
  }

  lemma WithServerGrows(st: System, s: ServerId, e': ServerEnd)
    requires s in st.servers && SM.Grows(st.servers[s].server, e'.server)
    ensures Grown(st, WithServer(st, s, e'))
  {
  }

  lemma ServerReceiveGrows(h: Hash, st: System, s: ServerId)
    requires ServersOk(h, st) && s in st.servers && st.servers[s].inq != []
    ensures Grown(st, WithServer(st, s, ServerReceive(h, st.servers[s])))
  {
    assert SM.Grows(st.servers[s].server, ServerReceive(h, st.servers[s]).server) by {
      ServerReceiveKeeps(h, st.servers[s]);
    }
    WithServerGrows(st, s, ServerReceive(h, st.servers[s]));
  }

  lemma ServerWriteGrows(h: Hash, st: System, s: ServerId)
    requires ServersOk(h, st) && s in st.servers
    ensures Grown(st, WithServer(st, s, ServerWritten(st.servers[s])))
  {
    assert SM.Grows(st.servers[s].server, ServerWritten(st.servers[s]).server) by {
      ServerWriteCompleteKeeps(h, st.servers[s]);
    }
    WithServerGrows(st, s, ServerWritten(st.servers[s]));
  }

  lemma ClientStepGrows(st: System, f: FlowId, e: ClientEnd)
    ensures Grown(st, WithClient(st, f, e)) && Grown(st, Connect(st, e))
  {
  }

  predicate IsProxyStep(act: Action) {
    act.ProxyReceivesFromClient? || act.ProxyReceivesFromServer? || act.ProxyClosesClient? || act.ProxyClosesServer?
  }

  lemma ProxyStepGrows(h: Hash, st: System, act: Action)
    requires Enabled(h, st, act) && IsProxyStep(act)
    ensures Grown(st, Apply(h, st, act))
  {
    match act
    case ProxyReceivesFromClient(f, pick) => FromClientGrows(h, st, f, pick);
    case ProxyReceivesFromServer(s, order) => FromServerGrows(st, s, order);
    case ProxyClosesClient(f) => AfterProxyStores(st, OnClientClose(st.proxy, f));
    case ProxyClosesServer(s, order) => AfterProxyStores(st, OnServerClose(st.proxy, s, order));
  }

  lemma EndStepGrows(h: Hash, st: System, act: Action)
    requires ServersOk(h, st) && Enabled(h, st, act) && !IsProxyStep(act)
    ensures Grown(st, Apply(h, st, act))
  {
    match act
    case ConnectUploader(file) => ClientStepGrows(st, 0, NewUploader(h, file));
    case ConnectDownloader(id) => ClientStepGrows(st, 0, NewDownloader(id));
    case ConnectServer(files, order) => JoinGrows(h, st, NewServer(files, order));
    case ClientReceives(f) => ClientStepGrows(st, f, ClientReceive(st.clients[f]));
    case ClientWriteComplete(f) => ClientStepGrows(st, f, ClientWritten(st.clients[f]));
    case ClientCloses(f) => ClientStepGrows(st, f, Shut(st.clients[f]));
    case ServerReceives(s) => ServerReceiveGrows(h, st, s);
    case ServerWriteComplete(s) => ServerWriteGrows(h, st, s);
    case ServerCloses(s) => WithServerGrows(st, s, Closed(st.servers[s]));
  }

  lemma StepGrows(h: Hash, st: System, act: Action)
    requires ServersOk(h, st) && Enabled(h, st, act)
    ensures Grown(st, Apply(h, st, act))
  {
    if IsProxyStep(act) {
      ProxyStepGrows(h, st, act);
    } else {
      EndStepGrows(h, st, act);
    }
  }

  lemma JoinGrows(h: Hash, st: System, e: ServerEnd)
    requires ServersOk(h, st)
    ensures Grown(st, Join(st, e))
  {
    assert st.nextServer !in st.servers;
  }

  lemma RunStepGrows(h: Hash, run: seq<System>, acts: seq<Action>, j: nat)
    requires IsRun(h, run, acts) && j < |acts|
    ensures Grown(run[j], run[j + 1])
  {
    RunKeeps(h, run, acts, j);
    StepGrows(h, run[j], acts[j]);
  }

  lemma GrownOn(st: System, st': System, st'': System)
    requires Grown(st, st') && Grown(st', st'')
    ensures Grown(st, st'')
  {
  }

  lemma {:induction false} GrownAlong(run: seq<System>, i: nat, j: nat)
    requires i <= j < |run| && forall k :: i <= k < j ==> Grown(run[k], run[k + 1])
    ensures Grown(run[i], run[j])
    decreases j
  {
    if i < j {
      GrownAlong(run, i, j - 1);
      assert Grown(run[j - 1], run[j - 1 + 1]);
      GrownOn(run[i], run[j - 1], run[j]);
    }
  }

  /** In every run, what is stored stays stored, and the id table is write-once: uploading a file again
      never changes what its id stands for. */
  lemma RunGrows(h: Hash, run: seq<System>, acts: seq<Action>, i: nat, j: nat)
    requires IsRun(h, run, acts) && i <= j < |run|
    ensures Grown(run[i], run[j])
  {
    forall k | i <= k < j ensures Grown(run[k], run[k + 1]) {
      RunStepGrows(h, run, acts, k);
    }
    GrownAlong(run, i, j);
  }

  // ----- From the uploaded file to the downloaded one -----

  ghost function StoredStrings(st: System): set<Bytes> {
    set s, m | s in st.servers && m in st.servers[s].server.files :: st.servers[s].server.files[m]
  }

  ghost function BlockStrings(h: Hash, file: Bytes): set<Bytes> {
    SplitFits(h, file, 0);
    set c | c in Contents(h, file, Split(h, file, 0))
  }

  function ListOf(h: Hash, file: Bytes): seq<Md5> {
    Md5s(Split(h, file, 0))
  }

  /** The strings whose hashes are compared, at the latest in `st`, on behalf of `file`: what the
      servers store, the blocks of the file, and the texts of the block lists. */
  ghost function HashedStrings(h: Hash, st: System, file: Bytes): set<Bytes> {
    StoredStrings(st) + BlockStrings(h, file) + {Flatten(ListOf(h, file))}
    + (set id | id in st.proxy.ids :: Flatten(st.proxy.ids[id]))
  }

  lemma StoredHash(h: Hash, st: System, m: Md5, content: Bytes)
    requires ServersOk(h, st) && Stored(st, m, content)
    ensures h(content) == m && content in StoredStrings(st)
  {
    var s :| s in st.servers && m in st.servers[s].server.files && st.servers[s].server.files[m] == content;
    assert ServerEndOk(h, st.servers[s]);
  }

  /** The id of a file is registered with the list of that file, if with any. */
  lemma RegisteredList(h: Hash, st: System, file: Bytes)
    requires IdsOk(h, st) && NoCollision(h, HashedStrings(h, st, file))
    requires FileId(h, ListOf(h, file)) in st.proxy.ids
    ensures st.proxy.ids[FileId(h, ListOf(h, file))] == ListOf(h, file)
  {
    var id := FileId(h, ListOf(h, file));
    FileIdDeterminesList(h, st.proxy.ids[id], ListOf(h, file), HashedStrings(h, st, file));
  }

  /** Stored contents of all the blocks of a file, in order, are the file. */
  lemma ChunksAreTheFile(h: Hash, st: System, file: Bytes, chunks: seq<Bytes>)
    requires ServersOk(h, st) && NoCollision(h, HashedStrings(h, st, file))
    requires Fetched(st, ListOf(h, file), chunks)
    ensures Flatten(chunks) == file
  {
    SplitFits(h, file, 0);
    var blocks := Split(h, file, 0);
    var contents := Contents(h, file, blocks);
    forall k | 0 <= k < |blocks| ensures chunks[k] == contents[k] {
      StoredHash(h, st, ListOf(h, file)[k], chunks[k]);
      assert blocks[k] in blocks;
      assert contents[k] in BlockStrings(h, file) && h(contents[k]) == ListOf(h, file)[k];
    }
    assert chunks == contents;
    SplitCovers(h, file, 0);
    assert file[0..] == file;
  }

  lemma DoneHasAll(h: Hash, st: System, d: FlowId)
    requires IsDownloader(st, d) && DownloaderOk(st, d) && DownloaderOf(st, d).phase == DM.Done
    ensures exists chunks :: Transfered(st, d, chunks)
  {
  }

  /** Whoever asks for the id of a file and is told that all blocks have been transferred has written
      exactly that file. */
  lemma DownloadedIsTheFile(h: Hash, st: System, d: FlowId, file: Bytes)
    requires Reachable(h, st) && IsDownloader(st, d) && DownloaderOf(st, d).phase == DM.Done
    requires DownloaderOf(st, d).id == FileId(h, ListOf(h, file)) && NoCollision(h, HashedStrings(h, st, file))
    ensures DownloaderOf(st, d).written == file
  {
    ReachableInv(h, st);
    assert ClientOk(h, st, d);
    DoneHasAll(h, st, d);
    var chunks :| Transfered(st, d, chunks);
    RegisteredList(h, st, file);
    ChunksAreTheFile(h, st, file, chunks);
  }

  lemma PrefixRun(h: Hash, run: seq<System>, acts: seq<Action>, i: nat)
    requires IsRun(h, run, acts) && i < |run|
    ensures Reachable(h, run[i])
  {
    assert IsRun(h, run[..i + 1], acts[..i]);
  }

  /** End to end: if in a run an agent reaches `succ` for a file, then from there on its id is
      registered with the list of the file and all of its blocks are stored; and whoever later ends the
      download of that id has written exactly the file. */
  lemma EndToEndIdentity(h: Hash, run: seq<System>, acts: seq<Action>, i: nat, j: nat, u: FlowId, d: FlowId)
    requires IsRun(h, run, acts) && i <= j < |run|
    requires IsUploader(run[i], u) && AgentOf(run[i], u).phase == AM.Succ
    requires NoCollision(h, HashedStrings(h, run[j], AgentOf(run[i], u).file))
    ensures
      var file := AgentOf(run[i], u).file;
      var id := FileId(h, ListOf(h, file));
      && id in run[j].proxy.ids && run[j].proxy.ids[id] == ListOf(h, file)
      && (forall m :: m in ListOf(h, file) ==> Safe(h, run[j], m))
      && (IsDownloader(run[j], d) && DownloaderOf(run[j], d).id == id && DownloaderOf(run[j], d).phase == DM.Done ==>
            DownloaderOf(run[j], d).written == file)
  {
    var file := AgentOf(run[i], u).file;
    var id := FileId(h, ListOf(h, file));
    PrefixRun(h, run, acts, i);
    PrefixRun(h, run, acts, j);
    RunKeeps(h, run, acts, i);
    RunKeeps(h, run, acts, j);
    assert AM.List(AgentOf(run[i], u)) == ListOf(h, file) by {
      assert ClientOk(h, run[i], u);
    }
    RegisteredMeansStored(h, run[i], u, id);
    RunGrows(h, run, acts, i, j);
    RegisteredList(h, run[j], file);
    forall m | m in ListOf(h, file) ensures Safe(h, run[j], m) {
      assert Held(run[i], m);
      HeldGrows(run[i], run[j], m);
      HeldSafe(h, run[j], m);
    }
    if IsDownloader(run[j], d) && DownloaderOf(run[j], d).id == id && DownloaderOf(run[j], d).phase == DM.Done {
      DownloadedIsTheFile(h, run[j], d, file);
    }
  }

  /** The download of a registered file reaches the access beyond its empty list exactly when the file
      is empty. */
  lemma EmptyFileExactly(h: Hash, st: System, f: FlowId, pick: ServerId, file: Bytes)
    requires Reachable(h, st) && IsDownloader(st, f) && f in st.proxy.clients
    requires st.clients[f].outq == [DownloadRequest(FileId(h, ListOf(h, file)), [])]
    requires FileId(h, ListOf(h, file)) in st.proxy.ids && NoCollision(h, HashedStrings(h, st, file))
    requires PickOk(st.proxy, f, st.clients[f].outq[0], pick)
    ensures OnClientMessage(h, st.proxy, f, st.clients[f].outq[0], pick).outcome == Exit <==> file == []
  {
    ReachableInv(h, st);
    RegisteredList(h, st, file);
    ProxyExitsExactly(h, st, f, pick);
    assert ListOf(h, file) == [] <==> file == [];
  }
}
