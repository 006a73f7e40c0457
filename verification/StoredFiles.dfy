/** Files that were uploaded in a run can be downloaded again: as long as no server is dropped, every block of them is
    indexed, and their downloads come to a good end. */
module StoredFiles {
  import opened Types
  import opened FileBlocks
  import AM = AgentModel
  import DM = DownloaderModel
  import opened ProxyModel
  import opened SystemModel
  import opened Invariant
  import opened Frames
  import opened UploadHandlers
  import opened ServerHandlers
  import opened VoteHandlers
  import opened Runs
  import opened EndToEnd
  import opened Progress
  import opened DroppedServers
  import opened DownloadHistory
  import opened DownloadsEnd

  /** Which blocks of the agent's file are known to the proxy to be stored: those it was not asked to upload, those
      uploaded before the current one, and the one a success reply names. */
  ghost predicate Known(st: System, f: FlowId)
    requires IsUploader(st, f)
  {
    KnownAt(st.proxy, AgentOf(st, f), st.clients[f].inq)
  }

  ghost predicate KnownAt(p: Proxy, a: AM.Agent, inq: seq<Message>) {
    if a.phase == AM.WaitingUploadResponse then
      inq != [] && inq[0].UploadResponse? ==> forall m :: m in AM.List(a) ==> m in inq[0].md5s || Indexed(p, m)
    else
      && (forall m :: m in AM.List(a) ==> m in a.upload || Indexed(p, m))
      && (forall j :: 0 <= j < |a.upload| && j < a.current ==> Indexed(p, a.upload[j]))
      && (forall m :: UploadBlockAck(m) in inq ==> Indexed(p, m))
  }

  ghost predicate AllKnown(st: System) {
    forall f :: IsUploader(st, f) ==> Known(st, f)
  }

  ghost predicate IndexGrows(p: Proxy, p': Proxy) {
    forall m :: Indexed(p, m) ==> Indexed(p', m)
  }

  lemma KnownSame(p: Proxy, p': Proxy, a: AM.Agent, inq: seq<Message>)
    requires KnownAt(p, a, inq) && IndexGrows(p, p')
    ensures KnownAt(p', a, inq)
  {
  }

  /** The agent takes its next message. */
  lemma KnownReceives(h: Hash, p: Proxy, a: AM.Agent, msg: Message)
    requires KnownAt(p, a, [msg]) && AM.AgentOk(h, a) && AM.Expected(a, msg)
    requires a.phase == AM.WaitingBlockAck ==> RepliesTo([msg], a.upload[a.current])
    ensures KnownAt(p, AM.OnMessage(a, msg).agent, [])
  {
    assert [msg][0] in [msg];
    AM.OnMessageFollows(h, a, msg);
    if a.phase == AM.WaitingUploadResponse {
      AM.ResponseStarts(h, a, msg);
    } else if a.phase == AM.WaitingBlockAck && msg.UploadBlockAck? {
      AM.AckStarts(h, a, msg);
    }
  }

  lemma OneUnread(h: Hash, e: ClientEnd, a: AM.Agent, ctx: Option<Client>, subs: set<(ServerId, Md5)>)
    requires UploadPhase(h, e, a, ctx, subs) && e.inq != []
    ensures e.inq == [e.inq[0]] && AM.Expected(a, e.inq[0])
    ensures a.phase == AM.WaitingBlockAck ==> a.current < |a.upload| && RepliesTo(e.inq, a.upload[a.current])
  {
  }

  lemma ReceiveKnown(h: Hash, st: System, f: FlowId)
    requires IsUploader(st, f) && UploaderOk(h, st, f) && st.clients[f].inq != [] && Known(st, f)
    ensures Known(WithClient(st, f, ClientReceive(st.clients[f])), f)
  {
    var e, a := st.clients[f], AgentOf(st, f);
    var at :| UploaderAt(h, st, f, at);
    OneUnread(h, e, a, Context(st, f), Subs(st.proxy, f));
    KnownReceives(h, st.proxy, a, e.inq[0]);
    assert ClientReceive(e).inq == [];
  }

  lemma WriteKnown(h: Hash, st: System, f: FlowId)
    requires IsUploader(st, f) && UploaderOk(h, st, f) && Known(st, f)
    ensures Known(WithClient(st, f, ClientWritten(st.clients[f])), f)
  {
    var a := AgentOf(st, f);
    var at :| UploaderAt(h, st, f, at);
    AM.OnWriteCompleteFollows(h, a);
    if a.phase == AM.UploadingBlocks {
      AM.WriteCompleteContinues(h, a);
    }
  }

  lemma ConnectedKnown(h: Hash, p: Proxy, file: Bytes)
    ensures KnownAt(p, AM.OnConnection(h, file).agent, [])
  {
  }

  // ----- Messages of the client -----

  /** What is not asked for is indexed. */
  lemma RequestKnown(p: Proxy, p': Proxy, a: AM.Agent)
    requires a.phase == AM.WaitingUploadResponse && IndexGrows(p, p')
    ensures KnownAt(p', a, [UploadResponse(NeedUpload(p, AM.List(a)))])
  {
    NeedUploadCovers(p, AM.List(a));
  }

  lemma FromUploaderKnown(h: Hash, st: System, f: FlowId, pick: ServerId)
    requires IsUploader(st, f) && UploaderOk(h, st, f) && Known(st, f) && f in st.proxy.clients && st.clients[f].outq != []
    requires OnClientMessage(h, st.proxy, f, st.clients[f].outq[0], pick).outcome != Exit
    requires IndexGrows(st.proxy, FromClient(h, st, f, pick).proxy)
    ensures f in FromClient(h, st, f, pick).clients
    ensures KnownAt(FromClient(h, st, f, pick).proxy, AgentOf(st, f), FromClient(h, st, f, pick).clients[f].inq)
  {
    var e, a, msg := st.clients[f], AgentOf(st, f), st.clients[f].outq[0];
    var r := OnClientMessage(h, st.proxy, f, msg, pick);
    FromUploaderIs(h, st, f, pick);
    UploaderSends(h, e, a, st.proxy.clients[f], Subs(st.proxy, f));
    assert FromClient(h, st, f, pick).clients[f].inq == e.inq + Mail(r.toClients, f);
    if msg.UploadRequest? {
      assert e.inq == [];
      RequestKnown(st.proxy, r.proxy, a);
    } else {
      assert e.inq + [] == e.inq;
      KnownSame(st.proxy, r.proxy, a, e.inq);
    }
  }

  // ----- Messages of servers -----

  lemma AckedKnown(h: Hash, st: System, s: ServerId, m: Md5, f: FlowId)
    requires IsUploader(st, f) && UploaderOk(h, st, f) && Known(st, f) && s in st.proxy.storages
    requires IndexGrows(st.proxy, Acked(st.proxy, s, m).proxy)
    ensures
      var r := Acked(st.proxy, s, m);
      KnownAt(r.proxy, AgentOf(st, f), st.clients[f].inq + Mail(r.toClients, f))
  {
    var r := Acked(st.proxy, s, m);
    if (s, m) in Subs(st.proxy, f) && f in st.proxy.clients {
      assert Subs(st.proxy, f) == {(s, m)} && SubsOnce(st.proxy, f) by {
        var at :| UploaderAt(h, st, f, at);
        PendingToken(h, st.clients[f], AgentOf(st, f), st.proxy.clients[f], Subs(st.proxy, f), (s, m));
      }
      AckedFires(st.proxy, s, m, f);
      assert m in r.proxy.storages[s].md5s;
      FiredKnown(h, st, f, r, s, m);
    } else {
      AckedOthers(st.proxy, s, m, f);
      assert st.clients[f].inq + [] == st.clients[f].inq;
      KnownSame(st.proxy, r.proxy, AgentOf(st, f), st.clients[f].inq);
    }
  }

  lemma FiredKnown(h: Hash, st: System, f: FlowId, r: ProxyResult, s: ServerId, m: Md5)
    requires IsUploader(st, f) && UploaderOk(h, st, f) && Known(st, f) && Fired(st.proxy, r, f, m, true) && (s, m) in Subs(st.proxy, f)
    requires IndexGrows(st.proxy, r.proxy) && Indexed(r.proxy, m)
    ensures KnownAt(r.proxy, AgentOf(st, f), st.clients[f].inq + Mail(r.toClients, f))
  {
    var at :| UploaderAt(h, st, f, at);
    PendingToken(h, st.clients[f], AgentOf(st, f), st.proxy.clients[f], Subs(st.proxy, f), (s, m));
    assert Mail(r.toClients, f) == [UploadBlockAck(m)];
    assert st.clients[f].inq + Mail(r.toClients, f) == [UploadBlockAck(m)];
  }

  lemma BlockSetKnown(st: System, s: ServerId, f: FlowId)
    requires IsUploader(st, f) && Known(st, f) && s in st.servers && s in st.proxy.storages
    requires st.servers[s].outq != [] && st.servers[s].outq[0].TransferBlockSet?
    requires IndexGrows(st.proxy, LearnSet(st, s).proxy)
    ensures AfterProxy(PopFromServer(st, s), LearnSet(st, s)).clients[f] == st.clients[f]
    ensures KnownAt(LearnSet(st, s).proxy, AgentOf(st, f), st.clients[f].inq)
  {
    UnmailedClient(PopFromServer(st, s), LearnSet(st, s), f);
    KnownSame(st.proxy, LearnSet(st, s).proxy, AgentOf(st, f), st.clients[f].inq);
  }

  lemma FromServerKnown(h: Hash, st: System, s: ServerId, order: seq<Md5>, f: FlowId)
    requires Inv(h, st) && IsUploader(st, f) && Known(st, f) && s in st.servers && s in st.proxy.storages && st.servers[s].outq != []
    requires IndexGrows(st.proxy, FromServer(st, s, order).proxy) && s in FromServer(st, s, order).proxy.storages
    ensures f in FromServer(st, s, order).clients
    ensures KnownAt(FromServer(st, s, order).proxy, AgentOf(st, f), FromServer(st, s, order).clients[f].inq)
  {
    var msg := st.servers[s].outq[0];
    ServerSends(h, st, s);
    ServerOutcome(st.proxy, s, msg);
    if msg.TransferBlockSet? {
      BlockSetIs(st.proxy, s, msg);
      BlockSetKnown(st, s, f);
    } else if msg.UploadBlockAck? {
      AckIs(st.proxy, s, msg.md5);
      assert UploaderOk(h, st, f) by {
        assert ClientOk(h, st, f);
      }
      AckedKnown(h, st, s, msg.md5, f);
    } else {
      TransferBlockIs(st, s);
      UnknownPiece(h, st, s);
      PieceOwner(h, st, s);
      UnmailedClient(PopFromServer(st, s), Forward(st, s), f);
    }
  }

  // ----- Every step -----

  lemma StepIndexGrows(h: Hash, st: System, act: Action)
    requires ServersOk(h, st) && Enabled(h, st, act) && KeepsServers(st, Apply(h, st, act))
    ensures IndexGrows(st.proxy, Apply(h, st, act).proxy)
  {
    forall m | Indexed(st.proxy, m) ensures Indexed(Apply(h, st, act).proxy, m) {
      StepIndexed(h, st, act, m);
    }
  }

  lemma SameClientKnown(st: System, st': System, f: FlowId)
    requires IsUploader(st, f) && Known(st, f) && f in st'.clients && IndexGrows(st.proxy, st'.proxy)
    requires st'.clients[f].party == st.clients[f].party && st'.clients[f].inq == st.clients[f].inq
    ensures Known(st', f)
  {
    KnownSame(st.proxy, st'.proxy, AgentOf(st, f), st.clients[f].inq);
  }

  lemma EndStepKnown(h: Hash, st: System, act: Action, f: FlowId)
    requires Inv(h, st) && Enabled(h, st, act) && !IsProxyStep(act) && IsUploader(st, f) && Known(st, f)
    requires IndexGrows(st.proxy, Apply(h, st, act).proxy)
    ensures IsUploader(Apply(h, st, act), f) && Known(Apply(h, st, act), f)
  {
    EndStepClient(h, st, act, f);
    assert UploaderOk(h, st, f) by {
      assert ClientOk(h, st, f);
    }
    if act == ClientReceives(f) {
      ReceiveKnown(h, st, f);
    } else if act == ClientWriteComplete(f) {
      WriteKnown(h, st, f);
    } else {
      SameClientKnown(st, Apply(h, st, act), f);
    }
  }

  lemma ProxyStepKnown(h: Hash, st: System, act: Action, f: FlowId)
    requires Inv(h, st) && Enabled(h, st, act) && IsProxyStep(act) && IsUploader(st, f) && Known(st, f)
    requires IndexGrows(st.proxy, Apply(h, st, act).proxy) && KeepsServers(st, Apply(h, st, act))
    ensures IsUploader(Apply(h, st, act), f) && Known(Apply(h, st, act), f)
  {
    ProxyStepClients(h, st, act, f);
    match act
    case ProxyReceivesFromClient(g, pick) =>
      if g == f {
        assert ClientOk(h, st, f);
        FromUploaderKnown(h, st, f, pick);
      } else {
        FromOtherExtends(h, st, g, pick, f);
        SameClientKnown(st, Apply(h, st, act), f);
      }
    case ProxyReceivesFromServer(s, order) => FromServerKnown(h, st, s, order, f);
    case ProxyClosesClient(g) =>
      CloseExtends(h, st, g, f);
      SameClientKnown(st, Apply(h, st, act), f);
    case ProxyClosesServer(s, order) => DropsServer(st, s, order);
  }

  lemma StepKnown(h: Hash, st: System, act: Action, f: FlowId)
    requires Inv(h, st) && AllKnown(st) && Enabled(h, st, act) && KeepsServers(st, Apply(h, st, act)) && IsUploader(Apply(h, st, act), f)
    ensures Known(Apply(h, st, act), f)
  {
    StepIndexGrows(h, st, act);
    if f !in st.clients {
      NewKnown(h, st, act, f);
    } else if IsProxyStep(act) {
      ProxyStepClients(h, st, act, f);
      ProxyStepKnown(h, st, act, f);
    } else {
      EndStepClient(h, st, act, f);
      EndStepKnown(h, st, act, f);
    }
  }

  lemma NewKnown(h: Hash, st: System, act: Action, f: FlowId)
    requires Enabled(h, st, act) && f !in st.clients && IsUploader(Apply(h, st, act), f)
    ensures Known(Apply(h, st, act), f)
  {
    if IsProxyStep(act) {
      ProxyStepClients(h, st, act, f);
    } else {
      assert act.ConnectUploader?;
      ConnectedKnown(h, st.proxy, act.file);
    }
  }

  lemma StepAllKnown(h: Hash, st: System, act: Action)
    requires Inv(h, st) && AllKnown(st) && Enabled(h, st, act) && KeepsServers(st, Apply(h, st, act))
    ensures AllKnown(Apply(h, st, act))
  {
    forall f | IsUploader(Apply(h, st, act), f) ensures Known(Apply(h, st, act), f) {
      StepKnown(h, st, act, f);
    }
  }

  // ----- Runs -----

  lemma {:induction false} RunKnown(h: Hash, run: seq<System>, acts: seq<Action>, i: nat)
    requires IsRun(h, run, acts) && i < |run| && forall k :: 0 <= k < i ==> KeepsServers(run[k], run[k + 1])
    ensures AllKnown(run[i])
    decreases i
  {
    if i > 0 {
      RunKnown(h, run, acts, i - 1);
      RunKeeps(h, run, acts, i - 1);
      assert KeepsServers(run[i - 1], run[i - 1 + 1]);
      StepAllKnown(h, run[i - 1], acts[i - 1]);
    }
  }

  lemma RunStepIndex(h: Hash, run: seq<System>, acts: seq<Action>, k: nat, m: Md5)
    requires IsRun(h, run, acts) && k < |acts| && KeepsServers(run[k], run[k + 1]) && Indexed(run[k].proxy, m)
    ensures Indexed(run[k + 1].proxy, m)
  {
    RunKeeps(h, run, acts, k);
    StepIndexed(h, run[k], acts[k], m);
  }

  lemma {:induction false} IndexedAlong(run: seq<System>, i: nat, k: nat, m: Md5)
    requires i <= k < |run| && Indexed(run[i].proxy, m)
    requires forall j :: i <= j < k && Indexed(run[j].proxy, m) ==> Indexed(run[j + 1].proxy, m)
    ensures Indexed(run[k].proxy, m)
    decreases k
  {
    if i < k {
      IndexedAlong(run, i, k - 1, m);
      assert Indexed(run[k - 1 + 1].proxy, m);
    }
  }

  lemma StaysIndexed(h: Hash, run: seq<System>, acts: seq<Action>, i: nat, k: nat, m: Md5)
    requires IsRun(h, run, acts) && i <= k < |run| && forall j :: 0 <= j < k ==> KeepsServers(run[j], run[j + 1])
    requires Indexed(run[i].proxy, m)
    ensures Indexed(run[k].proxy, m)
  {
    forall j | i <= j < k && Indexed(run[j].proxy, m) ensures Indexed(run[j + 1].proxy, m) {
      assert KeepsServers(run[j], run[j + 1]);
      RunStepIndex(h, run, acts, j, m);
    }
    IndexedAlong(run, i, k, m);
  }

  lemma DoneIndexed(p: Proxy, a: AM.Agent, inq: seq<Message>)
    requires KnownAt(p, a, inq) && a.phase == AM.Succ && a.current >= |a.upload|
    ensures forall m :: m in AM.List(a) ==> Indexed(p, m)
  {
    forall m | m in AM.List(a) ensures Indexed(p, m) {
      if m in a.upload {
        var j :| 0 <= j < |a.upload| && a.upload[j] == m;
      }
    }
  }

  /** The blocks of a stored file are indexed. */
  lemma SuccessIndexed(h: Hash, st: System, u: FlowId)
    requires Inv(h, st) && AllKnown(st) && IsUploader(st, u) && AgentOf(st, u).phase == AM.Succ
    ensures AM.List(AgentOf(st, u)) == ListOf(h, AgentOf(st, u).file)
    ensures forall m :: m in AM.List(AgentOf(st, u)) ==> Indexed(st.proxy, m)
  {
    assert AM.AgentOk(h, AgentOf(st, u)) by {
      assert ClientOk(h, st, u);
    }
    assert Known(st, u);
    DoneIndexed(st.proxy, AgentOf(st, u), st.clients[u].inq);
  }

  /** The proxy handles the request of flow `d` for `id`. */
  ghost predicate Asks(st: System, act: Action, d: FlowId, id: Md5) {
    && AsksFor(st, d, id) && st.clients[d].open
    && d in st.proxy.clients && st.proxy.clients[d].phase == Init
    && act.ProxyReceivesFromClient? && act.flow == d
  }

  /** If an agent has succeeded, the list of its file is registered from then on. */
  lemma SuccessRegistered(h: Hash, run: seq<System>, acts: seq<Action>, i: nat, k: nat, u: FlowId)
    requires IsRun(h, run, acts) && i <= k < |run| && IsUploader(run[i], u) && AgentOf(run[i], u).phase == AM.Succ
    requires NoCollision(h, HashedStrings(h, run[k], AgentOf(run[i], u).file))
    ensures
      var file := AgentOf(run[i], u).file;
      FileId(h, ListOf(h, file)) in run[k].proxy.ids && run[k].proxy.ids[FileId(h, ListOf(h, file))] == ListOf(h, file)
  {
    EndToEndIdentity(h, run, acts, i, k, u, u);
  }

  lemma StringsGrow(h: Hash, st: System, st': System, file: Bytes)
    requires Grown(st, st')
    ensures HashedStrings(h, st, file) <= HashedStrings(h, st', file)
  {
    forall x | x in StoredStrings(st) ensures x in StoredStrings(st') {
      var s, m :| s in st.servers && m in st.servers[s].server.files && x == st.servers[s].server.files[m];
      assert st'.servers[s].server.files[m] == x;
    }
  }

  lemma AskedBlocksIndexed(h: Hash, run: seq<System>, acts: seq<Action>, i: nat, k: nat, u: FlowId)
    requires IsRun(h, run, acts) && i <= k < |run| && forall j :: 0 <= j < k ==> KeepsServers(run[j], run[j + 1])
    requires IsUploader(run[i], u) && AgentOf(run[i], u).phase == AM.Succ
    ensures forall m :: m in ListOf(h, AgentOf(run[i], u).file) ==> Indexed(run[k].proxy, m)
  {
    RunKeeps(h, run, acts, i);
    RunKnown(h, run, acts, i);
    SuccessIndexed(h, run[i], u);
    forall m | m in ListOf(h, AgentOf(run[i], u).file) ensures Indexed(run[k].proxy, m) {
      StaysIndexed(h, run, acts, i, k, m);
    }
  }

  predicate AsksFor(st: System, f: FlowId, id: Md5) {
    IsDownloader(st, f) && DownloaderOf(st, f).id == id
  }

  lemma StepAsksFor(h: Hash, st: System, act: Action, f: FlowId, id: Md5)
    requires FlowsOk(h, st) && Enabled(h, st, act) && AsksFor(st, f, id)
    ensures AsksFor(Apply(h, st, act), f, id)
  {
    if IsProxyStep(act) {
      ProxyStepClients(h, st, act, f);
    } else {
      EndStepClient(h, st, act, f);
    }
  }

  lemma RunStepAsksFor(h: Hash, run: seq<System>, acts: seq<Action>, k: nat, f: FlowId, id: Md5)
    requires IsRun(h, run, acts) && k < |acts| && AsksFor(run[k], f, id)
    ensures AsksFor(run[k + 1], f, id)
  {
    RunKeeps(h, run, acts, k);
    StepAsksFor(h, run[k], acts[k], f, id);
  }

  lemma {:induction false} AsksForAlong(run: seq<System>, f: FlowId, id: Md5, k: nat, j: nat)
    requires k <= j < |run| && AsksFor(run[k], f, id)
    requires forall i :: k <= i < j && AsksFor(run[i], f, id) ==> AsksFor(run[i + 1], f, id)
    ensures AsksFor(run[j], f, id)
    decreases j
  {
    if k < j {
      AsksForAlong(run, f, id, k, j - 1);
      assert AsksFor(run[j - 1 + 1], f, id);
    }
  }

  lemma StillAsksFor(h: Hash, run: seq<System>, acts: seq<Action>, f: FlowId, id: Md5, k: nat, j: nat)
    requires IsRun(h, run, acts) && k <= j < |run| && AsksFor(run[k], f, id)
    ensures AsksFor(run[j], f, id)
  {
    forall i | k <= i < j && AsksFor(run[i], f, id) ensures AsksFor(run[i + 1], f, id) {
      RunStepAsksFor(h, run, acts, i, f, id);
    }
    AsksForAlong(run, f, id, k, j);
  }

  /** A file that was stored in the run comes back. If agent `u` has succeeded, and client `d` asks for the id of its file
      afterwards, then, unless somebody closes a session, the client has written exactly the file when the system comes
      to rest; it has acknowledged every block of it once, in order, and was told once that this was all. */
  lemma StoredFileComesBack(h: Hash, run: seq<System>, acts: seq<Action>, i: nat, k: nat, j: nat, u: FlowId, d: FlowId)
    requires IsRun(h, run, acts) && i <= k < j < |run| && ServersStay(h, run, acts, j)
    requires IsUploader(run[i], u) && AgentOf(run[i], u).phase == AM.Succ
    requires NoCollision(h, HashedStrings(h, run[j], AgentOf(run[i], u).file))
    requires Asks(run[k], acts[k], d, FileId(h, ListOf(h, AgentOf(run[i], u).file))) && Undisturbed(acts, d, k, j)
    requires AtRest(h, run[j]) && ServersOpen(run[j])
    ensures IsDownloader(run[j], d) && DownloaderOf(run[j], d).phase == DM.Done
    ensures DownloaderOf(run[j], d).written == AgentOf(run[i], u).file
    ensures Acks(HandledFrom(run, acts, d, j)) == ListOf(h, AgentOf(run[i], u).file)
    ensures Completions(SentTo(run, acts, d, j)) == 1
  {
    var file := AgentOf(run[i], u).file;
    ServersKept(h, run, acts, j);
    assert NoCollision(h, HashedStrings(h, run[k], file)) by {
      RunGrows(h, run, acts, k, j);
      StringsGrow(h, run[k], run[j], file);
    }
    SuccessRegistered(h, run, acts, i, k, u);
    AskedBlocksIndexed(h, run, acts, i, k, u);
    assert Begins(h, run[k], acts[k], d);
    DownloadsEndWell(h, run, acts, d, k, j);
    StillAsksFor(h, run, acts, d, FileId(h, ListOf(h, file)), k, j);
    SuccessRegistered(h, run, acts, i, j, u);
    EndToEndIdentity(h, run, acts, i, j, u, d);
  }
}
