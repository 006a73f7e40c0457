/** What a step that does not concern a flow has to leave alone for the flow's part of the invariant
    to stay. */
module Frames {
  import opened Types
  import opened FileBlocks
  import SM = ServerModel
  import AM = AgentModel
  import opened ProxyModel
  import opened SystemModel
  import opened ServerLinks
  import opened Invariant

  /** Stores and the id table only grow, and nothing in them is overwritten. */
  ghost predicate Grown(st: System, st': System) {
    && (forall s :: s in st.servers ==> s in st'.servers && SM.Grows(st.servers[s].server, st'.servers[s].server))
    && (forall id :: id in st.proxy.ids ==> id in st'.proxy.ids && st'.proxy.ids[id] == st.proxy.ids[id])
  }

  /** A server's channels and contexts as far as flow `f` is concerned. */
  ghost predicate SameFor(h: Hash, e: ServerEnd, e': ServerEnd, f: FlowId) {
    && StreamThrough(h, e', f) == StreamThrough(h, e, f)
    && (ClientClean(f) !in e.inq || Pipe(e, f) == [] ==> Pipe(e', f) == Pipe(e, f))
    && (BusyAfter(f in e'.server.downloads, e'.inq, f) ==> BusyAfter(f in e.server.downloads, e.inq, f))
    && (ClientClean(f) in e'.inq ==> ClientClean(f) in e.inq)
  }

  ghost predicate BlankFor(h: Hash, e: ServerEnd, f: FlowId) {
    && StreamThrough(h, e, f) == SM.Between && Pipe(e, f) == []
    && !BusyAfter(f in e.server.downloads, e.inq, f) && ClientClean(f) !in e.inq
  }

  ghost predicate SameServers(h: Hash, st: System, st': System, f: FlowId) {
    forall s :: s in st'.servers ==>
      if s !in st.servers then BlankFor(h, st'.servers[s], f)
      else SameFor(h, st.servers[s], st'.servers[s], f) && (s in st'.proxy.storages ==> s in st.proxy.storages)
  }

  ghost predicate SameProxy(p: Proxy, p': Proxy, f: FlowId) {
    && (f in p'.clients <==> f in p.clients)
    && (f in p.clients ==> p'.clients[f] == p.clients[f])
    && Subs(p', f) <= Subs(p, f) && (f in p.clients ==> Subs(p', f) == Subs(p, f))
    && (SubsOnce(p, f) ==> SubsOnce(p', f))
  }

  /** The same end, except that it may have closed. */
  ghost predicate SameEnd(e: ClientEnd, e': ClientEnd) {
    e' == e.(open := e'.open)
  }

  ghost predicate Untouched(h: Hash, st: System, st': System, f: FlowId) {
    && Grown(st, st')
    && (f in st'.clients <==> f in st.clients)
    && (f in st.clients ==> SameEnd(st.clients[f], st'.clients[f]))
    && SameProxy(st.proxy, st'.proxy, f)
    && SameServers(h, st, st', f)
  }

  lemma HeldGrows(st: System, st': System, m: Md5)
    requires Grown(st, st') && Held(st, m)
    ensures Held(st', m)
  {
    var s :| s in st.servers && m in st.servers[s].server.files;
    assert m in st'.servers[s].server.files;
  }

  lemma StoredGrows(st: System, st': System, m: Md5, content: Bytes)
    requires Grown(st, st') && Stored(st, m, content)
    ensures Stored(st', m, content)
  {
    var s :| s in st.servers && m in st.servers[s].server.files && st.servers[s].server.files[m] == content;
    assert m in st'.servers[s].server.files;
  }

  lemma FetchedGrows(st: System, st': System, ms: seq<Md5>, chunks: seq<Bytes>)
    requires Grown(st, st') && Fetched(st, ms, chunks)
    ensures Fetched(st', ms, chunks)
  {
    forall i | 0 <= i < |ms| ensures Stored(st', ms[i], chunks[i]) {
      StoredGrows(st, st', ms[i], chunks[i]);
    }
  }

  lemma BlocksHeldGrows(h: Hash, st: System, st': System, f: FlowId)
    requires IsUploader(st, f) && BlocksHeld(h, st, f) && Grown(st, st')
    requires f in st'.clients && SameEnd(st.clients[f], st'.clients[f])
    ensures BlocksHeld(h, st', f)
  {
    forall m | Held(st, m) ensures Held(st', m) {
      HeldGrows(st, st', m);
    }
  }

  lemma UntouchedStreams(h: Hash, st: System, st': System, f: FlowId, at: SM.Stream)
    requires IsUploader(st, f) && StreamsAt(h, st, f, at) && Untouched(h, st, st', f)
    ensures StreamsAt(h, st', f, at)
  {
    assert Context(st', f) == Context(st, f);
    var ctx := Context(st, f);
    forall s | s in st'.proxy.storages && s in st'.servers
      ensures StreamThrough(h, st'.servers[s], f) == if ctx.Some? && ctx.value.relay == [s] then at else SM.Between
    {
      if s !in st.servers {
        assert BlankFor(h, st'.servers[s], f);
      }
    }
  }

  lemma UntouchedUploader(h: Hash, st: System, st': System, f: FlowId)
    requires IsUploader(st, f) && UploaderOk(h, st, f) && Untouched(h, st, st', f)
    ensures UploaderOk(h, st', f)
  {
    var at :| UploaderAt(h, st, f, at);
    BlocksHeldGrows(h, st, st', f);
    UntouchedStreams(h, st, st', f, at);
    assert Context(st', f) == Context(st, f);
    UploadPhaseSame(h, st.clients[f], st'.clients[f], AgentOf(st, f), Context(st, f), Subs(st.proxy, f), Subs(st'.proxy, f));
    forall s | s in st'.servers ensures Pipe(st'.servers[s], f) == [] {
      assert if s in st.servers then SameFor(h, st.servers[s], st'.servers[s], f) else BlankFor(h, st'.servers[s], f);
    }
    assert UploaderAt(h, st', f, at);
  }

  lemma UploadPhaseSame(h: Hash, e: ClientEnd, e': ClientEnd, a: AM.Agent, ctx: Option<Client>, subs: set<(ServerId, Md5)>, subs': set<(ServerId, Md5)>)
    requires UploadPhase(h, e, a, ctx, subs) && SameEnd(e, e') && (ctx.Some? ==> subs' == subs)
    ensures UploadPhase(h, e', a, ctx, subs')
  {
  }

  lemma UntouchedPipe(h: Hash, st: System, st': System, f: FlowId, s: ServerId)
    requires Untouched(h, st, st', f)
    ensures PipeOf(st, s, f) == [] ==> PipeOf(st', s, f) == []
    ensures NotCleaned(st, f) ==> PipeOf(st', s, f) == PipeOf(st, s, f) || (PipeOf(st', s, f) == [] && StrandedAt(st', f, s))
    ensures NotCleaned(st, f) && StrandedAt(st, f, s) ==> StrandedAt(st', f, s)
  {
    if s in st'.servers {
      assert s in st.servers || BlankFor(h, st'.servers[s], f);
    }
  }

  lemma UntouchedIdle(h: Hash, st: System, st': System, f: FlowId)
    requires Untouched(h, st, st', f) && Idle(st, f)
    ensures Idle(st', f)
  {
    forall s ensures PipeOf(st', s, f) == [] {
      UntouchedPipe(h, st, st', f, s);
    }
  }

  /** A block under transfer goes on, or is stranded if its server has left with a part of it. */
  lemma UntouchedTransfering(h: Hash, st: System, st': System, f: FlowId, c: Client, s: ServerId, chunks: seq<Bytes>, content: Bytes, offset: nat, index: nat)
    requires IsDownloader(st, f) && NotCleaned(st, f) && Untouched(h, st, st', f)
    requires Transfering(st, f, c, s, chunks, content, offset, index) && st.clients[f].outq == []
    ensures Transfering(st', f, c, s, chunks, content, offset, index) || Stranded(st', f)
  {
    FetchedGrows(st, st', c.needed[..c.index], chunks);
    StoredGrows(st, st', c.needed[c.index], content);
    forall s' ensures s' != s ==> PipeOf(st', s', f) == [] {
      UntouchedPipe(h, st, st', f, s');
    }
    UntouchedPipe(h, st, st', f, s);
    if PipeOf(st', s, f) != PipeOf(st, s, f) {
      CutShort(c.needed[c.index], f, content, offset, index, st.clients[f].inq, PipeOf(st, s, f));
      assert StrandedAt(st', f, s) && Stranded(st', f);
    } else {
      assert Transfering(st', f, c, s, chunks, content, offset, index);
    }
  }

  lemma CutShort(m: Md5, f: FlowId, content: Bytes, offset: nat, index: nat, read: seq<Message>, lost: seq<Message>)
    requires offset <= |content| && read + lost == Pieces(m, f, content, offset, index) && lost != []
    ensures forall msg :: msg in read ==> msg.TransferBlock? && !msg.eof
  {
    PiecesAreTheBlock(m, f, content, offset, index);
    forall i | 0 <= i < |read| ensures read[i].TransferBlock? && !read[i].eof {
      assert read[i] == (read + lost)[i];
    }
  }

  lemma UntouchedTransfered(h: Hash, st: System, st': System, f: FlowId, chunks: seq<Bytes>)
    requires IsDownloader(st, f) && Untouched(h, st, st', f) && Transfered(st, f, chunks)
    ensures Transfered(st', f, chunks)
  {
    FetchedGrows(st, st', st.proxy.ids[DownloaderOf(st, f).id], chunks);
  }

  lemma UntouchedWaiting(h: Hash, st: System, st': System, f: FlowId, c: Client)
    requires IsDownloader(st, f) && NotCleaned(st, f) && Untouched(h, st, st', f)
    requires Waiting(st, f, c)
    ensures Waiting(st', f, c)
  {
    if st.clients[f].outq == [] && exists s, chunks, content, offset, index :: Transfering(st, f, c, s, chunks, content, offset, index) {
      var s: ServerId, chunks, content, offset: nat, index: nat :| Transfering(st, f, c, s, chunks, content, offset, index);
      UntouchedTransfering(h, st, st', f, c, s, chunks, content, offset, index);
    } else {
      if exists chunks :: Acknowledged(st, f, c, chunks) {
        var chunks :| Acknowledged(st, f, c, chunks);
        UntouchedAcknowledged(h, st, st', f, c, chunks);
      } else {
        UntouchedStranded(h, st, st', f);
      }
    }
  }

  lemma UntouchedAcknowledged(h: Hash, st: System, st': System, f: FlowId, c: Client, chunks: seq<Bytes>)
    requires IsDownloader(st, f) && Untouched(h, st, st', f) && Acknowledged(st, f, c, chunks)
    ensures Acknowledged(st', f, c, chunks)
  {
    assert Idle(st', f) by {
      UntouchedIdle(h, st, st', f);
    }
    assert Fetched(st', c.needed[..c.index + 1], chunks) by {
      FetchedGrows(st, st', c.needed[..c.index + 1], chunks);
    }
    AcknowledgedSame(st, st', f, c, chunks);
  }

  lemma AcknowledgedSame(st: System, st': System, f: FlowId, c: Client, chunks: seq<Bytes>)
    requires IsDownloader(st, f) && f in st'.clients && SameEnd(st.clients[f], st'.clients[f]) && Acknowledged(st, f, c, chunks)
    requires Idle(st', f) && Fetched(st', c.needed[..c.index + 1], chunks)
    ensures Acknowledged(st', f, c, chunks)
  {
  }

  lemma UntouchedStranded(h: Hash, st: System, st': System, f: FlowId)
    requires IsDownloader(st, f) && NotCleaned(st, f) && Untouched(h, st, st', f) && Stranded(st, f)
    ensures Stranded(st', f)
  {
    UntouchedIdle(h, st, st', f);
    var s :| StrandedAt(st, f, s);
    UntouchedPipe(h, st, st', f, s);
  }

  lemma UntouchedDownloadPhase(h: Hash, st: System, st': System, f: FlowId)
    requires IsDownloader(st, f) && DownloaderOk(st, f) && Untouched(h, st, st', f)
    ensures DownloadPhase(st', f)
  {
    assert Context(st', f) == Context(st, f);
    if exists chunks :: Transfered(st, f, chunks) {
      var chunks :| Transfered(st, f, chunks);
      UntouchedTransfered(h, st, st', f, chunks);
    }
    if Idle(st, f) {
      UntouchedIdle(h, st, st', f);
    }
    if f in st.proxy.clients && st.proxy.clients[f].phase == WaitingTransferBlock {
      UntouchedWaiting(h, st, st', f, st.proxy.clients[f]);
    }
  }

  lemma UntouchedSendsNoBlocks(h: Hash, st: System, st': System, f: FlowId)
    requires SendsNoBlocks(h, st, f) && Untouched(h, st, st', f)
    ensures SendsNoBlocks(h, st', f)
  {
    forall s | s in st'.servers ensures StreamThrough(h, st'.servers[s], f) == SM.Between {
      assert if s in st.servers then SameFor(h, st.servers[s], st'.servers[s], f) else BlankFor(h, st'.servers[s], f);
    }
  }

  lemma UntouchedClient(h: Hash, st: System, st': System, f: FlowId)
    requires f in st.clients && ClientOk(h, st, f) && Untouched(h, st, st', f)
    ensures f in st'.clients && ClientOk(h, st', f)
  {
    if st.clients[f].party.Uploader? {
      UntouchedUploader(h, st, st', f);
    } else {
      UntouchedDownloadPhase(h, st, st', f);
      UntouchedSendsNoBlocks(h, st, st', f);
    }
  }

  lemma UntouchedUnknown(h: Hash, st: System, st': System, f: FlowId)
    requires Unknown(h, st, f) && Untouched(h, st, st', f)
    ensures Unknown(h, st', f)
  {
  }

  /** Each flow's part of the invariant is kept if it is untouched, or else shown to hold. */
  lemma FlowsKept(h: Hash, st: System, st': System)
    requires FlowsOk(h, st) && st'.proxy.nextFlow >= st.proxy.nextFlow
    requires forall f :: f in st.clients ==> ClientOk(h, st, f)
    requires forall f: FlowId :: Untouched(h, st, st', f) || (f in st'.clients && f < st'.proxy.nextFlow && ClientOk(h, st', f))
    ensures FlowsOk(h, st') && forall f :: f in st'.clients ==> ClientOk(h, st', f)
  {
    forall f: FlowId ensures if f in st'.clients then f < st'.proxy.nextFlow && ClientOk(h, st', f) else Unknown(h, st', f) {
      if Untouched(h, st, st', f) {
        if f in st.clients {
          UntouchedClient(h, st, st', f);
        } else {
          UntouchedUnknown(h, st, st', f);
        }
      }
    }
  }

  lemma IdsOkGrows(h: Hash, st: System, st': System)
    requires IdsOk(h, st) && Grown(st, st') && st'.proxy.ids == st.proxy.ids
    ensures IdsOk(h, st')
  {
    forall m | Held(st, m) ensures Held(st', m) {
      HeldGrows(st, st', m);
    }
  }

  // ----- Ends that take part in no stream -----

  lemma SameForSelf(h: Hash, e: ServerEnd, f: FlowId)
    ensures SameFor(h, e, e, f)
  {
  }
}
