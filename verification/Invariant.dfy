/** The invariant of the whole system: what holds in every state of every run. */
module Invariant {
  import opened Types
  import opened FileBlocks
  import SM = ServerModel
  import AM = AgentModel
  import DM = DownloaderModel
  import opened ProxyModel
  import opened SystemModel
  import opened ServerLinks

  // ----- Subscriptions -----

  /** The pending callbacks of a flow. */
  function Subs(p: Proxy, f: FlowId): set<(ServerId, Md5)> {
    set s, m | s in p.storages && m in p.storages[s].subs && f in p.storages[s].subs[m] :: (s, m)
  }

  /** No callback of a flow is registered twice for the same block at the same server. */
  ghost predicate SubsOnce(p: Proxy, f: FlowId) {
    forall s, m :: s in p.storages && m in p.storages[s].subs ==> VotesOnce(VotesOn(m, p.storages[s].subs[m]), f)
  }

  // ----- Servers -----

  predicate Announced(msgs: seq<Message>, m: Md5) {
    exists msg :: msg in msgs && (msg == UploadBlockAck(m) || (msg.TransferBlockSet? && m in msg.md5s))
  }

  /** The proxy's index of a server is sound, and what it lacks of the server's store is either
      announced by a message on its way or still to be announced in a block set. */
  ghost predicate IndexOk(e: ServerEnd, md5s: set<Md5>) {
    && md5s <= e.server.files.Keys
    && e.server.next <= |e.server.toSend|
    && forall m :: m in e.server.files ==>
         m in md5s || Announced(e.outq, m) || m in e.server.toSend[e.server.next..]
  }

  ghost predicate ServersOk(h: Hash, st: System) {
    && (forall s :: s in st.servers ==> s < st.nextServer && ServerEndOk(h, st.servers[s]))
    && (forall s :: s in st.proxy.storages ==> s in st.servers && IndexOk(st.servers[s], st.proxy.storages[s].md5s))
  }

  // ----- Ids -----

  ghost predicate IdsOk(h: Hash, st: System) {
    forall id :: id in st.proxy.ids ==>
      && id == FileId(h, st.proxy.ids[id])
      && forall m :: m in st.proxy.ids[id] ==> Held(st, m)
  }

  // ----- Uploading clients -----

  function Context(st: System, f: FlowId): Option<Client> {
    if f in st.proxy.clients then Some(st.proxy.clients[f]) else None
  }

  predicate IsUploader(st: System, f: FlowId) {
    f in st.clients && st.clients[f].party.Uploader?
  }

  function AgentOf(st: System, f: FlowId): AM.Agent
    requires IsUploader(st, f)
  {
    st.clients[f].party.agent
  }

  /** The number of first pieces among `msgs`. */
  function Firsts(msgs: seq<Message>): nat {
    if msgs == [] then 0
    else (if msgs[0].UploadBlock? && msgs[0].index == 0 then 1 else 0) + Firsts(msgs[1..])
  }

  /** The replies to an upload block that can be on their way while the agent is at `m`. */
  predicate RepliesTo(inq: seq<Message>, m: Md5) {
    inq == [] || inq == [UploadBlockAck(m)] || inq == [UploadBlockFail(m)]
  }

  predicate PiecesOnly(msgs: seq<Message>, m: Md5) {
    forall msg :: msg in msgs ==> msg.UploadBlock? && msg.flow == 0 && (msg.index == 0 ==> msg.md5 == m)
  }

  /** The current block's one token: it is a first piece on its way to the proxy, or a pending
      callback for this block, or a reply on its way back that names this block, and never two of
      them. (It is gone when the agent has overlooked an early reply.) Once a flow has begun a block,
      its pending callbacks and its counted votes are one in number. */
  ghost predicate Token(e: ClientEnd, m: Md5, c: Client, subs: set<(ServerId, Md5)>) {
    && PiecesOnly(e.outq, m)
    && Firsts(e.outq) + |subs| + |e.inq| <= 1
    && (forall x :: x in subs ==> x.1 == m)
    && (c.relay == [] ==> subs == {} && c.succ + c.fail == 0)
    && (c.relay != [] ==> |subs| + c.succ + c.fail == 1)
  }

  ghost predicate UploadPhase(h: Hash, e: ClientEnd, a: AM.Agent, ctx: Option<Client>, subs: set<(ServerId, Md5)>) {
    match a.phase
    case WaitingUploadResponse =>
      && (e.inq == [] || (|e.inq| == 1 && AM.Expected(a, e.inq[0])))
      && (ctx.Some? ==>
            && subs == {} && ctx.value.relay == [] && ctx.value.succ + ctx.value.fail == 0
            && if e.inq == [] then e.outq == [UploadRequest(AM.List(a))] && ctx.value.phase == Init
               else e.outq == [] && ctx.value.phase == WaitingUploadBlock && ctx.value.uploading == AM.List(a))
    case UploadingBlocks =>
      && a.current < |a.upload| && RepliesTo(e.inq, a.upload[a.current])
      && (ctx.Some? ==>
            && ctx.value.phase == WaitingUploadBlock && ctx.value.uploading == AM.List(a)
            && Token(e, a.upload[a.current], ctx.value, subs))
    case WaitingBlockAck =>
      && a.current < |a.upload| && RepliesTo(e.inq, a.upload[a.current])
      && (ctx.Some? ==>
            && ctx.value.phase == WaitingUploadBlock && ctx.value.uploading == AM.List(a)
            && Token(e, a.upload[a.current], ctx.value, subs))
    case WaitingFinalResult =>
      && (e.inq == [] || e.inq == [FileStoreSucc(FileId(h, AM.List(a)))])
      && (ctx.Some? ==>
            && subs == {} && ctx.value.uploading == AM.List(a) && Firsts(e.outq) == 0
            && if ctx.value.phase == WaitingUploadBlock
               then e.inq == [] && e.outq != [] && e.outq[|e.outq| - 1] == UploadAllBlocks
                    && forall msg :: msg in e.outq[..|e.outq| - 1] ==> msg.UploadBlock? && msg.flow == 0
               else e.outq == [] && e.inq != [] && ctx.value.phase == HaveUploadedAllBlocks)
    case Succ =>
      && e.inq == []
      && (ctx.Some? ==> subs == {} && e.outq == [] && ctx.value.phase == HaveUploadedAllBlocks)
    case _ => false
  }

  /** The stream of the flow's pieces. `at` is where it stands between what the proxy has relayed and
      what is still on its way to the proxy: the latter continues it to where the agent is, and every
      connected server gets exactly the stream the flow sends to it. Once the flow has left, every
      connected server is (or will be) rid of it. */
  ghost predicate StreamsAt(h: Hash, st: System, f: FlowId, at: SM.Stream)
    requires IsUploader(st, f)
  {
    var a := AgentOf(st, f);
    var ctx := Context(st, f);
    && (a.phase == AM.UploadingBlocks ==> AM.Sending(h, a))
    && (ctx.Some? ==>
          && SM.ReadAll(h, 0, at, st.clients[f].outq) == AM.Sent(h, a)
          && |ctx.value.relay| <= 1 && forall s :: s in ctx.value.relay ==> s in st.servers)
    && forall s :: s in st.proxy.storages && s in st.servers ==>
         StreamThrough(h, st.servers[s], f) == if ctx.Some? && ctx.value.relay == [s] then at else SM.Between
  }

  /** Which blocks of the agent's file are known to be stored. */
  ghost predicate BlocksHeld(h: Hash, st: System, f: FlowId)
    requires IsUploader(st, f)
  {
    var a := AgentOf(st, f);
    var inq := st.clients[f].inq;
    if a.phase == AM.WaitingUploadResponse then
      inq != [] && inq[0].UploadResponse? ==> forall m :: m in AM.List(a) ==> m in inq[0].md5s || Held(st, m)
    else
      && (forall m :: m in AM.List(a) ==> m in a.upload || Held(st, m))
      && (forall j :: 0 <= j < |a.upload| && j < a.current ==> Held(st, a.upload[j]))
      && (forall m :: UploadBlockAck(m) in inq ==> Held(st, m))
      && (a.phase == AM.Succ || FileStoreSucc(FileId(h, AM.List(a))) in inq ==> FileId(h, AM.List(a)) in st.proxy.ids)
  }

  /** What holds of an uploading client whatever is on its way. An agent in the middle of a block has
      a write under way, so it will be called again. */
  ghost predicate UploaderCore(h: Hash, st: System, f: FlowId)
    requires IsUploader(st, f)
  {
    && AM.AgentOk(h, AgentOf(st, f))
    && (AgentOf(st, f).phase == AM.UploadingBlocks ==> st.clients[f].party.writing)
    && (forall s :: s in st.servers ==> Pipe(st.servers[s], f) == [])
  }

  ghost predicate UploaderAt(h: Hash, st: System, f: FlowId, at: SM.Stream)
    requires IsUploader(st, f)
  {
    && UploaderCore(h, st, f)
    && UploadPhase(h, st.clients[f], AgentOf(st, f), Context(st, f), Subs(st.proxy, f))
    && (f in st.proxy.clients ==> SubsOnce(st.proxy, f))
    && StreamsAt(h, st, f, at)
    && BlocksHeld(h, st, f)
  }

  ghost predicate UploaderOk(h: Hash, st: System, f: FlowId)
    requires IsUploader(st, f)
  {
    exists at :: UploaderAt(h, st, f, at)
  }

  // ----- Downloading clients -----

  predicate IsDownloader(st: System, f: FlowId) {
    f in st.clients && st.clients[f].party.Downloader?
  }

  function DownloaderOf(st: System, f: FlowId): DM.Downloader
    requires IsDownloader(st, f)
  {
    st.clients[f].party.downloader
  }

  ghost predicate Stored(st: System, m: Md5, content: Bytes) {
    exists s :: s in st.servers && m in st.servers[s].server.files && st.servers[s].server.files[m] == content
  }

  /** `chunks` are stored contents of the blocks `ms`, in order. */
  ghost predicate Fetched(st: System, ms: seq<Md5>, chunks: seq<Bytes>) {
    |chunks| == |ms| && forall i :: 0 <= i < |ms| ==> Stored(st, ms[i], chunks[i])
  }

  /** What flow `f` can still get through server `s`: nothing once the session has closed. */
  function PipeOf(st: System, s: ServerId, f: FlowId): seq<Message> {
    if s in st.proxy.storages && s in st.servers then Pipe(st.servers[s], f) else []
  }

  /** No connected server has anything of the flow in hand. */
  ghost predicate Idle(st: System, f: FlowId) {
    forall s :: PipeOf(st, s, f) == []
  }

  /** The flow's current block is on its way through server `s` alone: what the client has yet to read
      and what the server has yet to send are together the rest of the block, and what the client has
      written is the blocks before and the start of this one. */
  ghost predicate Transfering(st: System, f: FlowId, c: Client, s: ServerId, chunks: seq<Bytes>, content: Bytes, offset: nat, index: nat)
    requires IsDownloader(st, f)
  {
    && c.index < |c.needed|
    && (forall s' :: s' != s ==> PipeOf(st, s', f) == [])
    && Fetched(st, c.needed[..c.index], chunks) && Stored(st, c.needed[c.index], content)
    && offset <= |content|
    && st.clients[f].inq + PipeOf(st, s, f) == Pieces(c.needed[c.index], f, content, offset, index)
    && DownloaderOf(st, f).written == Flatten(chunks) + content[..offset]
  }

  /** The client has read its current block to the end and acknowledged it. */
  ghost predicate Acknowledged(st: System, f: FlowId, c: Client, chunks: seq<Bytes>)
    requires IsDownloader(st, f)
  {
    var e := st.clients[f];
    && c.index < |c.needed|
    && e.outq == [TransferBlockAck(c.needed[c.index])] && e.inq == [] && Idle(st, f)
    && Fetched(st, c.needed[..c.index + 1], chunks)
    && DownloaderOf(st, f).written == Flatten(chunks)
  }

  /** Server `s` has left with pieces of the flow's current block that will never arrive. */
  ghost predicate StrandedAt(st: System, f: FlowId, s: ServerId) {
    s in st.servers && s !in st.proxy.storages && Pipe(st.servers[s], f) != []
  }

  /** The server that had the current block in hand has left. */
  ghost predicate Stranded(st: System, f: FlowId)
    requires IsDownloader(st, f)
  {
    && Idle(st, f) && st.clients[f].outq == [] && (exists s :: StrandedAt(st, f, s))
    && forall msg :: msg in st.clients[f].inq ==> msg.TransferBlock? && !msg.eof
  }

  /** Where a flow that waits for a block can be. */
  ghost predicate Waiting(st: System, f: FlowId, c: Client)
    requires IsDownloader(st, f)
  {
    || (st.clients[f].outq == [] && exists s, chunks, content, offset, index :: Transfering(st, f, c, s, chunks, content, offset, index))
    || (exists chunks :: Acknowledged(st, f, c, chunks))
    || Stranded(st, f)
  }

  /** The file has been transferred in full, whether or not the client has read the last message. */
  ghost predicate Transfered(st: System, f: FlowId, chunks: seq<Bytes>)
    requires IsDownloader(st, f)
  {
    var e := st.clients[f];
    var d := DownloaderOf(st, f);
    && d.id in st.proxy.ids && Fetched(st, st.proxy.ids[d.id], chunks) && d.written == Flatten(chunks)
    && ((d.phase == DM.Receiving && e.inq == [TransferAllBlocks]) || (d.phase == DM.Done && e.inq == []))
  }

  ghost predicate DownloadPhase(st: System, f: FlowId)
    requires IsDownloader(st, f)
  {
    var e := st.clients[f];
    var d := DownloaderOf(st, f);
    match Context(st, f)
    case None =>
      || (exists chunks :: Transfered(st, f, chunks))
      || (d.phase != DM.Done && TransferAllBlocks !in e.inq)
    case Some(c) =>
      match c.phase
      case Init =>
        && c.index == 0 && Idle(st, f)
        && if e.outq != []
           then d.phase == DM.Receiving && d.written == [] && e.outq == [DownloadRequest(d.id, [])] && e.inq == []
           else (d.phase == DM.Receiving && e.inq == [FileNotExist(d.id)]) || (d.phase == DM.Failed && e.inq == [])
      case WaitingTransferBlock =>
        && d.phase == DM.Receiving
        && d.id in st.proxy.ids && c.needed == st.proxy.ids[d.id] && c.index < |c.needed|
        && Waiting(st, f, c)
      case HaveTransferedAllBlocks =>
        e.outq == [] && Idle(st, f) && exists chunks :: Transfered(st, f, chunks)
      case _ => false
  }

  ghost predicate NotCleaned(st: System, f: FlowId) {
    forall s :: s in st.servers ==> ClientClean(f) !in st.servers[s].inq
  }

  ghost predicate DownloaderOk(st: System, f: FlowId)
    requires IsDownloader(st, f)
  {
    && Subs(st.proxy, f) == {}
    && DownloadPhase(st, f)
    && (f !in st.proxy.clients ==>
          forall s :: s in st.proxy.storages && s in st.servers ==>
            !BusyAfter(f in st.servers[s].server.downloads, st.servers[s].inq, f))
    && (f in st.proxy.clients ==> NotCleaned(st, f))
  }

  /** No server has, or will have, anything uploaded by the flow in hand. */
  ghost predicate SendsNoBlocks(h: Hash, st: System, f: FlowId) {
    forall s :: s in st.servers ==> StreamThrough(h, st.servers[s], f) == SM.Between
  }

  // ----- All of it -----

  /** A flow id not given out yet is unknown everywhere. */
  ghost predicate Unknown(h: Hash, st: System, f: FlowId) {
    && f !in st.proxy.clients && Subs(st.proxy, f) == {}
    && forall s :: s in st.servers ==>
         && StreamThrough(h, st.servers[s], f) == SM.Between && Pipe(st.servers[s], f) == []
         && ClientClean(f) !in st.servers[s].inq
  }

  ghost predicate FlowsOk(h: Hash, st: System) {
    && (forall f :: f in st.clients ==> f < st.proxy.nextFlow)
    && (forall f :: f !in st.clients ==> Unknown(h, st, f))
  }

  ghost predicate ClientOk(h: Hash, st: System, f: FlowId)
    requires f in st.clients
  {
    match st.clients[f].party
    case Uploader(_, _) => UploaderOk(h, st, f)
    case Downloader(_) => DownloaderOk(st, f) && SendsNoBlocks(h, st, f)
  }

  ghost predicate Inv(h: Hash, st: System) {
    && ServersOk(h, st) && IdsOk(h, st) && FlowsOk(h, st)
    && forall f :: f in st.clients ==> ClientOk(h, st, f)
  }
}
