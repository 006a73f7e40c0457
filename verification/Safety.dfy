/** What holds in every reachable state, however many clients and servers come and go and however
    their steps interleave. */
module Safety {
  import opened Types
  import opened FileBlocks
  import SM = ServerModel
  import AM = AgentModel
  import opened ProxyModel
  import opened SystemModel
  import opened ServerLinks
  import opened Invariant
  import opened ServerHandlers
  import opened UploadHandlers
  import opened Runs

  ghost predicate Reachable(h: Hash, st: System) {
    exists run, acts :: IsRun(h, run, acts) && st == run[|acts|]
  }

  lemma ReachableInv(h: Hash, st: System)
    requires Reachable(h, st)
    ensures Inv(h, st)
  {
    var run, acts :| IsRun(h, run, acts) && st == run[|acts|];
    RunKeeps(h, run, acts, |acts|);
  }

  /** Some server stores `m`, with content that has this hash. */
  ghost predicate Safe(h: Hash, st: System, m: Md5) {
    exists s :: s in st.servers && m in st.servers[s].server.files && h(st.servers[s].server.files[m]) == m
  }

  lemma HeldSafe(h: Hash, st: System, m: Md5)
    requires ServersOk(h, st) && Held(st, m)
    ensures Safe(h, st, m)
  {
    var s :| s in st.servers && m in st.servers[s].server.files;
    assert ServerEndOk(h, st.servers[s]);
  }

  // ----- Uploads -----

  lemma SuccessHeld(h: Hash, st: System, f: FlowId, id: Md5)
    requires IsUploader(st, f) && UploaderOk(h, st, f)
    requires FileStoreSucc(id) in st.clients[f].inq || (AgentOf(st, f).phase == AM.Succ && id == FileId(h, AM.List(AgentOf(st, f))))
    ensures id == FileId(h, AM.List(AgentOf(st, f))) && id in st.proxy.ids
    ensures forall m :: m in AM.List(AgentOf(st, f)) ==> Held(st, m)
  {
    var a := AgentOf(st, f);
    assert a.phase == AM.WaitingFinalResult || a.phase == AM.Succ;
    AllHeld(h, st, f);
  }

  /** Registered means stored: when the proxy tells a client that its file is stored, the id is
      registered, and every block of the list registered under it, and every block of the client's own
      file, is stored somewhere. The proxy checks nothing of this. */
  lemma RegisteredMeansStored(h: Hash, st: System, f: FlowId, id: Md5)
    requires Reachable(h, st) && IsUploader(st, f)
    requires FileStoreSucc(id) in st.clients[f].inq || (AgentOf(st, f).phase == AM.Succ && id == FileId(h, AM.List(AgentOf(st, f))))
    ensures id == FileId(h, AM.List(AgentOf(st, f)))
    ensures id in st.proxy.ids && id == FileId(h, st.proxy.ids[id])
    ensures forall m :: m in st.proxy.ids[id] || m in AM.List(AgentOf(st, f)) ==> Safe(h, st, m)
  {
    ReachableInv(h, st);
    assert UploaderOk(h, st, f) by {
      assert ClientOk(h, st, f);
    }
    SuccessHeld(h, st, f, id);
    forall m | m in st.proxy.ids[id] || m in AM.List(AgentOf(st, f)) ensures Safe(h, st, m) {
      HeldSafe(h, st, m);
    }
  }

  /** Every id is the hash of the list registered under it, and every block listed is stored. */
  lemma IdsDetermined(h: Hash, st: System, id: Md5)
    requires Reachable(h, st) && id in st.proxy.ids
    ensures id == FileId(h, st.proxy.ids[id]) && forall m :: m in st.proxy.ids[id] ==> Safe(h, st, m)
  {
    ReachableInv(h, st);
    forall m | m in st.proxy.ids[id] ensures Safe(h, st, m) {
      HeldSafe(h, st, m);
    }
  }

  /** The agent never looks at the md5 of a reply, but the only reply it can get names the block it is
      at, and an acknowledgement tells of a block that is stored. */
  lemma AckAlignment(h: Hash, st: System, f: FlowId)
    requires Reachable(h, st) && IsUploader(st, f) && st.clients[f].inq != []
    requires AgentOf(st, f).phase == AM.UploadingBlocks || AgentOf(st, f).phase == AM.WaitingBlockAck
    ensures
      var a := AgentOf(st, f);
      && a.current < |a.upload|
      && (|| (st.clients[f].inq == [UploadBlockAck(a.upload[a.current])] && Safe(h, st, a.upload[a.current]))
          || st.clients[f].inq == [UploadBlockFail(a.upload[a.current])])
  {
    ReachableInv(h, st);
    assert ClientOk(h, st, f);
    var a := AgentOf(st, f);
    if st.clients[f].inq == [UploadBlockAck(a.upload[a.current])] {
      assert UploadBlockAck(a.upload[a.current]) in st.clients[f].inq;
      HeldSafe(h, st, a.upload[a.current]);
    }
  }

  /** One reply per block: what there is of first pieces on their way, pending callbacks and replies on
      their way is never more than one, and names the current block; and once the flow has begun a
      block, pending callbacks and counted votes are one in number. */
  lemma OneReplyPerBlock(h: Hash, st: System, f: FlowId)
    requires Reachable(h, st) && IsUploader(st, f) && f in st.proxy.clients
    requires AgentOf(st, f).phase == AM.UploadingBlocks || AgentOf(st, f).phase == AM.WaitingBlockAck
    ensures
      var a, e, c, subs := AgentOf(st, f), st.clients[f], st.proxy.clients[f], Subs(st.proxy, f);
      && a.current < |a.upload|
      && Firsts(e.outq) + |subs| + |e.inq| <= 1
      && (forall x :: x in subs ==> x.1 == a.upload[a.current])
      && (c.relay != [] ==> |subs| + c.succ + c.fail == 1)
      && SubsOnce(st.proxy, f)
  {
    ReachableInv(h, st);
    assert ClientOk(h, st, f);
  }

  /** Upload isolation: whatever other flows share the connection, the server's accumulator, continued
      by the pieces on their way to the server and those on their way to the proxy, is exactly the
      part of the current block that the agent has sent; a server not used for this block has nothing. */
  lemma UploadIsolation(h: Hash, st: System, f: FlowId, s: ServerId)
    requires Reachable(h, st) && IsUploader(st, f) && f in st.proxy.clients
    requires s in st.proxy.storages
    ensures s in st.servers && (AgentOf(st, f).phase == AM.UploadingBlocks ==> AM.Sending(h, AgentOf(st, f)))
    ensures
      var through := StreamThrough(h, st.servers[s], f);
      if st.proxy.clients[f].relay == [s]
      then SM.ReadAll(h, 0, through, st.clients[f].outq) == AM.Sent(h, AgentOf(st, f))
      else through == SM.Between
  {
    ReachableInv(h, st);
    assert ClientOk(h, st, f);
    var at :| UploaderAt(h, st, f, at);
  }

  /** With the channels drained the accumulator is the prefix of the block sent so far. */
  lemma AccumulatorIsPrefix(h: Hash, st: System, f: FlowId, s: ServerId)
    requires Reachable(h, st) && IsUploader(st, f) && f in st.proxy.clients && st.clients[f].outq == []
    requires s in st.proxy.storages && s in st.servers && st.servers[s].inq == []
    requires st.proxy.clients[f].relay == [s] && AgentOf(st, f).phase == AM.UploadingBlocks
    ensures
      var a := AgentOf(st, f);
      && AM.Sending(h, a)
      && f in st.servers[s].server.uploads
      && st.servers[s].server.uploads[f] == SM.Upload(Some(a.upload[a.current]), AM.CurrentBlock(h, a)[..a.offset])
  {
    UploadIsolation(h, st, f, s);
    assert SM.Accumulated(st.servers[s].server, f) == AM.Sent(h, AgentOf(st, f));
    assert AgentOf(st, f).piece > 0 by {
      ReachableInv(h, st);
      assert ClientOk(h, st, f);
    }
  }

  lemma NoFailSent(h: Hash, e: ServerEnd)
    requires ServerEndOk(h, e) && e.inq != []
    ensures forall msg :: msg in SM.OnMessage(h, e.server, e.inq[0]).sends ==> !msg.UploadBlockFail?
  {
    ReceiveAcceptable(h, e);
    if e.inq[0].UploadBlock? {
      StreamHead(h, e, e.inq[0].flow);
    }
    ReceiveSends(h, e.server, e.inq[0]);
  }

  /** No server ever reports a mismatch, now or when it handles its next message. */
  lemma NoMismatch(h: Hash, st: System, s: ServerId)
    requires Reachable(h, st) && s in st.servers
    ensures forall msg :: msg in st.servers[s].outq ==> !msg.UploadBlockFail?
    ensures st.servers[s].inq != [] ==>
              forall msg :: msg in SM.OnMessage(h, st.servers[s].server, st.servers[s].inq[0]).sends ==> !msg.UploadBlockFail?
  {
    assert ServerEndOk(h, st.servers[s]) by {
      ReachableInv(h, st);
    }
    if st.servers[s].inq != [] {
      NoFailSent(h, st.servers[s]);
    }
  }

  // ----- The index -----

  /** The index agrees with the store: the server stores exactly the md5s in the proxy's index, those
      announced by a message on its way, and those still to be announced in a block set; and the path
      table lists exactly the blocks that have a file. */
  lemma IndexAgrees(h: Hash, st: System, s: ServerId)
    requires Reachable(h, st) && s in st.proxy.storages
    ensures s in st.servers
    ensures
      var e, md5s := st.servers[s], st.proxy.storages[s].md5s;
      && e.server.next <= |e.server.toSend| && e.server.items == e.server.files.Keys
      && (forall m :: m in e.server.files <==> m in md5s || Announced(e.outq, m) || m in e.server.toSend[e.server.next..])
      && (e.server.phase == SM.Working && e.outq == [] ==> md5s == e.server.files.Keys)
  {
    ReachableInv(h, st);
    var e := st.servers[s];
    assert ServerEndOk(h, e);
    forall m | Announced(e.outq, m) ensures m in e.server.files {
      var msg :| msg in e.outq && (msg == UploadBlockAck(m) || (msg.TransferBlockSet? && m in msg.md5s));
      assert FromServerOk(e, msg);
    }
  }

  // ----- Servers -----

  /** The count of a cached block is the number of downloads that use it, it is never 0, no download
      uses a block that is not cached, and what is cached is what is stored. */
  lemma CacheCounts(h: Hash, st: System, s: ServerId)
    requires Reachable(h, st) && s in st.servers
    ensures
      var sv := st.servers[s].server;
      && (forall m :: m in sv.cache ==>
            && sv.cache[m].ref == |SM.Users(sv.downloads, m)| > 0
            && m in sv.files && sv.cache[m].content == sv.files[m] && h(sv.files[m]) == m)
      && (forall f :: f in sv.downloads ==> sv.downloads[f].md5 in sv.cache)
  {
    ReachableInv(h, st);
    assert ServerEndOk(h, st.servers[s]);
  }

  /** None of a server's assertions and exits is ever reached. */
  lemma ServerNeverExits(h: Hash, st: System, s: ServerId)
    requires Reachable(h, st) && s in st.servers
    ensures st.servers[s].inq != [] ==> SM.OnMessage(h, st.servers[s].server, st.servers[s].inq[0]).outcome == Ok
    ensures SM.OnWriteComplete(st.servers[s].server).outcome == Ok
  {
    ReachableInv(h, st);
    var e := st.servers[s];
    assert ServerEndOk(h, e);
    SM.OnWriteCompleteKeeps(h, e.server);
    if e.inq != [] {
      ReceiveAcceptable(h, e);
      SM.OnMessageKeeps(h, e.server, e.inq[0]);
    }
  }

  /** None of an agent's assertions and exits is ever reached; it closes only when told of a failure. */
  lemma AgentNeverExits(h: Hash, st: System, f: FlowId)
    requires Reachable(h, st) && IsUploader(st, f)
    ensures st.clients[f].inq != [] ==>
              var r := AM.OnMessage(AgentOf(st, f), st.clients[f].inq[0]);
              && r.outcome != Exit
              && (r.outcome == Close <==> AgentOf(st, f).phase == AM.WaitingBlockAck && st.clients[f].inq[0].UploadBlockFail?)
    ensures AM.OnWriteComplete(AgentOf(st, f)).outcome == Ok
  {
    ReachableInv(h, st);
    assert ClientOk(h, st, f);
    AM.OnWriteCompleteFollows(h, AgentOf(st, f));
    if st.clients[f].inq != [] {
      assert AM.Expected(AgentOf(st, f), st.clients[f].inq[0]);
      AM.OnMessageFollows(h, AgentOf(st, f), st.clients[f].inq[0]);
    }
  }

  /** No lost wake-up: who has more to send has a write under way, so a write-complete event is due. */
  lemma NoLostWakeUp(h: Hash, st: System)
    requires Reachable(h, st)
    ensures forall s :: s in st.servers && (st.servers[s].server.downloads != map[] || st.servers[s].server.phase == SM.TransferingBlockSet) ==>
              st.servers[s].writing
    ensures forall f :: IsUploader(st, f) && AgentOf(st, f).phase == AM.UploadingBlocks ==> st.clients[f].party.writing
  {
    ReachableInv(h, st);
    forall s | s in st.servers ensures Awake(st.servers[s]) {
      assert ServerEndOk(h, st.servers[s]);
    }
    forall f | IsUploader(st, f) && AgentOf(st, f).phase == AM.UploadingBlocks ensures st.clients[f].party.writing {
      assert ClientOk(h, st, f);
    }
  }

  // ----- The proxy's own ends -----

  /** The proxy process ends on a client's message in exactly two cases: a block is to be uploaded and
      no server is connected, or a registered file of no blocks is asked for. */
  lemma ProxyExitsExactly(h: Hash, st: System, f: FlowId, pick: ServerId)
    requires Reachable(h, st) && f in st.proxy.clients && f in st.clients && st.clients[f].outq != []
    requires PickOk(st.proxy, f, st.clients[f].outq[0], pick)
    ensures
      var msg := st.clients[f].outq[0];
      OnClientMessage(h, st.proxy, f, msg, pick).outcome == Exit <==>
        || (msg.UploadBlock? && msg.index == 0 && st.proxy.storages == map[])
        || (msg.DownloadRequest? && msg.id in st.proxy.ids && st.proxy.ids[msg.id] == [])
  {
    ReachableInv(h, st);
    assert ClientOk(h, st, f);
    if st.clients[f].party.Uploader? {
      FromUploaderIs(h, st, f, pick);
    } else {
      FromDownloaderIs(h, st, f, pick);
      DownloadHandlersSends(st, f);
    }
  }

  lemma DownloadHandlersSends(st: System, f: FlowId)
    requires IsDownloader(st, f) && DownloaderOk(st, f) && f in st.proxy.clients && st.clients[f].outq != []
    ensures st.clients[f].outq[0] == DownloadRequest(DownloaderOf(st, f).id, []) || st.clients[f].outq[0].TransferBlockAck?
    ensures st.clients[f].outq[0].TransferBlockAck? <==> st.proxy.clients[f].phase == WaitingTransferBlock
  {
  }

  /** The proxy closes a client's session on a message in exactly one case: the next block wanted is in
      no connected server's index. */
  lemma ProxyClosesExactly(h: Hash, st: System, f: FlowId, pick: ServerId)
    requires Reachable(h, st) && f in st.proxy.clients && f in st.clients && st.clients[f].outq != []
    ensures
      var msg := st.clients[f].outq[0];
      OnClientMessage(h, st.proxy, f, msg, pick).outcome == Close <==>
        exists m :: Wanted(st.proxy, f, msg) == Some(m) && !Indexed(st.proxy, m)
  {
    ReachableInv(h, st);
    assert ClientOk(h, st, f);
    if st.clients[f].party.Uploader? {
      FromUploaderIs(h, st, f, pick);
    } else {
      FromDownloaderIs(h, st, f, pick);
    }
  }

  /** The proxy closes a server's session on a message exactly when the message is not of the kind its
      phase expects: a block set from a server taken to be complete, or anything else from one that is
      not, although the server may already be chosen for blocks. */
  lemma ProxyDropsServerExactly(h: Hash, st: System, s: ServerId)
    requires Reachable(h, st) && s in st.proxy.storages && s in st.servers && st.servers[s].outq != []
    ensures
      var msg := st.servers[s].outq[0];
      && OnServerMessage(st.proxy, s, msg).outcome != Exit
      && (OnServerMessage(st.proxy, s, msg).outcome == Close <==> (st.proxy.storages[s].phase == WaitingBlockSet) != msg.TransferBlockSet?)
  {
    ReachableInv(h, st);
    ServerSends(h, st, s);
    ServerOutcome(st.proxy, s, st.servers[s].outq[0]);
  }

  // ----- Downloads -----

  /** The number of pieces that end a block. */
  function Ends(msgs: seq<Message>): nat {
    if msgs == [] then 0 else (if msgs[0].TransferBlock? && msgs[0].eof then 1 else 0) + Ends(msgs[1..])
  }

  lemma {:induction false} EndsOf(m: Md5, f: FlowId, content: Bytes, offset: nat, index: nat)
    requires offset <= |content|
    ensures Ends(Pieces(m, f, content, offset, index)) == 1
    decreases |content| - offset
  {
    var all := Pieces(m, f, content, offset, index);
    if offset + PIECE_SIZE < |content| {
      EndsOf(m, f, content, offset + PIECE_SIZE, index + 1);
      assert all[1..] == Pieces(m, f, content, offset + PIECE_SIZE, index + 1);
    } else {
      assert all[1..] == [];
    }
  }

  lemma {:induction false} NoEnds(msgs: seq<Message>)
    requires forall msg :: msg in msgs ==> !msg.TransferBlock? || !msg.eof
    ensures Ends(msgs) == 0
  {
    if msgs != [] {
      assert msgs[0] in msgs;
      NoEnds(msgs[1..]);
    }
  }

  lemma TransferingEnds(st: System, f: FlowId, c: Client, s0: ServerId, chunks: seq<Bytes>, content: Bytes, offset: nat, index: nat, s: ServerId)
    requires IsDownloader(st, f) && Transfering(st, f, c, s0, chunks, content, offset, index)
    ensures Ends(st.clients[f].inq + PipeOf(st, s, f)) <= 1
    ensures forall t :: t != s && PipeOf(st, s, f) != [] ==> PipeOf(st, t, f) == []
  {
    EndsOf(c.needed[c.index], f, content, offset, index);
    if s != s0 {
      PrefixEnds(st.clients[f].inq, PipeOf(st, s0, f));
      assert st.clients[f].inq + PipeOf(st, s, f) == st.clients[f].inq;
    }
  }

  lemma IdleEnds(st: System, f: FlowId, s: ServerId)
    requires f in st.clients && Idle(st, f) && forall msg :: msg in st.clients[f].inq ==> !msg.TransferBlock? || !msg.eof
    ensures Ends(st.clients[f].inq + PipeOf(st, s, f)) == 0 && PipeOf(st, s, f) == []
  {
    assert st.clients[f].inq + [] == st.clients[f].inq;
    NoEnds(st.clients[f].inq);
  }

  /** One outstanding request per flow: the pipe of a server holds one final piece for every request on
      its way and for every block it is sending; at most one server has a pipe for the flow; and the
      final pieces unread and the messages to the proxy are at most one together. So the server never
      finds a second request of a flow it serves. */
  lemma OneOutstandingRequest(h: Hash, st: System, f: FlowId, s: ServerId, t: ServerId)
    requires Reachable(h, st) && IsDownloader(st, f) && f in st.proxy.clients
    ensures Ends(st.clients[f].inq + PipeOf(st, s, f)) + |st.clients[f].outq| <= 1
    ensures s != t && PipeOf(st, s, f) != [] ==> PipeOf(st, t, f) == []
  {
    assert DownloaderOk(st, f) by {
      ReachableInv(h, st);
      assert ClientOk(h, st, f);
    }
    var c, e := st.proxy.clients[f], st.clients[f];
    if c.phase == WaitingTransferBlock && e.outq == [] && !Stranded(st, f) {
      var s0: ServerId, chunks, content, offset: nat, index: nat :| Transfering(st, f, c, s0, chunks, content, offset, index);
      TransferingEnds(st, f, c, s0, chunks, content, offset, index, s);
    } else {
      IdleEnds(st, f, s);
    }
  }

  lemma {:induction false} PrefixEnds(a: seq<Message>, b: seq<Message>)
    ensures Ends(a + b) == Ends(a) + Ends(b)
  {
    if a == [] {
      assert a + b == b;
    } else {
      assert (a + b)[1..] == a[1..] + b && (a + b)[0] == a[0];
      PrefixEnds(a[1..], b);
    }
  }

  lemma HeadIsWanted(h: Hash, st: System, s: ServerId, f: FlowId, c: Client)
    requires s in st.proxy.storages && s in st.servers && st.servers[s].outq != []
    requires st.servers[s].outq[0].TransferBlock? && st.servers[s].outq[0].flow == f && IsDownloader(st, f)
    requires exists t, chunks, content, offset, index :: Transfering(st, f, c, t, chunks, content, offset, index)
    ensures c.index < |c.needed| && c.needed[c.index] == st.servers[s].outq[0].md5
  {
    var t: ServerId, chunks, content, offset: nat, index: nat :| Transfering(st, f, c, t, chunks, content, offset, index);
    DeliverPipe(h, st, s, s);
    assert PipeOf(st, s, f)[0] == st.servers[s].outq[0];
    PiecesAreTheBlock(c.needed[c.index], f, content, offset, index);
    assert st.servers[s].outq[0] == (st.clients[f].inq + PipeOf(st, s, f))[|st.clients[f].inq|];
  }

  /** No misdelivery: a piece from a server is for a flow that is downloading, and if that flow is still
      there it waits for exactly this block. */
  lemma NoMisdelivery(h: Hash, st: System, s: ServerId)
    requires Reachable(h, st) && s in st.proxy.storages && s in st.servers && st.servers[s].outq != []
    requires st.servers[s].outq[0].TransferBlock?
    ensures
      var msg := st.servers[s].outq[0];
      && IsDownloader(st, msg.flow)
      && (msg.flow in st.proxy.clients ==>
            var c := st.proxy.clients[msg.flow];
            c.phase == WaitingTransferBlock && c.index < |c.needed| && c.needed[c.index] == msg.md5)
  {
    ReachableInv(h, st);
    UnknownPiece(h, st, s);
    PieceOwner(h, st, s);
    var f := st.servers[s].outq[0].flow;
    if f in st.proxy.clients {
      HeadIsWanted(h, st, s, f, st.proxy.clients[f]);
    }
  }

  /** Cleanup: once a flow has left and the channel to a server is drained, the server has no context
      of the flow. */
  lemma NoContextLeft(h: Hash, st: System, f: FlowId, s: ServerId)
    requires Reachable(h, st) && f !in st.proxy.clients
    requires s in st.proxy.storages && s in st.servers && st.servers[s].inq == []
    ensures f !in st.servers[s].server.uploads && f !in st.servers[s].server.downloads
  {
    ReachableInv(h, st);
    var e := st.servers[s];
    assert ServerEndOk(h, e);
    if f !in st.clients {
      KnownFlow(h, st, f);
      NothingInHand(h, e, f);
    } else {
      assert ClientOk(h, st, f);
      if st.clients[f].party.Uploader? {
        GoneUploader(h, st, f, s);
      } else {
        GoneDownloader(h, st, f, s);
      }
    }
  }

  lemma NothingInHand(h: Hash, e: ServerEnd, f: FlowId)
    requires ServerEndOk(h, e) && e.inq == [] && StreamThrough(h, e, f) == SM.Between && Pipe(e, f) == []
    ensures f !in e.server.uploads && f !in e.server.downloads
  {
    EmptyPipe(h, e, f);
  }

  lemma GoneUploader(h: Hash, st: System, f: FlowId, s: ServerId)
    requires IsUploader(st, f) && UploaderOk(h, st, f) && f !in st.proxy.clients
    requires s in st.proxy.storages && s in st.servers && st.servers[s].inq == [] && ServerEndOk(h, st.servers[s])
    ensures f !in st.servers[s].server.uploads && f !in st.servers[s].server.downloads
  {
    var at :| UploaderAt(h, st, f, at);
    NothingInHand(h, st.servers[s], f);
  }

  lemma GoneDownloader(h: Hash, st: System, f: FlowId, s: ServerId)
    requires IsDownloader(st, f) && DownloaderOk(st, f) && SendsNoBlocks(h, st, f) && f !in st.proxy.clients
    requires s in st.proxy.storages && s in st.servers && st.servers[s].inq == []
    ensures f !in st.servers[s].server.uploads && f !in st.servers[s].server.downloads
  {
    assert StreamThrough(h, st.servers[s], f) == SM.Accumulated(st.servers[s].server, f);
  }
}
