/** The steps of the clients keep the invariant. */
module ClientSteps {
  import opened Types
  import opened FileBlocks
  import SM = ServerModel
  import AM = AgentModel
  import opened ProxyModel
  import opened SystemModel
  import opened ServerLinks
  import opened Invariant
  import opened Frames

  // ----- First pieces -----

  lemma {:induction false} FirstsAppend(a: seq<Message>, b: seq<Message>)
    ensures Firsts(a + b) == Firsts(a) + Firsts(b)
  {
    if a == [] {
      assert a + b == b;
    } else {
      assert (a + b)[1..] == a[1..] + b;
      FirstsAppend(a[1..], b);
    }
  }

  lemma FirstsOne(msg: Message)
    ensures Firsts([msg]) == if msg.UploadBlock? && msg.index == 0 then 1 else 0
  {
    assert [msg][1..] == [];
  }

  lemma {:induction false} NoFirsts(msgs: seq<Message>)
    requires Firsts(msgs) == 0
    ensures forall msg :: msg in msgs && msg.UploadBlock? ==> msg.index > 0
  {
    if msgs != [] {
      NoFirsts(msgs[1..]);
      assert msgs == [msgs[0]] + msgs[1..];
    }
  }

  // ----- A client on its own -----

  lemma ClientAloneUntouched(h: Hash, st: System, f: FlowId, e': ClientEnd, g: FlowId)
    requires f in st.clients && g != f
    ensures Untouched(h, st, WithClient(st, f, e'), g)
  {
    forall s | s in st.servers ensures SameFor(h, st.servers[s], st.servers[s], g) {
      SameForSelf(h, st.servers[s], g);
    }
  }

  /** What a client does on its own concerns no other flow. */
  lemma ClientAlone(h: Hash, st: System, f: FlowId, e': ClientEnd)
    requires Inv(h, st) && f in st.clients && ClientOk(h, WithClient(st, f, e'), f)
    ensures Inv(h, WithClient(st, f, e'))
  {
    var st' := WithClient(st, f, e');
    assert FlowsOk(h, st') && forall g :: g in st'.clients ==> ClientOk(h, st', g) by {
      forall g: FlowId | g != f ensures Untouched(h, st, st', g) {
        ClientAloneUntouched(h, st, f, e', g);
      }
      FlowsKept(h, st, st');
    }
    assert ServersOk(h, st');
    assert IdsOk(h, st') by {
      ClientAloneUntouched(h, st, f, e', f + 1);
      IdsOkGrows(h, st, st');
    }
  }

  // ----- The uploading client -----

  /** The parts of UploaderOk that a step of the client can change. */
  lemma UploaderMoves(h: Hash, st: System, f: FlowId, e': ClientEnd, sends: seq<Message>)
    requires IsUploader(st, f) && UploaderOk(h, st, f) && e'.party.Uploader?
    requires AM.AgentOk(h, e'.party.agent) && e'.outq == st.clients[f].outq + sends
    requires e'.party.agent.phase == AM.UploadingBlocks ==> e'.party.writing
    requires UploadPhase(h, e', e'.party.agent, Context(st, f), Subs(st.proxy, f))
    requires SM.ReadAll(h, 0, AM.Sent(h, AgentOf(st, f)), sends) == AM.Sent(h, e'.party.agent)
    requires BlocksHeld(h, WithClient(st, f, e'), f)
    ensures ClientOk(h, WithClient(st, f, e'), f)
  {
    var st' := WithClient(st, f, e');
    var at :| UploaderAt(h, st, f, at);
    SM.ReadAllAppend(h, 0, at, st.clients[f].outq, sends);
    assert Context(st', f) == Context(st, f);
    assert st'.clients[f].outq == st.clients[f].outq + sends;
    assert StreamsAt(h, st', f, at);
    assert UploaderAt(h, st', f, at);
  }

  lemma UploadPhaseStarts(h: Hash, e: ClientEnd, a: AM.Agent, ctx: Option<Client>, subs: set<(ServerId, Md5)>, r: AM.AgentResult, current: nat)
    requires e.inq != [] && UploadPhase(h, e, a, ctx, subs)
    requires (a.phase == AM.WaitingUploadResponse && current == 0 && r.agent.upload == e.inq[0].md5s)
          || (a.phase == AM.WaitingBlockAck && current == a.current + 1 && r.agent.upload == a.upload)
    requires r.agent.blocks == a.blocks
    requires AM.StartsBlock(r, r.agent.upload, current) || AM.Finishes(r, r.agent.upload, current)
    ensures UploadPhase(h, e.(inq := e.inq[1..], outq := e.outq + r.sends), r.agent, ctx, subs)
  {
    var e' := e.(inq := e.inq[1..], outq := e.outq + r.sends);
    assert e'.inq == [] && r.sends == [r.sends[0]] && e'.outq[..|e'.outq| - 1] == e.outq;
    if ctx.Some? {
      assert Firsts(e.outq) == 0 && forall msg :: msg in e.outq ==> msg.UploadBlock? && msg.flow == 0;
      OneMore(e.outq, r.sends[0]);
    }
  }

  lemma OneMore(msgs: seq<Message>, msg: Message)
    requires Firsts(msgs) == 0
    ensures forall x :: x in msgs && x.UploadBlock? ==> x.index > 0
    ensures Firsts(msgs + [msg]) == if msg.UploadBlock? && msg.index == 0 then 1 else 0
  {
    NoFirsts(msgs);
    FirstsAppend(msgs, [msg]);
    FirstsOne(msg);
  }

  lemma UploaderReceivesPhase(h: Hash, e: ClientEnd, a: AM.Agent, ctx: Option<Client>, subs: set<(ServerId, Md5)>)
    requires e.inq != [] && AM.AgentOk(h, a) && UploadPhase(h, e, a, ctx, subs)
    ensures AM.Expected(a, e.inq[0])
    ensures var r := AM.OnMessage(a, e.inq[0]);
      UploadPhase(h, e.(inq := e.inq[1..], outq := e.outq + r.sends), r.agent, ctx, subs)
  {
    var msg := e.inq[0];
    var r := AM.OnMessage(a, msg);
    AM.OnMessageFollows(h, a, msg);
    assert e.inq[1..] == [];
    if a.phase == AM.WaitingUploadResponse {
      AM.ResponseStarts(h, a, msg);
      UploadPhaseStarts(h, e, a, ctx, subs, r, 0);
    } else if a.phase == AM.WaitingBlockAck && msg.UploadBlockAck? {
      AM.AckStarts(h, a, msg);
      UploadPhaseStarts(h, e, a, ctx, subs, r, a.current + 1);
    } else {
      assert r.sends == [];
      assert e.outq + [] == e.outq;
    }
  }

  /** How an agent moves when it handles the first message of `inq`. */
  ghost predicate MovesOn(h: Hash, a: AM.Agent, a': AM.Agent, inq: seq<Message>) {
    && a'.blocks == a.blocks
    && (|| (&& a.phase == AM.WaitingUploadResponse && inq != [] && inq[0].UploadResponse?
            && a'.phase != AM.WaitingUploadResponse && a'.phase != AM.Succ
            && a'.upload == inq[0].md5s && a'.current == 0)
        || (&& a.phase == AM.WaitingBlockAck && a.current < |a.upload| && UploadBlockAck(a.upload[a.current]) in inq
            && a'.phase != AM.WaitingUploadResponse && a'.phase != AM.Succ
            && a'.upload == a.upload && a'.current == a.current + 1)
        || (&& a.phase == AM.WaitingFinalResult && FileStoreSucc(FileId(h, AM.List(a))) in inq
            && a' == a.(phase := AM.Succ))
        || (a' == a && a.phase != AM.WaitingUploadResponse))
  }

  /** What the agent knows to be stored follows it from block to block. */
  lemma HeldFollows(h: Hash, st: System, f: FlowId, e': ClientEnd)
    requires IsUploader(st, f) && BlocksHeld(h, st, f) && e'.party.Uploader? && e'.inq == []
    requires MovesOn(h, AgentOf(st, f), e'.party.agent, st.clients[f].inq)
    ensures BlocksHeld(h, WithClient(st, f, e'), f)
  {
    forall m ensures Held(WithClient(st, f, e'), m) <==> Held(st, m) {
    }
  }

  lemma UploaderMovesOn(h: Hash, e: ClientEnd, a: AM.Agent, ctx: Option<Client>, subs: set<(ServerId, Md5)>)
    requires e.inq != [] && AM.AgentOk(h, a) && UploadPhase(h, e, a, ctx, subs)
    ensures MovesOn(h, a, AM.OnMessage(a, e.inq[0]).agent, e.inq) && |e.inq| == 1
  {
    UploaderReceivesPhase(h, e, a, ctx, subs);
    AM.OnMessageFollows(h, a, e.inq[0]);
    assert e.inq == [e.inq[0]];
    if a.phase == AM.WaitingUploadResponse {
      AM.ResponseStarts(h, a, e.inq[0]);
    } else if a.phase == AM.WaitingBlockAck && e.inq[0].UploadBlockAck? {
      AM.AckStarts(h, a, e.inq[0]);
    }
  }

  lemma UploaderReceivesHeld(h: Hash, st: System, f: FlowId)
    requires IsUploader(st, f) && UploaderOk(h, st, f) && st.clients[f].inq != []
    ensures BlocksHeld(h, WithClient(st, f, ClientReceive(st.clients[f])), f)
  {
    UploaderMovesOn(h, st.clients[f], AgentOf(st, f), Context(st, f), Subs(st.proxy, f));
    HeldFollows(h, st, f, ClientReceive(st.clients[f]));
  }

  lemma UploaderReceivesOk(h: Hash, st: System, f: FlowId)
    requires IsUploader(st, f) && UploaderOk(h, st, f) && st.clients[f].inq != []
    ensures UploaderOk(h, WithClient(st, f, ClientReceive(st.clients[f])), f)
  {
    var e, a := st.clients[f], AgentOf(st, f);
    var r := AM.OnMessage(a, e.inq[0]);
    UploaderReceivesPhase(h, e, a, Context(st, f), Subs(st.proxy, f));
    AM.OnMessageFollows(h, a, e.inq[0]);
    UploaderReceivesHeld(h, st, f);
    assert r.agent.phase == AM.UploadingBlocks && a.phase == AM.UploadingBlocks ==> r.agent == a;
    UploaderMoves(h, st, f, ClientReceive(e), r.sends);
  }

  lemma UploaderReceives(h: Hash, st: System, f: FlowId)
    requires Inv(h, st) && IsUploader(st, f) && st.clients[f].inq != []
    ensures Inv(h, WithClient(st, f, ClientReceive(st.clients[f])))
  {
    UploaderReceivesOk(h, st, f);
    ClientAlone(h, st, f, ClientReceive(st.clients[f]));
  }

  lemma WritesPhase(h: Hash, e: ClientEnd, a: AM.Agent, ctx: Option<Client>, subs: set<(ServerId, Md5)>)
    requires AM.AgentOk(h, a) && a.phase == AM.UploadingBlocks && UploadPhase(h, e, a, ctx, subs)
    ensures var r := AM.OnWriteComplete(a); UploadPhase(h, e.(outq := e.outq + r.sends), r.agent, ctx, subs)
  {
    var r := AM.OnWriteComplete(a);
    AM.WriteCompleteContinues(h, a);
    AM.OnWriteCompleteFollows(h, a);
    FirstsAppend(e.outq, r.sends);
    FirstsOne(r.sends[0]);
    assert r.sends == [r.sends[0]];
  }

  lemma UploaderWritesOk(h: Hash, st: System, f: FlowId)
    requires IsUploader(st, f) && UploaderOk(h, st, f)
    ensures ClientOk(h, WithClient(st, f, ClientWritten(st.clients[f])), f)
  {
    var e, a := st.clients[f], AgentOf(st, f);
    var r, e' := AM.OnWriteComplete(a), ClientWritten(e);
    AM.OnWriteCompleteFollows(h, a);
    if a.phase == AM.UploadingBlocks {
      WritesPhase(h, e, a, Context(st, f), Subs(st.proxy, f));
      AM.WriteCompleteContinues(h, a);
    } else {
      assert e.outq + [] == e.outq;
    }
    forall m ensures Held(WithClient(st, f, e'), m) <==> Held(st, m) {
    }
    UploaderMoves(h, st, f, e', r.sends);
  }

  lemma UploaderWrites(h: Hash, st: System, f: FlowId)
    requires Inv(h, st) && IsUploader(st, f)
    ensures Inv(h, WithClient(st, f, ClientWritten(st.clients[f])))
  {
    assert ClientOk(h, st, f);
    UploaderWritesOk(h, st, f);
    ClientAlone(h, st, f, ClientWritten(st.clients[f]));
  }

  // ----- The downloading client -----

  lemma FetchedOneMore(st: System, ms: seq<Md5>, k: nat, chunks: seq<Bytes>, content: Bytes)
    requires k < |ms| && Fetched(st, ms[..k], chunks) && Stored(st, ms[k], content)
    ensures Fetched(st, ms[..k + 1], chunks + [content])
    ensures Flatten(chunks + [content]) == Flatten(chunks) + content
  {
    FlattenAppend(chunks, [content]);
    assert Flatten([content]) == content + Flatten([]) == content;
    forall i | 0 <= i < k + 1 ensures Stored(st, ms[..k + 1][i], (chunks + [content])[i]) {
      if i < k {
        assert Stored(st, ms[..k][i], chunks[i]);
      }
    }
  }

  lemma Extend(before: Bytes, content: Bytes, from: nat, to: nat)
    requires from <= to <= |content|
    ensures before + content[..from] + content[from..to] == before + content[..to]
    ensures to == |content| ==> content[from..to] == content[from..] && before + content[..to] == before + content
  {
    assert content[..from] + content[from..to] == content[..to];
  }

  lemma ReadsEof(h: Hash, st: System, f: FlowId, c: Client, s: ServerId, chunks: seq<Bytes>, content: Bytes, offset: nat, index: nat)
    requires IsDownloader(st, f) && st.clients[f].inq != [] && st.clients[f].outq == []
    requires Transfering(st, f, c, s, chunks, content, offset, index)
    requires offset + PIECE_SIZE >= |content|
    ensures Acknowledged(WithClient(st, f, ClientReceive(st.clients[f])), f, c, chunks + [content])
  {
    var e := st.clients[f];
    var e' := ClientReceive(e);
    var st' := WithClient(st, f, e');
    forall s' ensures PipeOf(st', s', f) == PipeOf(st, s', f) {
    }
    var all := Pieces(c.needed[c.index], f, content, offset, index);
    assert |all| == 1 && e.inq[0] == all[0] && |e'.inq| + |PipeOf(st, s, f)| == 0;
    assert e'.outq == [TransferBlockAck(c.needed[c.index])];
    Extend(Flatten(chunks), content, offset, |content|);
    FetchedOneMore(st, c.needed, c.index, chunks, content);
    FetchedGrows(st, st', c.needed[..c.index + 1], chunks + [content]);
  }

  lemma HeadAndTail<T>(a: seq<T>, b: seq<T>, x: T, rest: seq<T>)
    requires a != [] && a + b == [x] + rest
    ensures a[0] == x && a[1..] + b == rest
  {
    assert a[0] == (a + b)[0];
    assert a[1..] + b == (a + b)[1..];
  }

  lemma ReadsMore(h: Hash, st: System, f: FlowId, c: Client, s: ServerId, chunks: seq<Bytes>, content: Bytes, offset: nat, index: nat)
    requires IsDownloader(st, f) && st.clients[f].inq != [] && st.clients[f].outq == []
    requires Transfering(st, f, c, s, chunks, content, offset, index)
    requires offset + PIECE_SIZE < |content|
    ensures
      var st' := WithClient(st, f, ClientReceive(st.clients[f]));
      && st'.clients[f].outq == []
      && Transfering(st', f, c, s, chunks, content, offset + PIECE_SIZE, index + 1)
  {
    var e := st.clients[f];
    var e' := ClientReceive(e);
    var st' := WithClient(st, f, e');
    forall s' ensures PipeOf(st', s', f) == PipeOf(st, s', f) {
    }
    var first := TransferBlock(c.needed[c.index], index, false, f, content[offset..offset + PIECE_SIZE]);
    HeadAndTail(e.inq, PipeOf(st, s, f), first, Pieces(c.needed[c.index], f, content, offset + PIECE_SIZE, index + 1));
    Extend(Flatten(chunks), content, offset, offset + PIECE_SIZE);
    FetchedGrows(st, st', c.needed[..c.index], chunks);
    StoredGrows(st, st', c.needed[c.index], content);
  }

  lemma ReadsLast(h: Hash, st: System, f: FlowId, chunks: seq<Bytes>)
    requires IsDownloader(st, f) && Transfered(st, f, chunks) && st.clients[f].inq != []
    ensures Transfered(WithClient(st, f, ClientReceive(st.clients[f])), f, chunks)
    ensures ClientReceive(st.clients[f]).outq == st.clients[f].outq
  {
    var st' := WithClient(st, f, ClientReceive(st.clients[f]));
    assert Grown(st, st');
    FetchedGrows(st, st', st.proxy.ids[DownloaderOf(st, f).id], chunks);
  }

  lemma ReceivesTransfering(h: Hash, st: System, f: FlowId, c: Client)
    requires IsDownloader(st, f) && st.clients[f].inq != [] && st.clients[f].outq == []
    requires exists s, chunks, content, offset, index :: Transfering(st, f, c, s, chunks, content, offset, index)
    ensures Waiting(WithClient(st, f, ClientReceive(st.clients[f])), f, c)
    ensures ClientReceive(st.clients[f]).party.downloader.phase == DownloaderOf(st, f).phase
  {
    var s: ServerId, chunks, content, offset: nat, index: nat :| Transfering(st, f, c, s, chunks, content, offset, index);
    assert st.clients[f].inq[0].TransferBlock? by {
      PiecesAreTheBlock(c.needed[c.index], f, content, offset, index);
      assert st.clients[f].inq[0] == (st.clients[f].inq + PipeOf(st, s, f))[0];
    }
    if offset + PIECE_SIZE >= |content| {
      ReadsEof(h, st, f, c, s, chunks, content, offset, index);
    } else {
      ReadsMore(h, st, f, c, s, chunks, content, offset, index);
    }
  }

  lemma ReceivesWaiting(h: Hash, st: System, f: FlowId, c: Client)
    requires IsDownloader(st, f) && st.clients[f].inq != [] && Waiting(st, f, c)
    ensures Waiting(WithClient(st, f, ClientReceive(st.clients[f])), f, c)
    ensures ClientReceive(st.clients[f]).party.downloader.phase == DownloaderOf(st, f).phase
  {
    if Stranded(st, f) {
      ReceivesStranded(st, f);
    } else {
      ReceivesTransfering(h, st, f, c);
    }
  }

  lemma ReceivesStranded(st: System, f: FlowId)
    requires IsDownloader(st, f) && st.clients[f].inq != [] && Stranded(st, f)
    ensures Stranded(WithClient(st, f, ClientReceive(st.clients[f])), f)
    ensures ClientReceive(st.clients[f]).party.downloader.phase == DownloaderOf(st, f).phase
  {
    var e := st.clients[f];
    var st' := WithClient(st, f, ClientReceive(e));
    InTail(e.inq);
    assert e.inq[0] in e.inq;
    assert e.outq + [] == e.outq;
    var t :| StrandedAt(st, f, t);
    assert StrandedAt(st', f, t);
    forall s ensures PipeOf(st', s, f) == [] {
      assert PipeOf(st, s, f) == [];
    }
  }

  lemma DownloaderReceivesPhase(h: Hash, st: System, f: FlowId)
    requires IsDownloader(st, f) && DownloaderOk(st, f) && st.clients[f].inq != []
    ensures DownloadPhase(WithClient(st, f, ClientReceive(st.clients[f])), f)
  {
    var e := st.clients[f];
    var st' := WithClient(st, f, ClientReceive(e));
    assert Context(st', f) == Context(st, f);
    forall s ensures PipeOf(st', s, f) == PipeOf(st, s, f) {
    }
    InTail(e.inq);
    assert e.inq[0] in e.inq;
    if exists chunks :: Transfered(st, f, chunks) {
      var chunks :| Transfered(st, f, chunks);
      ReadsLast(h, st, f, chunks);
    }
    if f in st.proxy.clients && st.proxy.clients[f].phase == WaitingTransferBlock {
      ReceivesWaiting(h, st, f, st.proxy.clients[f]);
    }
  }

  lemma DownloaderReceives(h: Hash, st: System, f: FlowId)
    requires Inv(h, st) && IsDownloader(st, f) && st.clients[f].inq != []
    ensures Inv(h, WithClient(st, f, ClientReceive(st.clients[f])))
  {
    assert ClientOk(h, WithClient(st, f, ClientReceive(st.clients[f])), f) by {
      DownloaderReceivesPhase(h, st, f);
    }
    ClientAlone(h, st, f, ClientReceive(st.clients[f]));
  }

  // ----- Closing -----

  lemma ClientShuts(h: Hash, st: System, f: FlowId)
    requires Inv(h, st) && f in st.clients
    ensures Inv(h, WithClient(st, f, Shut(st.clients[f])))
  {
    var st' := WithClient(st, f, Shut(st.clients[f]));
    forall g: FlowId ensures Untouched(h, st, st', g) {
      forall s | s in st.servers ensures SameFor(h, st.servers[s], st.servers[s], g) {
        SameForSelf(h, st.servers[s], g);
      }
    }
    assert FlowsOk(h, st') && forall g :: g in st'.clients ==> ClientOk(h, st', g) by {
      FlowsKept(h, st, st');
    }
    assert ServersOk(h, st');
    assert IdsOk(h, st') by {
      IdsOkGrows(h, st, st');
    }
  }
}
