/** What holds of one storage server together with the two channels of its session. */
module ServerLinks {
  import opened Types
  import opened FileBlocks
  import opened ServerModel
  import opened SystemModel

  /** The stream of flow `f` after everything sent to the server has been handled. */
  function StreamThrough(h: Hash, e: ServerEnd, f: FlowId): Stream {
    ReadAll(h, f, Accumulated(e.server, f), e.inq)
  }

  /** The pieces on their way to flow `f` through this server: those sent, those due for the download
      it serves, and those due for the requests it has yet to handle. */
  function Pipe(e: ServerEnd, f: FlowId): seq<Message> {
    PiecesFor(e.outq, f) + Remaining(e.server, f) + Asked(e.server.files, e.inq, f)
  }

  /** Never a second request of a flow that the first may still be serving. */
  predicate RequestsOk(busy: bool, msgs: seq<Message>, f: FlowId)
    decreases |msgs|
  {
    if msgs == [] then true
    else if msgs[0].DownloadBlock? && msgs[0].flow == f then !busy && RequestsOk(true, msgs[1..], f)
    else if msgs[0] == ClientClean(f) then RequestsOk(false, msgs[1..], f)
    else RequestsOk(busy, msgs[1..], f)
  }

  /** Whether flow `f` may have a download context once `msgs` are handled. */
  predicate BusyAfter(busy: bool, msgs: seq<Message>, f: FlowId)
    decreases |msgs|
  {
    if msgs == [] then busy
    else BusyAfter((busy || (msgs[0].DownloadBlock? && msgs[0].flow == f)) && msgs[0] != ClientClean(f), msgs[1..], f)
  }

  ghost predicate ToServerOk(e: ServerEnd, msg: Message) {
    msg.UploadBlock? || msg.ClientClean? || (msg.DownloadBlock? && msg.md5 in e.server.files)
  }

  ghost predicate FromServerOk(e: ServerEnd, msg: Message) {
    || msg.TransferBlock?
    || (msg.UploadBlockAck? && msg.md5 in e.server.files)
    || (msg.TransferBlockSet? && forall m :: m in msg.md5s ==> m in e.server.files)
  }

  ghost predicate ChannelsOk(e: ServerEnd) {
    && (forall msg :: msg in e.inq ==> ToServerOk(e, msg))
    && (forall msg :: msg in e.outq ==> FromServerOk(e, msg))
  }

  /** A server with work of its own has a write under way, so it will be called again. */
  ghost predicate Awake(e: ServerEnd) {
    e.server.downloads != map[] || e.server.phase == TransferingBlockSet ==> e.writing
  }

  ghost predicate ServerEndOk(h: Hash, e: ServerEnd) {
    match e
    case ServerEnd(server, _, _, inq, _) =>
      && ServerOk(h, server) && ChannelsOk(e) && Awake(e)
      && (forall f :: RequestsOk(f in server.downloads, inq, f))
      && (forall f :: StreamThrough(h, e, f) != Broken)
  }

  // ----- Requests -----

  lemma {:induction false} RequestsOkWeaken(msgs: seq<Message>, f: FlowId)
    requires RequestsOk(true, msgs, f)
    ensures RequestsOk(false, msgs, f)
  {
    if msgs != [] && !(msgs[0].DownloadBlock? && msgs[0].flow == f) && msgs[0] != ClientClean(f) {
      RequestsOkWeaken(msgs[1..], f);
    }
  }

  lemma {:induction false} RequestsOkAppend(busy: bool, msgs: seq<Message>, msg: Message, f: FlowId)
    requires RequestsOk(busy, msgs, f)
    requires msg.DownloadBlock? && msg.flow == f ==> !BusyAfter(busy, msgs, f)
    ensures RequestsOk(busy, msgs + [msg], f)
    decreases |msgs|
  {
    if msgs == [] {
      assert [msg][1..] == [] && msgs + [msg] == [msg];
    } else {
      assert (msgs + [msg])[1..] == msgs[1..] + [msg];
      RequestsOkAppend((busy || (msgs[0].DownloadBlock? && msgs[0].flow == f)) && msgs[0] != ClientClean(f), msgs[1..], msg, f);
    }
  }

  lemma {:induction false} BusyAfterAppend(busy: bool, msgs: seq<Message>, msg: Message, f: FlowId)
    ensures BusyAfter(busy, msgs + [msg], f)
      == ((BusyAfter(busy, msgs, f) || (msg.DownloadBlock? && msg.flow == f)) && msg != ClientClean(f))
    decreases |msgs|
  {
    if msgs == [] {
      assert [msg][1..] == [] && msgs + [msg] == [msg];
    } else {
      assert (msgs + [msg])[1..] == msgs[1..] + [msg];
      BusyAfterAppend((busy || (msgs[0].DownloadBlock? && msgs[0].flow == f)) && msgs[0] != ClientClean(f), msgs[1..], msg, f);
    }
  }

  lemma {:induction false} BusyAfterWeaken(msgs: seq<Message>, f: FlowId)
    ensures BusyAfter(false, msgs, f) ==> BusyAfter(true, msgs, f)
  {
    if msgs != [] {
      BusyAfterWeaken(msgs[1..], f);
    }
  }

  /** A flow with an empty pipe is not being served and has not asked. */
  lemma {:induction false} NothingAsked(files: map<Md5, Bytes>, msgs: seq<Message>, f: FlowId)
    requires Asked(files, msgs, f) == [] && forall msg :: msg in msgs && msg.DownloadBlock? ==> msg.md5 in files
    ensures !BusyAfter(false, msgs, f)
  {
    if msgs != [] {
      assert msgs[0] in msgs;
      NothingAsked(files, msgs[1..], f);
    }
  }

  lemma EmptyPipe(h: Hash, e: ServerEnd, f: FlowId)
    requires ServerEndOk(h, e) && Pipe(e, f) == []
    ensures f !in e.server.downloads && !BusyAfter(false, e.inq, f)
    ensures forall msg :: msg in e.outq && msg.TransferBlock? ==> msg.flow != f
  {
    assert |Pipe(e, f)| == |PiecesFor(e.outq, f)| + |Remaining(e.server, f)| + |Asked(e.server.files, e.inq, f)|;
    NothingAsked(e.server.files, e.inq, f);
    NonePiecesFor(e.outq, f);
  }

  lemma {:induction false} NonePiecesFor(msgs: seq<Message>, f: FlowId)
    ensures PiecesFor(msgs, f) == [] <==> forall msg :: msg in msgs && msg.TransferBlock? ==> msg.flow != f
  {
    if msgs != [] {
      NonePiecesFor(msgs[1..], f);
      assert msgs == [msgs[0]] + msgs[1..];
    }
  }

  /** Files are only added, so what was asked for stays the same. */
  lemma {:induction false} AskedGrows(files: map<Md5, Bytes>, files': map<Md5, Bytes>, msgs: seq<Message>, f: FlowId)
    requires forall m :: m in files ==> m in files' && files'[m] == files[m]
    requires forall msg :: msg in msgs && msg.DownloadBlock? ==> msg.md5 in files
    ensures Asked(files', msgs, f) == Asked(files, msgs, f)
  {
    if msgs != [] {
      assert msgs[0] in msgs;
      AskedGrows(files, files', msgs[1..], f);
    }
  }

  lemma InTail<T>(s: seq<T>)
    requires s != []
    ensures forall x :: x in s[1..] ==> x in s
  {
  }

  // ----- What the server's own steps keep -----

  lemma StreamHead(h: Hash, e: ServerEnd, f: FlowId)
    requires e.inq != [] && StreamThrough(h, e, f) != Broken
    ensures Read(h, f, Accumulated(e.server, f), e.inq[0]) != Broken
  {
    ReadAllBroken(h, f, e.inq[1..]);
  }

  lemma ReceiveStream(h: Hash, e: ServerEnd, f: FlowId)
    requires ServerEndOk(h, e) && e.inq != []
    ensures StreamThrough(h, ServerReceive(h, e), f) == StreamThrough(h, e, f)
  {
    ReceiveAcceptable(h, e);
    StreamHead(h, e, f);
    OnMessageFollowsStream(h, e.server, e.inq[0], f);
  }

  lemma ReceiveAcceptable(h: Hash, e: ServerEnd)
    requires ServerEndOk(h, e) && e.inq != []
    ensures Acceptable(e.server, e.inq[0]) && ToServerOk(e, e.inq[0])
  {
    var msg := e.inq[0];
    assert msg in e.inq;
    if msg.DownloadBlock? {
      assert RequestsOk(msg.flow in e.server.downloads, e.inq, msg.flow);
    }
  }

  lemma ReceiveDownloads(h: Hash, sv: Server, msg: Message, f: FlowId)
    requires ServerOk(h, sv) && Acceptable(sv, msg)
    ensures
      var sv' := OnMessage(h, sv, msg).server;
      f in sv'.downloads ==> (f in sv.downloads || (msg.DownloadBlock? && msg.flow == f)) && msg != ClientClean(f)
  {
    if msg.DownloadBlock? {
      assert OnMessage(h, sv, msg) == OnDownloadBlock(sv, msg.md5, msg.flow);
      DownloadSends(h, sv, msg.md5, msg.flow, f);
    } else if msg.ClientClean? {
      assert OnMessage(h, sv, msg) == OnClientClean(sv, msg.flow);
      CleanDownloadKeeps(h, sv, msg.flow);
    }
  }

  lemma DownloadSends(h: Hash, sv: Server, m: Md5, g: FlowId, f: FlowId)
    requires ServerOk(h, sv) && m in sv.files && g !in sv.downloads
    ensures
      var r := OnDownloadBlock(sv, m, g);
      && (f in r.server.downloads ==> f in sv.downloads || f == g)
      && |r.sends| == 1 && r.sends[0].TransferBlock?
      && r.server == sv.(downloads := r.server.downloads, cache := r.server.cache)
  {
    NotedKeeps(h, sv, m, g);
    SendPieceKeeps(h, Noted(sv, m, g));
    SendPieceDownloads(h, Noted(sv, m, g), f);
  }

  lemma SendPieceDownloads(h: Hash, sv: Server, f: FlowId)
    requires ServerOk(h, sv)
    ensures f in SendPiece(sv).server.downloads ==> f in sv.downloads
    ensures sv.downloads != map[] ==> |SendPiece(sv).sends| == 1 && SendPiece(sv).sends[0].TransferBlock?
    ensures sv.downloads == map[] ==> SendPiece(sv).sends == []
  {
    if sv.downloads != map[] {
      var g := Lowest(sv.downloads.Keys);
      if sv.downloads[g].offset + PIECE_SIZE >= |sv.cache[sv.downloads[g].md5].content| {
        CleanDownloadKeeps(h, sv, g);
      } else {
        MovedKeeps(h, sv, g);
      }
    }
  }

  lemma ReceiveRequests(h: Hash, e: ServerEnd, f: FlowId)
    requires ServerEndOk(h, e) && e.inq != []
    ensures RequestsOk(f in ServerReceive(h, e).server.downloads, e.inq[1..], f)
    ensures BusyAfter(f in ServerReceive(h, e).server.downloads, e.inq[1..], f) ==> BusyAfter(f in e.server.downloads, e.inq, f)
  {
    ReceiveAcceptable(h, e);
    ReceiveDownloads(h, e.server, e.inq[0], f);
    assert RequestsOk(f in e.server.downloads, e.inq, f);
    if RequestsOk(true, e.inq[1..], f) {
      RequestsOkWeaken(e.inq[1..], f);
    }
    BusyAfterWeaken(e.inq[1..], f);
  }

  lemma UploadSends(h: Hash, sv: Server, msg: Message)
    requires ServerOk(h, sv) && msg.UploadBlock?
    requires Read(h, msg.flow, Accumulated(sv, msg.flow), msg) != Broken
    ensures
      var r := OnMessage(h, sv, msg);
      && r.sends == (if msg.eof then [UploadBlockAck(msg.md5)] else [])
      && (msg.eof ==> msg.md5 in r.server.files)
      && (forall m :: m in r.server.files ==> m in sv.files || (msg.eof && m == msg.md5))
      && r.server == sv.(items := r.server.items, files := r.server.files, uploads := r.server.uploads)
  {
    OnMessageFollowsStream(h, sv, msg, msg.flow);
  }

  /** The messages a handler sends and the write they start. */
  ghost predicate SendsOk(h: Hash, sv: Server, msg: Message) {
    var r := OnMessage(h, sv, msg);
    && (forall m :: m in r.sends ==> m.TransferBlock? || (m.UploadBlockAck? && m.md5 in r.server.files))
    && (r.server.downloads != map[] ==> sv.downloads != map[] || r.sends != [])
    && r.server.phase == sv.phase && r.server.toSend == sv.toSend && r.server.next == sv.next
    && (forall m :: m in r.server.files ==> m in sv.files || UploadBlockAck(m) in r.sends)
  }

  lemma UploadSendsOk(h: Hash, sv: Server, msg: Message)
    requires ServerOk(h, sv) && msg.UploadBlock?
    requires Read(h, msg.flow, Accumulated(sv, msg.flow), msg) != Broken
    ensures SendsOk(h, sv, msg)
  {
    UploadSends(h, sv, msg);
  }

  lemma DownloadSendsOk(h: Hash, sv: Server, msg: Message)
    requires ServerOk(h, sv) && msg.DownloadBlock? && Acceptable(sv, msg)
    ensures SendsOk(h, sv, msg)
  {
    DownloadSends(h, sv, msg.md5, msg.flow, msg.flow);
  }

  lemma OtherSendsOk(h: Hash, sv: Server, msg: Message)
    requires ServerOk(h, sv) && !msg.UploadBlock? && !msg.DownloadBlock?
    ensures SendsOk(h, sv, msg)
  {
    if msg.ClientClean? {
      assert OnMessage(h, sv, msg) == OnClientClean(sv, msg.flow);
      CleanDownloadKeeps(h, sv, msg.flow);
    }
  }

  lemma ReceiveSends(h: Hash, sv: Server, msg: Message)
    requires ServerOk(h, sv) && Acceptable(sv, msg)
    requires msg.UploadBlock? ==> Read(h, msg.flow, Accumulated(sv, msg.flow), msg) != Broken
    ensures SendsOk(h, sv, msg)
  {
    if msg.UploadBlock? {
      UploadSendsOk(h, sv, msg);
    } else if msg.DownloadBlock? {
      DownloadSendsOk(h, sv, msg);
    } else {
      OtherSendsOk(h, sv, msg);
    }
  }

  lemma ServerReceiveKeeps(h: Hash, e: ServerEnd)
    requires ServerEndOk(h, e) && e.inq != []
    ensures
      var e' := ServerReceive(h, e);
      && ServerEndOk(h, e') && Grows(e.server, e'.server)
      && e'.open == e.open
  {
    InTail(e.inq);
    ReceiveAcceptable(h, e);
    OnMessageKeeps(h, e.server, e.inq[0]);
    if e.inq[0].UploadBlock? {
      StreamHead(h, e, e.inq[0].flow);
    }
    ReceiveSends(h, e.server, e.inq[0]);
    forall f ensures RequestsOk(f in ServerReceive(h, e).server.downloads, e.inq[1..], f) {
      ReceiveRequests(h, e, f);
    }
    forall f ensures StreamThrough(h, ServerReceive(h, e), f) != Broken {
      ReceiveStream(h, e, f);
    }
  }

  lemma Regroup<T>(a: seq<T>, s: seq<T>, r': seq<T>, r: seq<T>, k: seq<T>, t: seq<T>)
    requires s + r' == r + k
    ensures (a + s) + r' + t == a + r + (k + t)
  {
    assert (a + s) + r' + t == a + (s + r') + t;
  }

  lemma ReceivePipe(h: Hash, e: ServerEnd, f: FlowId)
    requires ServerEndOk(h, e) && e.inq != [] && e.inq[0] != ClientClean(f)
    ensures Pipe(ServerReceive(h, e), f) == Pipe(e, f)
  {
    ReceiveAcceptable(h, e);
    var msg, rest := e.inq[0], e.inq[1..];
    var r := OnMessage(h, e.server, msg);
    OnMessageKeeps(h, e.server, msg);
    OnMessageConserves(h, e.server, msg, f);
    PiecesForAppend(e.outq, r.sends, f);
    assert Asked(e.server.files, e.inq, f) == Asked(e.server.files, [msg], f) + Asked(e.server.files, rest, f) by {
      assert e.inq == [msg] + rest;
      AskedAppend(e.server.files, [msg], rest, f);
    }
    assert Asked(r.server.files, rest, f) == Asked(e.server.files, rest, f) by {
      InTail(e.inq);
      AskedGrows(e.server.files, r.server.files, rest, f);
    }
    Regroup(PiecesFor(e.outq, f), PiecesFor(r.sends, f), Remaining(r.server, f), Remaining(e.server, f),
            Asked(e.server.files, [msg], f), Asked(e.server.files, rest, f));
  }

  lemma WriteCompleteSends(h: Hash, sv: Server)
    requires ServerOk(h, sv)
    ensures
      var r := OnWriteComplete(sv);
      && (r.server.downloads != map[] || r.server.phase == TransferingBlockSet ==> r.sends != [])
      && (forall msg :: msg in r.sends ==> msg.TransferBlock? || (msg.TransferBlockSet? && forall m :: m in msg.md5s ==> m in sv.files))
      && r.server.uploads == sv.uploads
      && (forall f :: f in r.server.downloads ==> f in sv.downloads)
  {
    if sv.phase == Working {
      SendPieceKeeps(h, sv);
      forall f ensures f in SendPiece(sv).server.downloads ==> f in sv.downloads {
        SendPieceDownloads(h, sv, f);
      }
      SendPieceDownloads(h, sv, 0);
    }
  }

  lemma ServerWriteCompleteKeeps(h: Hash, e: ServerEnd)
    requires ServerEndOk(h, e)
    ensures
      var e' := ServerWritten(e);
      && ServerEndOk(h, e') && e'.server.files == e.server.files && e'.open == e.open
      && (forall f :: StreamThrough(h, e', f) == StreamThrough(h, e, f))
  {
    OnWriteCompleteKeeps(h, e.server);
    WriteCompleteSends(h, e.server);
    var e' := ServerWritten(e);
    forall f ensures StreamThrough(h, e', f) == StreamThrough(h, e, f) {
      assert Accumulated(e'.server, f) == Accumulated(e.server, f);
    }
    forall f ensures RequestsOk(f in e'.server.downloads, e.inq, f) {
      assert RequestsOk(f in e.server.downloads, e.inq, f);
      if RequestsOk(true, e.inq, f) {
        RequestsOkWeaken(e.inq, f);
      }
    }
  }

  lemma WriteCompletePipe(h: Hash, e: ServerEnd, f: FlowId)
    requires ServerEndOk(h, e)
    ensures Pipe(ServerWritten(e), f) == Pipe(e, f)
  {
    OnWriteCompleteKeeps(h, e.server);
    OnWriteCompleteConserves(h, e.server, f);
    PiecesForAppend(e.outq, OnWriteComplete(e.server).sends, f);
  }

  // ----- What sending to the server keeps -----

  function SendTo(e: ServerEnd, msg: Message): ServerEnd {
    e.(inq := e.inq + [msg])
  }

  lemma SendToStream(h: Hash, e: ServerEnd, msg: Message, f: FlowId)
    ensures StreamThrough(h, SendTo(e, msg), f) == Read(h, f, StreamThrough(h, e, f), msg)
  {
    ReadAllAppend(h, f, Accumulated(e.server, f), e.inq, [msg]);
    assert [msg][1..] == [];
  }

  lemma SendToPipe(e: ServerEnd, msg: Message, f: FlowId)
    ensures Pipe(SendTo(e, msg), f) == Pipe(e, f) + Asked(e.server.files, [msg], f)
  {
    AskedAppend(e.server.files, e.inq, [msg], f);
  }

  lemma SendToKeeps(h: Hash, e: ServerEnd, msg: Message)
    requires ServerEndOk(h, e) && ToServerOk(e, msg)
    requires msg.DownloadBlock? ==> Pipe(e, msg.flow) == []
    requires msg.UploadBlock? ==> Read(h, msg.flow, StreamThrough(h, e, msg.flow), msg) != Broken
    ensures ServerEndOk(h, SendTo(e, msg))
  {
    var e' := SendTo(e, msg);
    forall f ensures RequestsOk(f in e.server.downloads, e'.inq, f) {
      assert RequestsOk(f in e.server.downloads, e.inq, f);
      if msg.DownloadBlock? && msg.flow == f {
        EmptyPipe(h, e, f);
      }
      RequestsOkAppend(f in e.server.downloads, e.inq, msg, f);
    }
    forall f ensures StreamThrough(h, e', f) != Broken {
      SendToStream(h, e, msg, f);
    }
  }

  /** Taking a message from the server's outgoing channel. */
  lemma PopKeeps(h: Hash, e: ServerEnd)
    requires ServerEndOk(h, e) && e.outq != []
    ensures ServerEndOk(h, e.(outq := e.outq[1..]))
  {
    InTail(e.outq);
    forall f ensures StreamThrough(h, e.(outq := e.outq[1..]), f) == StreamThrough(h, e, f) {
    }
  }
}
