/** The storage server's handlers as functions on its state (src/sserver/storage_server.cpp), and
    what they keep. The class StorageServer is proved to compute exactly these functions. */
module ServerModel {
  import opened Types
  import opened FileBlocks

  datatype Phase = Init | TransferingBlockSet | Working

  /** `md5` is absent when the entry was created by a piece that is not a first piece. */
  datatype Upload = Upload(md5: Option<Md5>, content: Bytes)
  datatype Download = Download(md5: Md5, offset: nat, index: nat)
  datatype Cached = Cached(ref: nat, content: Bytes)

  datatype Server = Server(
    phase: Phase,
    toSend: seq<Md5>,               // transferingMd5s
    next: nat,                      // nextToTransferMd5Index
    items: set<Md5>,                // the path table
    files: map<Md5, Bytes>,         // the block files
    uploads: map<FlowId, Upload>,
    cache: map<Md5, Cached>,        // downloadingMd5s
    downloads: map<FlowId, Download>)

  datatype ServerResult = ServerResult(server: Server, sends: seq<Message>, outcome: Outcome)

  const BLOCK_SET_SIZE: nat := 128

  ghost predicate IsLowest(f: FlowId, keys: set<FlowId>) {
    f in keys && forall g :: g in keys ==> f <= g
  }

  lemma {:induction false} LowestExists(keys: set<FlowId>)
    requires keys != {}
    ensures exists f :: IsLowest(f, keys)
  {
    var f :| f in keys;
    var rest := keys - {f};
    assert keys == rest + {f};
    if rest == {} {
      assert IsLowest(f, keys);
    } else {
      LowestExists(rest);
      var low :| IsLowest(low, rest);
      assert IsLowest(if f <= low then f else low, keys);
    }
  }

  /** The first key of a std::map. */
  function Lowest(keys: set<FlowId>): (f: FlowId)
    requires keys != {}
    ensures f in keys && forall g :: g in keys ==> f <= g
  {
    LowestExists(keys);
    assert exists f :: f in keys && forall g :: g in keys ==> f <= g by {
      var f :| IsLowest(f, keys);
    }
    var f :| f in keys && forall g :: g in keys ==> f <= g;
    f
  }

  function SendMd5s(sv: Server): ServerResult {
    var end := if sv.next >= |sv.toSend| then sv.next else Min(sv.next + BLOCK_SET_SIZE, |sv.toSend|);
    var now := if sv.next >= |sv.toSend| then [] else sv.toSend[sv.next..end];
    if end >= |sv.toSend| then
      ServerResult(sv.(toSend := [], next := 0, phase := Working), [TransferBlockSet(now, true)], Ok)
    else
      ServerResult(sv.(next := end), [TransferBlockSet(now, false)], Ok)
  }

  /** A fresh session of a server that stores `files`; `order` is the order in which the path table
      lists its keys. */
  function OnConnection(files: map<Md5, Bytes>, order: seq<Md5>): ServerResult {
    SendMd5s(Server(TransferingBlockSet, order, 0, files.Keys, files, map[], map[], map[]))
  }

  function CleanDownload(sv: Server, f: FlowId): ServerResult {
    if f !in sv.downloads then
      ServerResult(sv, [], Ok)
    else
      var m := sv.downloads[f].md5;
      if m !in sv.cache || sv.cache[m].ref == 0 then
        ServerResult(sv, [], Exit)
      else
        var ref := sv.cache[m].ref - 1;
        var cache := if ref == 0 then sv.cache - {m} else sv.cache[m := sv.cache[m].(ref := ref)];
        ServerResult(sv.(downloads := sv.downloads - {f}, cache := cache), [], Ok)
  }

  /** The state after one more piece, not the last, of the download of `f`. */
  function Moved(sv: Server, f: FlowId): Server
    requires f in sv.downloads
  {
    var d := sv.downloads[f];
    sv.(downloads := sv.downloads[f := Download(d.md5, d.offset + PIECE_SIZE, d.index + 1)])
  }

  function SendPiece(sv: Server): ServerResult {
    if sv.downloads == map[] then
      ServerResult(sv, [], Ok)
    else
      var f := Lowest(sv.downloads.Keys);
      var d := sv.downloads[f];
      if d.md5 !in sv.cache || sv.cache[d.md5].ref == 0 || d.offset > |sv.cache[d.md5].content| then
        ServerResult(sv, [], Exit)
      else
        var content := sv.cache[d.md5].content;
        if d.offset + PIECE_SIZE >= |content| then
          var r := CleanDownload(sv, f);
          r.(sends := [TransferBlock(d.md5, d.index, true, f, content[d.offset..])])
        else
          ServerResult(Moved(sv, f),
                       [TransferBlock(d.md5, d.index, false, f, content[d.offset..d.offset + PIECE_SIZE])], Ok)
  }

  function OnUploadBlock(h: Hash, sv: Server, md5: Md5, first: bool, f: FlowId, last: bool, content: Bytes): ServerResult {
    var u :=
      if f in sv.uploads then sv.uploads[f]
      else if first then Upload(Some(md5), [])
      else Upload(None, []);
    var u' := u.(content := u.content + content);
    if !last then
      ServerResult(sv.(uploads := sv.uploads[f := u']), [], Ok)
    else if h(u'.content) != md5 then
      ServerResult(sv.(uploads := sv.uploads - {f}), [UploadBlockFail(md5)], Ok)
    else
      var files := if md5 in sv.files then sv.files else sv.files[md5 := u'.content];
      ServerResult(sv.(items := sv.items + {md5}, files := files, uploads := sv.uploads - {f}),
                   [UploadBlockAck(md5)], Ok)
  }

  /** The state in which a request has been noted and its first piece not yet sent. */
  function Noted(sv: Server, m: Md5, f: FlowId): Server
    requires m in sv.cache || m in sv.files
  {
    var entry := if m in sv.cache then sv.cache[m].(ref := sv.cache[m].ref + 1) else Cached(1, sv.files[m]);
    sv.(cache := sv.cache[m := entry], downloads := sv.downloads[f := Download(m, 0, 0)])
  }

  function OnDownloadBlock(sv: Server, m: Md5, f: FlowId): ServerResult {
    if m !in sv.cache && (m !in sv.items || m !in sv.files) then
      ServerResult(sv, [], Exit)
    else
      if f in sv.downloads then
        ServerResult(sv, [], Exit)
      else
        SendPiece(Noted(sv, m, f))
  }

  function OnClientClean(sv: Server, f: FlowId): ServerResult {
    var r := CleanDownload(sv, f);
    if r.outcome == Exit then r
    else r.(server := r.server.(uploads := r.server.uploads - {f}))
  }

  function OnMessage(h: Hash, sv: Server, msg: Message): ServerResult {
    match msg
    case UploadBlock(md5, index, f, eof, content) => OnUploadBlock(h, sv, md5, index == 0, f, eof, content)
    case DownloadBlock(m, f) => OnDownloadBlock(sv, m, f)
    case ClientClean(f) => OnClientClean(sv, f)
    case _ => ServerResult(sv, [], Close)
  }

  function OnWriteComplete(sv: Server): ServerResult {
    match sv.phase
    case TransferingBlockSet => SendMd5s(sv)
    case Working => SendPiece(sv)
    case Init => ServerResult(sv, [], Close)
  }

  // ----- What the server keeps -----

  function Users(downloads: map<FlowId, Download>, m: Md5): set<FlowId> {
    set f | f in downloads && downloads[f].md5 == m
  }

  ghost predicate InBlock(d: Download, length: nat) {
    d.offset == 4096 * d.index && (d.offset < length || d.offset == 0)
  }

  /** Every download is of a cached block; every cached block is the stored one, is in use, and
      its count is the number of its users. */
  ghost predicate CacheOk(sv: Server) {
    && (forall f :: f in sv.downloads ==>
          && sv.downloads[f].md5 in sv.cache
          && InBlock(sv.downloads[f], |sv.cache[sv.downloads[f].md5].content|))
    && (forall m :: m in sv.cache ==>
          && m in sv.files && sv.cache[m].content == sv.files[m]
          && sv.cache[m].ref == |Users(sv.downloads, m)| && sv.cache[m].ref > 0)
  }

  /** The path table and the block files agree, and every file has the content its name promises. */
  ghost predicate StoreOk(h: Hash, sv: Server) {
    && sv.items == sv.files.Keys
    && (forall m :: m in sv.files ==> h(sv.files[m]) == m)
    && sv.next <= |sv.toSend|
    && (forall m :: m in sv.toSend ==> m in sv.files)
    && sv.phase != Init
    && (sv.phase == Working ==> sv.toSend == [])
  }

  ghost predicate ServerOk(h: Hash, sv: Server) {
    StoreOk(h, sv) && CacheOk(sv)
  }

  ghost predicate Grows(sv: Server, sv': Server) {
    forall m :: m in sv.files ==> m in sv'.files && sv'.files[m] == sv.files[m]
  }

  /** A request the server can take: for a stored block, on a flow with no download of its own. */
  ghost predicate Acceptable(sv: Server, msg: Message) {
    msg.DownloadBlock? ==> msg.md5 in sv.files && msg.flow !in sv.downloads
  }

  /** Dropping a user of `m`. */
  lemma UsersDrop(downloads: map<FlowId, Download>, f: FlowId)
    requires f in downloads
    ensures forall m :: m != downloads[f].md5 ==> Users(downloads - {f}, m) == Users(downloads, m)
    ensures var m := downloads[f].md5;
      |Users(downloads - {f}, m)| == |Users(downloads, m)| - 1
  {
    var m := downloads[f].md5;
    assert Users(downloads - {f}, m) == Users(downloads, m) - {f};
  }

  lemma UsersAdd(downloads: map<FlowId, Download>, f: FlowId, d: Download)
    requires f !in downloads
    ensures forall m :: m != d.md5 ==> Users(downloads[f := d], m) == Users(downloads, m)
    ensures |Users(downloads[f := d], d.md5)| == |Users(downloads, d.md5)| + 1
  {
    assert Users(downloads[f := d], d.md5) == Users(downloads, d.md5) + {f};
  }

  lemma UsersMove(downloads: map<FlowId, Download>, f: FlowId, d: Download)
    requires f in downloads && d.md5 == downloads[f].md5
    ensures forall m :: Users(downloads[f := d], m) == Users(downloads, m)
  {
  }

  lemma CleanDownloadKeeps(h: Hash, sv: Server, f: FlowId)
    requires ServerOk(h, sv)
    ensures var r := CleanDownload(sv, f);
      && r.outcome == Ok && ServerOk(h, r.server)
      && r.server.downloads == sv.downloads - {f}
      && r.server == sv.(downloads := r.server.downloads, cache := r.server.cache)
      && (forall m :: m in r.server.cache ==> m in sv.cache && r.server.cache[m].content == sv.cache[m].content)
  {
    if f in sv.downloads {
      var m := sv.downloads[f].md5;
      UsersDrop(sv.downloads, f);
      var left := sv.downloads - {f};
      forall g | g in left ensures left[g].md5 == m ==> g in Users(left, m) {
      }
    } else {
      assert sv.downloads - {f} == sv.downloads;
    }
  }

  lemma MovedKeeps(h: Hash, sv: Server, f: FlowId)
    requires ServerOk(h, sv) && f in sv.downloads
    requires sv.downloads[f].offset + PIECE_SIZE < |sv.cache[sv.downloads[f].md5].content|
    ensures ServerOk(h, Moved(sv, f))
  {
    var d := sv.downloads[f];
    UsersMove(sv.downloads, f, Download(d.md5, d.offset + PIECE_SIZE, d.index + 1));
  }

  lemma SendPieceKeeps(h: Hash, sv: Server)
    requires ServerOk(h, sv)
    ensures
      var r := SendPiece(sv);
      && r.outcome == Ok && ServerOk(h, r.server)
      && r.server == sv.(downloads := r.server.downloads, cache := r.server.cache)
  {
    if sv.downloads != map[] {
      var f := Lowest(sv.downloads.Keys);
      var d := sv.downloads[f];
      if d.offset + PIECE_SIZE >= |sv.cache[d.md5].content| {
        CleanDownloadKeeps(h, sv, f);
      } else {
        MovedKeeps(h, sv, f);
      }
    }
  }

  lemma NotedKeeps(h: Hash, sv: Server, m: Md5, f: FlowId)
    requires ServerOk(h, sv) && m in sv.files && f !in sv.downloads
    ensures ServerOk(h, Noted(sv, m, f))
  {
    UsersAdd(sv.downloads, f, Download(m, 0, 0));
    assert m !in sv.cache ==> Users(sv.downloads, m) == {};
  }

  lemma StoringKeeps(h: Hash, sv: Server, m: Md5, content: Bytes)
    requires ServerOk(h, sv) && h(content) == m
    ensures
      var files := if m in sv.files then sv.files else sv.files[m := content];
      ServerOk(h, sv.(items := sv.items + {m}, files := files))
  {
  }

  lemma UploadsApart(h: Hash, sv: Server, uploads: map<FlowId, Upload>)
    requires ServerOk(h, sv)
    ensures ServerOk(h, sv.(uploads := uploads))
  {
  }

  lemma UploadKeeps(h: Hash, sv: Server, m: Md5, first: bool, f: FlowId, last: bool, content: Bytes)
    requires ServerOk(h, sv)
    ensures
      var r := OnUploadBlock(h, sv, m, first, f, last, content);
      r.outcome == Ok && ServerOk(h, r.server) && Grows(sv, r.server)
  {
    var r := OnUploadBlock(h, sv, m, first, f, last, content);
    var all := (if f in sv.uploads then sv.uploads[f].content else []) + content;
    if last && h(all) == m {
      StoringKeeps(h, sv, m, all);
      UploadsApart(h, sv.(items := r.server.items, files := r.server.files), r.server.uploads);
    } else {
      UploadsApart(h, sv, r.server.uploads);
    }
  }

  /** A piece, in any state of the server: it is appended to what the flow has sent of its block. The last one ends the
      block, and this is stored and acknowledged if it has the hash it is announced with, and else reported as failed and
      thrown away. */
  lemma PieceExactly(h: Hash, sv: Server, msg: Message)
    requires msg.UploadBlock?
    ensures
      var f, m := msg.flow, msg.md5;
      var all := (if f in sv.uploads then sv.uploads[f].content else []) + msg.content;
      var r := OnMessage(h, sv, msg);
      && r.outcome == Ok && r.server == sv.(items := r.server.items, files := r.server.files, uploads := r.server.uploads)
      && (forall g :: g != f ==> (g in r.server.uploads <==> g in sv.uploads) && (g in sv.uploads ==> r.server.uploads[g] == sv.uploads[g]))
      && (!msg.eof ==>
            r.sends == [] && r.server.items == sv.items && r.server.files == sv.files && f in r.server.uploads && r.server.uploads[f].content == all)
      && (msg.eof ==> f !in r.server.uploads)
      && (msg.eof && h(all) != m ==> r.sends == [UploadBlockFail(m)] && r.server.items == sv.items && r.server.files == sv.files)
      && (msg.eof && h(all) == m ==>
            && r.sends == [UploadBlockAck(m)] && r.server.items == sv.items + {m}
            && r.server.files == if m in sv.files then sv.files else sv.files[m := all])
  {
  }

  lemma DownloadKeeps(h: Hash, sv: Server, m: Md5, f: FlowId)
    requires ServerOk(h, sv) && m in sv.files && f !in sv.downloads
    ensures
      var r := OnDownloadBlock(sv, m, f);
      r.outcome == Ok && ServerOk(h, r.server) && r.server.files == sv.files
  {
    NotedKeeps(h, sv, m, f);
    SendPieceKeeps(h, Noted(sv, m, f));
  }

  lemma ClientCleanKeeps(h: Hash, sv: Server, f: FlowId)
    requires ServerOk(h, sv)
    ensures
      var r := OnClientClean(sv, f);
      r.outcome == Ok && ServerOk(h, r.server) && r.server.files == sv.files
  {
    CleanDownloadKeeps(h, sv, f);
  }

  /** No request, piece, completion or cancellation breaks the store or the cache, and as long as
      requests are acceptable no assertion fails and no exit is reached. */
  lemma OnMessageKeeps(h: Hash, sv: Server, msg: Message)
    requires ServerOk(h, sv) && Acceptable(sv, msg)
    ensures
      var r := OnMessage(h, sv, msg);
      && r.outcome != Exit && ServerOk(h, r.server) && Grows(sv, r.server)
      && (r.outcome == Close <==> !(msg.UploadBlock? || msg.DownloadBlock? || msg.ClientClean?))
  {
    if msg.UploadBlock? {
      UploadKeeps(h, sv, msg.md5, msg.index == 0, msg.flow, msg.eof, msg.content);
      assert OnMessage(h, sv, msg) == OnUploadBlock(h, sv, msg.md5, msg.index == 0, msg.flow, msg.eof, msg.content);
    } else if msg.DownloadBlock? {
      DownloadKeeps(h, sv, msg.md5, msg.flow);
      assert OnMessage(h, sv, msg) == OnDownloadBlock(sv, msg.md5, msg.flow);
    } else if msg.ClientClean? {
      ClientCleanKeeps(h, sv, msg.flow);
      assert OnMessage(h, sv, msg) == OnClientClean(sv, msg.flow);
    }
  }

  /** The exits of the download handler are reached exactly by requests that are not acceptable. */
  lemma DownloadExitsExactly(h: Hash, sv: Server, m: Md5, f: FlowId)
    requires ServerOk(h, sv)
    ensures OnDownloadBlock(sv, m, f).outcome == Exit <==> !Acceptable(sv, DownloadBlock(m, f))
  {
    if m in sv.files && f !in sv.downloads {
      OnMessageKeeps(h, sv, DownloadBlock(m, f));
    }
  }

  lemma OnWriteCompleteKeeps(h: Hash, sv: Server)
    requires ServerOk(h, sv)
    ensures var r := OnWriteComplete(sv); r.outcome == Ok && ServerOk(h, r.server)
    ensures OnWriteComplete(sv).server.files == sv.files
  {
    if sv.phase == Working {
      SendPieceKeeps(h, sv);
    }
  }

  lemma OnConnectionKeeps(h: Hash, files: map<Md5, Bytes>, order: seq<Md5>)
    requires Enumerates(order, files.Keys) && forall m :: m in files ==> h(files[m]) == m
    ensures var r := OnConnection(files, order);
      r.outcome == Ok && ServerOk(h, r.server) && r.server.files == files
  {
  }

  // ----- Pieces on their way through a server -----

  /** The pieces for flow `f` among `msgs`. */
  function PiecesFor(msgs: seq<Message>, f: FlowId): seq<Message> {
    if msgs == [] then []
    else (if msgs[0].TransferBlock? && msgs[0].flow == f then [msgs[0]] else []) + PiecesFor(msgs[1..], f)
  }

  lemma Associates<T>(a: seq<T>, b: seq<T>, c: seq<T>)
    ensures a + (b + c) == a + b + c
  {
  }

  lemma {:induction false} PiecesForAppend(a: seq<Message>, b: seq<Message>, f: FlowId)
    ensures PiecesFor(a + b, f) == PiecesFor(a, f) + PiecesFor(b, f)
  {
    if a == [] {
      assert a + b == b;
    } else {
      assert (a + b)[1..] == a[1..] + b && (a + b)[0] == a[0];
      PiecesForAppend(a[1..], b, f);
      var first := if a[0].TransferBlock? && a[0].flow == f then [a[0]] else [];
      Associates(first, PiecesFor(a[1..], f), PiecesFor(b, f));
    }
  }

  /** The pieces flow `f` has still to get from the server's download context. */
  function Remaining(sv: Server, f: FlowId): seq<Message> {
    if f in sv.downloads && sv.downloads[f].md5 in sv.cache
       && sv.downloads[f].offset <= |sv.cache[sv.downloads[f].md5].content| then
      var d := sv.downloads[f];
      Pieces(d.md5, f, sv.cache[d.md5].content, d.offset, d.index)
    else
      []
  }

  /** The pieces that answering the requests of flow `f` among `msgs` will take. */
  function Asked(files: map<Md5, Bytes>, msgs: seq<Message>, f: FlowId): seq<Message> {
    if msgs == [] then []
    else
      (if msgs[0].DownloadBlock? && msgs[0].flow == f && msgs[0].md5 in files
       then Pieces(msgs[0].md5, f, files[msgs[0].md5], 0, 0) else [])
      + Asked(files, msgs[1..], f)
  }

  lemma {:induction false} AskedAppend(files: map<Md5, Bytes>, a: seq<Message>, b: seq<Message>, f: FlowId)
    ensures Asked(files, a + b, f) == Asked(files, a, f) + Asked(files, b, f)
  {
    if a == [] {
      assert a + b == b;
    } else {
      assert (a + b)[1..] == a[1..] + b && (a + b)[0] == a[0];
      AskedAppend(files, a[1..], b, f);
      var first := if a[0].DownloadBlock? && a[0].flow == f && a[0].md5 in files then Pieces(a[0].md5, f, files[a[0].md5], 0, 0) else [];
      Associates(first, Asked(files, a[1..], f), Asked(files, b, f));
    }
  }

  lemma CleanDownloadConserves(h: Hash, sv: Server, g: FlowId, f: FlowId)
    requires ServerOk(h, sv)
    ensures Remaining(CleanDownload(sv, g).server, f) == if f == g then [] else Remaining(sv, f)
  {
    CleanDownloadKeeps(h, sv, g);
  }

  lemma MovedConserves(h: Hash, sv: Server, g: FlowId, f: FlowId)
    requires ServerOk(h, sv) && g in sv.downloads
    requires sv.downloads[g].offset + PIECE_SIZE < |sv.cache[sv.downloads[g].md5].content|
    ensures PiecesFor(SendFirst(sv, g), f) + Remaining(Moved(sv, g), f) == Remaining(sv, f)
  {
    var d := sv.downloads[g];
    var content := sv.cache[d.md5].content;
    var all := Pieces(d.md5, g, content, d.offset, d.index);
    assert all == [all[0]] + Pieces(d.md5, g, content, d.offset + PIECE_SIZE, d.index + 1);
    assert SendFirst(sv, g) == [all[0]] && SendFirst(sv, g)[1..] == [];
  }

  /** The next piece of flow `g`. */
  function SendFirst(sv: Server, g: FlowId): seq<Message> {
    var all := Remaining(sv, g);
    if all == [] then [] else [all[0]]
  }

  lemma LastConserves(h: Hash, sv: Server, g: FlowId, f: FlowId)
    requires ServerOk(h, sv) && g in sv.downloads
    requires sv.downloads[g].offset + PIECE_SIZE >= |sv.cache[sv.downloads[g].md5].content|
    ensures PiecesFor(SendFirst(sv, g), f) + Remaining(CleanDownload(sv, g).server, f) == Remaining(sv, f)
  {
    CleanDownloadConserves(h, sv, g, f);
    assert SendFirst(sv, g)[1..] == [];
  }

  lemma SendPieceIs(h: Hash, sv: Server)
    requires ServerOk(h, sv) && sv.downloads != map[]
    ensures
      var r, g := SendPiece(sv), Lowest(sv.downloads.Keys);
      && r.sends == SendFirst(sv, g)
      && r.server == if sv.downloads[g].offset + PIECE_SIZE >= |sv.cache[sv.downloads[g].md5].content|
                     then CleanDownload(sv, g).server else Moved(sv, g)
  {
  }

  lemma SendPieceConserves(h: Hash, sv: Server, f: FlowId)
    requires ServerOk(h, sv)
    ensures
      var r := SendPiece(sv);
      PiecesFor(r.sends, f) + Remaining(r.server, f) == Remaining(sv, f)
  {
    if sv.downloads != map[] {
      var g := Lowest(sv.downloads.Keys);
      SendPieceIs(h, sv);
      if sv.downloads[g].offset + PIECE_SIZE >= |sv.cache[sv.downloads[g].md5].content| {
        LastConserves(h, sv, g, f);
      } else {
        MovedConserves(h, sv, g, f);
      }
    }
  }

  lemma NotedRemaining(h: Hash, sv: Server, m: Md5, g: FlowId, f: FlowId)
    requires ServerOk(h, sv) && m in sv.files && g !in sv.downloads
    ensures Remaining(Noted(sv, m, g), f) == Remaining(sv, f) + (if f == g then Pieces(m, g, sv.files[m], 0, 0) else [])
  {
  }

  lemma AskedOne(files: map<Md5, Bytes>, msg: Message, f: FlowId)
    ensures Asked(files, [msg], f) ==
      if msg.DownloadBlock? && msg.flow == f && msg.md5 in files
      then Pieces(msg.md5, f, files[msg.md5], 0, 0) else []
  {
    assert [msg][1..] == [];
  }

  lemma UploadConserves(h: Hash, sv: Server, msg: Message, f: FlowId)
    requires msg.UploadBlock?
    ensures
      var r := OnMessage(h, sv, msg);
      PiecesFor(r.sends, f) == [] && Remaining(r.server, f) == Remaining(sv, f)
  {
    var sends := OnMessage(h, sv, msg).sends;
    assert sends != [] ==> sends[1..] == [];
  }

  lemma DownloadConserves(h: Hash, sv: Server, m: Md5, g: FlowId, f: FlowId)
    requires ServerOk(h, sv) && m in sv.files && g !in sv.downloads
    ensures
      var r := OnDownloadBlock(sv, m, g);
      PiecesFor(r.sends, f) + Remaining(r.server, f)
        == Remaining(sv, f) + (if f == g then Pieces(m, g, sv.files[m], 0, 0) else [])
  {
    NotedKeeps(h, sv, m, g);
    NotedRemaining(h, sv, m, g, f);
    SendPieceConserves(h, Noted(sv, m, g), f);
  }

  lemma CleanConserves(h: Hash, sv: Server, g: FlowId, f: FlowId)
    requires ServerOk(h, sv) && g != f
    ensures
      var r := OnClientClean(sv, g);
      PiecesFor(r.sends, f) == [] && Remaining(r.server, f) == Remaining(sv, f)
  {
    CleanDownloadKeeps(h, sv, g);
    CleanDownloadConserves(h, sv, g, f);
  }

  /** Whatever the interleaving: what a handler sends to a flow, followed by what the flow still has
      to get, is what the flow had to get before (plus what it has just asked for). */
  lemma OnMessageConserves(h: Hash, sv: Server, msg: Message, f: FlowId)
    requires ServerOk(h, sv) && Acceptable(sv, msg) && msg != ClientClean(f)
    ensures
      var r := OnMessage(h, sv, msg);
      PiecesFor(r.sends, f) + Remaining(r.server, f) == Remaining(sv, f) + Asked(sv.files, [msg], f)
  {
    AskedOne(sv.files, msg, f);
    if msg.DownloadBlock? {
      DownloadConserves(h, sv, msg.md5, msg.flow, f);
    } else {
      NothingSent(h, sv, msg, f);
      assert [] + Remaining(sv, f) == Remaining(sv, f) + [];
    }
  }

  lemma NothingSent(h: Hash, sv: Server, msg: Message, f: FlowId)
    requires ServerOk(h, sv) && !msg.DownloadBlock? && msg != ClientClean(f)
    ensures
      var r := OnMessage(h, sv, msg);
      PiecesFor(r.sends, f) == [] && Remaining(r.server, f) == Remaining(sv, f)
  {
    match msg
    case UploadBlock(_, _, _, _, _) => UploadConserves(h, sv, msg, f);
    case ClientClean(g) => CleanConserves(h, sv, g, f);
    case _ => OtherConserves(h, sv, msg, f);
  }

  lemma OtherConserves(h: Hash, sv: Server, msg: Message, f: FlowId)
    requires !msg.UploadBlock? && !msg.DownloadBlock? && !msg.ClientClean?
    ensures
      var r := OnMessage(h, sv, msg);
      PiecesFor(r.sends, f) == [] && r.server == sv
  {
  }

  lemma OnWriteCompleteConserves(h: Hash, sv: Server, f: FlowId)
    requires ServerOk(h, sv)
    ensures var r := OnWriteComplete(sv); PiecesFor(r.sends, f) + Remaining(r.server, f) == Remaining(sv, f)
  {
    if sv.phase == Working {
      SendPieceConserves(h, sv, f);
    } else {
      assert SendMd5s(sv).sends[1..] == [];
    }
  }

  // ----- Draining -----

  /** The number of pieces left for all the flows being served. */
  ghost function Work(sv: Server, flows: set<FlowId>): nat
    decreases flows
  {
    if flows == {} then 0
    else
      var f := Lowest(flows);
      |Remaining(sv, f)| + Work(sv, flows - {f})
  }

  lemma {:induction false} WorkSame(sv: Server, sv': Server, flows: set<FlowId>)
    requires forall f :: f in flows ==> Remaining(sv, f) == Remaining(sv', f)
    ensures Work(sv, flows) == Work(sv', flows)
    decreases flows
  {
    if flows != {} {
      WorkSame(sv, sv', flows - {Lowest(flows)});
    }
  }

  lemma SendPieceKeys(h: Hash, sv: Server)
    requires ServerOk(h, sv) && sv.downloads != map[]
    ensures
      var keys, keys' := sv.downloads.Keys, SendPiece(sv).server.downloads.Keys;
      var f := Lowest(keys);
      (keys' == keys || keys' == keys - {f}) && |PiecesFor(SendPiece(sv).sends, f)| == |SendPiece(sv).sends| == 1
  {
    var f := Lowest(sv.downloads.Keys);
    SendPieceIs(h, sv);
    assert CleanDownload(sv, f).server.downloads == sv.downloads - {f} by {
      CleanDownloadKeeps(h, sv, f);
    }
    FirstFor(sv, f);
  }

  lemma FirstFor(sv: Server, f: FlowId)
    ensures |PiecesFor(SendFirst(sv, f), f)| == |SendFirst(sv, f)|
  {
    var all := Remaining(sv, f);
    if all != [] {
      assert all[0].TransferBlock? && all[0].flow == f;
      assert SendFirst(sv, f)[1..] == [];
    }
  }

  /** Each send of the scheduler is one message and one unit of the work. */
  lemma SendPieceWorks(h: Hash, sv: Server)
    requires ServerOk(h, sv) && sv.downloads != map[]
    ensures var r := SendPiece(sv);
      && |r.sends| == 1
      && Work(r.server, r.server.downloads.Keys) == Work(sv, sv.downloads.Keys) - 1
  {
    var keys := sv.downloads.Keys;
    var f := Lowest(keys);
    SendPieceKeys(h, sv);
    WorkMoves(h, sv, SendPiece(sv), keys, f);
  }

  lemma WorkMoves(h: Hash, sv: Server, r: ServerResult, keys: set<FlowId>, f: FlowId)
    requires ServerOk(h, sv) && r == SendPiece(sv) && keys == sv.downloads.Keys && keys != {} && f == Lowest(keys)
    requires (r.server.downloads.Keys == keys || r.server.downloads.Keys == keys - {f}) && |PiecesFor(r.sends, f)| == 1
    ensures Work(r.server, r.server.downloads.Keys) == Work(sv, keys) - 1
  {
    SendPieceConserves(h, sv, f);
    forall g | g in keys - {f} ensures Remaining(sv, g) == Remaining(r.server, g) {
      OthersKept(h, sv, g);
    }
    WorkSame(sv, r.server, keys - {f});
  }

  lemma OthersKept(h: Hash, sv: Server, g: FlowId)
    requires ServerOk(h, sv) && sv.downloads != map[] && g != Lowest(sv.downloads.Keys)
    ensures Remaining(SendPiece(sv).server, g) == Remaining(sv, g)
  {
    SendPieceIs(h, sv);
    CleanDownloadConserves(h, sv, Lowest(sv.downloads.Keys), g);
  }

  lemma SendStep(h: Hash, sv: Server)
    requires ServerOk(h, sv)
    ensures ServerOk(h, SendPiece(sv).server)
    ensures sv.downloads == map[] ==> SendPiece(sv).server == sv && Work(sv, sv.downloads.Keys) == 0
    ensures sv.downloads != map[] ==>
              Work(SendPiece(sv).server, SendPiece(sv).server.downloads.Keys) + 1 == Work(sv, sv.downloads.Keys)
  {
    SendPieceKeeps(h, sv);
    if sv.downloads != map[] {
      SendPieceWorks(h, sv);
    }
  }

  /** `n` sends in a row, none of them by a request. */
  ghost function Drain(sv: Server, n: nat): Server {
    if n == 0 then sv else SendPiece(Drain(sv, n - 1)).server
  }

  lemma {:induction false} DrainWorks(h: Hash, sv: Server, n: nat)
    requires ServerOk(h, sv)
    ensures ServerOk(h, Drain(sv, n))
    ensures var w := Work(sv, sv.downloads.Keys);
      Work(Drain(sv, n), Drain(sv, n).downloads.Keys) == if n <= w then w - n else 0
  {
    if n > 0 {
      DrainWorks(h, sv, n - 1);
      SendStep(h, Drain(sv, n - 1));
    }
  }

  /** A fixed set of flows is served in exactly as many sends as there are pieces left. */
  lemma DrainExact(h: Hash, sv: Server, n: nat)
    requires ServerOk(h, sv)
    ensures Drain(sv, n).downloads == map[] <==> n >= Work(sv, sv.downloads.Keys)
  {
    DrainWorks(h, sv, n);
    SendStep(h, Drain(sv, n));
  }

  /** The work left for one flow is max(1, ceil((L - offset) / 4096)). */
  lemma RemainingCount(h: Hash, sv: Server, f: FlowId)
    requires ServerOk(h, sv) && f in sv.downloads
    ensures var d := sv.downloads[f];
      |Remaining(sv, f)| == PieceCount(|sv.files[d.md5]| - d.offset)
  {
    var d := sv.downloads[f];
    PiecesAreTheBlock(d.md5, f, sv.files[d.md5], d.offset, d.index);
  }

  // ----- The stream of upload pieces of one flow -----

  /** Where the stream stands: between blocks, inside a block whose first bytes are `content`, or
      broken (pieces out of place, or a finished block without its hash). */
  datatype Stream = Between | Inside(md5: Md5, content: Bytes) | Broken

  function Read(h: Hash, f: FlowId, at: Stream, msg: Message): Stream {
    match msg
    case UploadBlock(m, index, g, eof, c) =>
      if g != f then at
      else if at.Broken? || (index == 0) != at.Between? || (at.Inside? && at.md5 != m) then Broken
      else
        var content := if at.Inside? then at.content + c else c;
        if !eof then Inside(m, content)
        else if h(content) == m then Between
        else Broken
    case UploadAllBlocks => if at.Between? then Between else Broken
    case ClientClean(g) => if g != f || at.Broken? then at else Between
    case _ => at
  }

  function ReadAll(h: Hash, f: FlowId, at: Stream, msgs: seq<Message>): Stream
    decreases |msgs|
  {
    if msgs == [] then at else ReadAll(h, f, Read(h, f, at, msgs[0]), msgs[1..])
  }

  lemma {:induction false} ReadAllAppend(h: Hash, f: FlowId, at: Stream, a: seq<Message>, b: seq<Message>)
    ensures ReadAll(h, f, at, a + b) == ReadAll(h, f, ReadAll(h, f, at, a), b)
    decreases |a|
  {
    if a == [] {
      assert a + b == b;
    } else {
      assert (a + b)[1..] == a[1..] + b;
      ReadAllAppend(h, f, Read(h, f, at, a[0]), a[1..], b);
    }
  }

  lemma {:induction false} ReadAllBroken(h: Hash, f: FlowId, msgs: seq<Message>)
    ensures ReadAll(h, f, Broken, msgs) == Broken
    decreases |msgs|
  {
    if msgs != [] {
      ReadAllBroken(h, f, msgs[1..]);
    }
  }

  /** The server's accumulator of flow `f`. */
  function Accumulated(sv: Server, f: FlowId): Stream {
    if f !in sv.uploads then Between
    else if sv.uploads[f].md5.None? then Broken
    else Inside(sv.uploads[f].md5.value, sv.uploads[f].content)
  }

  lemma UploadFollows(h: Hash, sv: Server, msg: Message, f: FlowId)
    requires msg.UploadBlock? && Read(h, f, Accumulated(sv, f), msg) != Broken
    ensures
      var r := OnMessage(h, sv, msg);
      && Accumulated(r.server, f) == Read(h, f, Accumulated(sv, f), msg)
      && (msg.flow == f ==>
            && r.sends == (if msg.eof then [UploadBlockAck(msg.md5)] else [])
            && (msg.eof ==> msg.md5 in r.server.files))
  {
    if msg.flow == f && f !in sv.uploads {
      assert [] + msg.content == msg.content;
    }
  }

  lemma DownloadUploads(h: Hash, sv: Server, m: Md5, g: FlowId)
    requires ServerOk(h, sv) && m in sv.files && g !in sv.downloads
    ensures OnDownloadBlock(sv, m, g).server.uploads == sv.uploads
  {
    NotedKeeps(h, sv, m, g);
    SendPieceKeeps(h, Noted(sv, m, g));
  }

  lemma CleanUploads(h: Hash, sv: Server, g: FlowId)
    requires ServerOk(h, sv)
    ensures OnClientClean(sv, g).server.uploads == sv.uploads - {g}
  {
    CleanDownloadKeeps(h, sv, g);
  }

  lemma OthersFollow(h: Hash, sv: Server, msg: Message, f: FlowId)
    requires ServerOk(h, sv) && Acceptable(sv, msg) && !msg.UploadBlock? && !msg.UploadAllBlocks?
    requires Read(h, f, Accumulated(sv, f), msg) != Broken
    ensures Accumulated(OnMessage(h, sv, msg).server, f) == Read(h, f, Accumulated(sv, f), msg)
  {
    if msg.DownloadBlock? {
      DownloadUploads(h, sv, msg.md5, msg.flow);
      assert OnMessage(h, sv, msg) == OnDownloadBlock(sv, msg.md5, msg.flow);
    } else if msg.ClientClean? {
      CleanUploads(h, sv, msg.flow);
      assert OnMessage(h, sv, msg) == OnClientClean(sv, msg.flow);
    }
  }

  /** While the stream of a flow is not broken, the server's accumulator is exactly where the stream
      is, no mismatch is reported, and a finished block is stored and acknowledged. */
  lemma OnMessageFollowsStream(h: Hash, sv: Server, msg: Message, f: FlowId)
    requires ServerOk(h, sv) && Acceptable(sv, msg)
    requires Read(h, f, Accumulated(sv, f), msg) != Broken
    ensures
      var r := OnMessage(h, sv, msg);
      && (!msg.UploadAllBlocks? ==> Accumulated(r.server, f) == Read(h, f, Accumulated(sv, f), msg))
      && (msg.UploadBlock? && msg.flow == f ==>
            && r.sends == (if msg.eof then [UploadBlockAck(msg.md5)] else [])
            && (msg.eof ==> msg.md5 in r.server.files))
  {
    if msg.UploadBlock? {
      UploadFollows(h, sv, msg, f);
    } else if !msg.UploadAllBlocks? {
      OthersFollow(h, sv, msg, f);
    }
  }
}
