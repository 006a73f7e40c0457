/** The proxy's handlers as functions on its state (src/proxy/proxy.cpp with the contexts of
    include/proxy/), for one backup per block (block_backup_count of conf/proxy.conf). The class
    Proxy is proved to compute exactly these functions. */
module ProxyModel {
  import opened Types
  import opened FileBlocks

  datatype ClientPhase = Init | WaitingUploadBlock | HaveUploadedAllBlocks | WaitingTransferBlock | HaveTransferedAllBlocks

  datatype Client = Client(
    phase: ClientPhase,
    uploading: seq<Md5>,            // uploading_block_md5s_
    relay: seq<ServerId>,           // transfering_storage_servers_
    needed: seq<Md5>,               // transfering_block_md5s_
    index: nat,                     // current_transfering_block_index_
    succ: nat,                      // succ_storages_
    fail: nat)                      // fail_storages_

  datatype StoragePhase = WaitingBlockSet | Working

  /** `subs` stands for block_ack_callbacks_: the callback that handleClientUploadBlockMessage
      registers is determined by the flow it captures. */
  datatype Storage = Storage(phase: StoragePhase, md5s: set<Md5>, subs: map<Md5, seq<FlowId>>)

  datatype Proxy = Proxy(
    clients: map<FlowId, Client>,
    storages: map<ServerId, Storage>,
    ids: map<Md5, seq<Md5>>,        // the id table
    nextFlow: nat)

  datatype ProxyResult = ProxyResult(
    proxy: Proxy,
    toClients: map<FlowId, seq<Message>>,
    toServers: map<ServerId, seq<Message>>,
    outcome: Outcome)

  const NewClient := Client(Init, [], [], [], 0, 0, 0)
  const NewStorage := Storage(WaitingBlockSet, {}, map[])

  // ----- Votes -----

  datatype Ballot = Ballot(clients: map<FlowId, Client>, mail: map<FlowId, seq<Message>>)
  datatype Vote = Vote(md5: Md5, flow: FlowId)

  function Voted(c: Client, succ: bool): Client {
    if succ then c.(succ := c.succ + 1) else c.(fail := c.fail + 1)
  }

  function Reply(c: Client, m: Md5): Message {
    if c.succ >= 1 then UploadBlockAck(m) else UploadBlockFail(m)
  }

  /** One call of the callback of flow `v.flow`. */
  function CastVote(b: Ballot, v: Vote, succ: bool): Ballot {
    if v.flow !in b.clients then
      b
    else
      var c := Voted(b.clients[v.flow], succ);
      Ballot(b.clients[v.flow := c], if c.succ + c.fail == 1 then Post(b.mail, v.flow, Reply(c, v.md5)) else b.mail)
  }

  function CastVotes(b: Ballot, votes: seq<Vote>, succ: bool): Ballot
    decreases |votes|
  {
    if votes == [] then b else CastVotes(CastVote(b, votes[0], succ), votes[1..], succ)
  }

  function VotesOn(m: Md5, flows: seq<FlowId>): seq<Vote> {
    seq(|flows|, i requires 0 <= i < |flows| => Vote(m, flows[i]))
  }

  /** All pending votes of a storage, by md5 in the given order. */
  function AllVotes(subs: map<Md5, seq<FlowId>>, order: seq<Md5>): seq<Vote> {
    if order == [] then []
    else (if order[0] in subs then VotesOn(order[0], subs[order[0]]) else []) + AllVotes(subs, order[1..])
  }

  // ----- Messages from clients -----

  predicate Indexed(p: Proxy, m: Md5) {
    exists s :: s in p.storages && m in p.storages[s].md5s
  }

  /** getNeedUploadMd5s: the md5s that no connected server lists. */
  function NeedUpload(p: Proxy, md5s: seq<Md5>): seq<Md5> {
    if md5s == [] then []
    else (if Indexed(p, md5s[0]) then [] else [md5s[0]]) + NeedUpload(p, md5s[1..])
  }

  function ReallyNeed(md5s: seq<Md5>, have: seq<Md5>): seq<Md5> {
    if md5s == [] then []
    else (if md5s[0] in have then [] else [md5s[0]]) + ReallyNeed(md5s[1..], have)
  }

  function Subscribe(subs: map<Md5, seq<FlowId>>, m: Md5, f: FlowId): map<Md5, seq<FlowId>> {
    subs[m := (if m in subs then subs[m] else []) + [f]]
  }

  /** The server chosen by a handler that has to choose one; the source picks at random for uploads
      and takes the first of a pointer-ordered set for downloads. */
  ghost predicate PickOk(p: Proxy, f: FlowId, msg: Message, pick: ServerId) {
    && (p.storages != map[] ==> pick in p.storages)
    && (forall m :: Wanted(p, f, msg) == Some(m) && Indexed(p, m) ==>
          pick in p.storages && m in p.storages[pick].md5s)
  }

  /** The md5 that handling `msg` will request from a server. */
  function Wanted(p: Proxy, f: FlowId, msg: Message): Option<Md5>
  {
    if f !in p.clients then None
    else
      var c := p.clients[f];
      match msg
      case DownloadRequest(id, have) =>
        if c.phase == Init && id in p.ids && c.index < |ReallyNeed(p.ids[id], have)|
        then Some(ReallyNeed(p.ids[id], have)[c.index]) else None
      case TransferBlockAck(_) =>
        if c.phase == WaitingTransferBlock && c.index + 1 < |c.needed|
        then Some(c.needed[c.index + 1]) else None
      case _ => None
  }

  function Silent(p: Proxy, outcome: Outcome): ProxyResult {
    ProxyResult(p, map[], map[], outcome)
  }

  function SetClient(p: Proxy, f: FlowId, c: Client): Proxy {
    p.(clients := p.clients[f := c])
  }

  function RequestBlock(p: Proxy, m: Md5, f: FlowId, pick: ServerId): ProxyResult {
    if !Indexed(p, m) then Silent(p, Close)
    else ProxyResult(p, map[], map[pick := [DownloadBlock(m, f)]], Ok)
  }

  function OnUploadRequest(p: Proxy, f: FlowId, md5s: seq<Md5>): ProxyResult
    requires f in p.clients
  {
    ProxyResult(SetClient(p, f, p.clients[f].(uploading := md5s, phase := WaitingUploadBlock)),
                map[f := [UploadResponse(NeedUpload(p, md5s))]], map[], Ok)
  }

  function OnDownloadRequest(p: Proxy, f: FlowId, id: Md5, have: seq<Md5>, pick: ServerId): ProxyResult
    requires f in p.clients
  {
    if id !in p.ids then
      ProxyResult(p, map[f := [FileNotExist(id)]], map[], Ok)
    else
      var c := p.clients[f].(phase := WaitingTransferBlock, needed := ReallyNeed(p.ids[id], have));
      if c.index >= |c.needed| then Silent(p, Exit)
      else RequestBlock(SetClient(p, f, c), c.needed[c.index], f, pick)
  }

  /** setFlowIdToUploadBlockMessage */
  function Stamped(msg: Message, f: FlowId): Message
    requires msg.UploadBlock?
  {
    UploadBlock(msg.md5, msg.index, f, msg.eof, msg.content)
  }

  function OnUploadBlock(p: Proxy, f: FlowId, msg: Message, pick: ServerId): ProxyResult
    requires f in p.clients && msg.UploadBlock?
  {
    var c := p.clients[f];
    if msg.index == 0 then
      if pick !in p.storages then Silent(p, Exit)
      else
        var s := p.storages[pick];
        var p' := SetClient(p, f, c.(succ := 0, fail := 0, relay := [pick]));
        ProxyResult(p'.(storages := p.storages[pick := s.(subs := Subscribe(s.subs, msg.md5, f))]),
                    map[], map[pick := [Stamped(msg, f)]], Ok)
    else
      ProxyResult(p, map[], map s | s in c.relay && s in p.storages :: [Stamped(msg, f)], Ok)
  }

  function OnUploadAllBlocks(h: Hash, p: Proxy, f: FlowId): ProxyResult
    requires f in p.clients
  {
    var c := p.clients[f];
    var id := FileId(h, c.uploading);
    var p' := SetClient(p, f, c.(phase := HaveUploadedAllBlocks));
    ProxyResult(if id in p.ids then p' else p'.(ids := p.ids[id := c.uploading]),
                map[f := [FileStoreSucc(id)]], map[], Ok)
  }

  /** continueToTransferBlock: the size less one wraps around on an empty list. */
  predicate Continues(c: Client) {
    |c.needed| == 0 || c.index < |c.needed| - 1
  }

  function OnTransferBlockAck(p: Proxy, f: FlowId, pick: ServerId): ProxyResult
    requires f in p.clients
  {
    var c := p.clients[f];
    if Continues(c) then
      if c.index >= |c.needed| then Silent(p, Exit)
      else RequestBlock(SetClient(p, f, c.(index := c.index + 1)), c.needed[c.index + 1], f, pick)
    else
      ProxyResult(SetClient(p, f, c.(phase := HaveTransferedAllBlocks)), map[f := [TransferAllBlocks]], map[], Ok)
  }

  function OnClientMessage(h: Hash, p: Proxy, f: FlowId, msg: Message, pick: ServerId): (r: ProxyResult)
    requires f in p.clients
    ensures r.proxy.clients.Keys == p.clients.Keys && r.proxy.storages.Keys == p.storages.Keys
  {
    match p.clients[f].phase
    case Init =>
      if msg.UploadRequest? then OnUploadRequest(p, f, msg.md5s)
      else if msg.DownloadRequest? then OnDownloadRequest(p, f, msg.id, msg.have, pick)
      else Silent(p, Close)
    case WaitingUploadBlock =>
      if msg.UploadBlock? then OnUploadBlock(p, f, msg, pick)
      else if msg.UploadAllBlocks? then OnUploadAllBlocks(h, p, f)
      else Silent(p, Close)
    case WaitingTransferBlock =>
      if msg.TransferBlockAck? then OnTransferBlockAck(p, f, pick)
      else Silent(p, Close)
    case _ => Silent(p, Close)
  }

  function OnClientClose(p: Proxy, f: FlowId): ProxyResult
    requires f in p.clients
  {
    var p' := p.(clients := p.clients - {f});
    if p.clients[f].phase == HaveUploadedAllBlocks || p.clients[f].phase == HaveTransferedAllBlocks then
      Silent(p', Ok)
    else
      ProxyResult(p', map[], map s | s in p.storages :: [ClientClean(f)], Ok)
  }

  // ----- Messages from storage servers -----

  function Publish(p: Proxy, s: ServerId, m: Md5, succ: bool): ProxyResult
    requires s in p.storages
  {
    var st := p.storages[s];
    if m !in st.subs then
      Silent(p, Ok)
    else
      var b := CastVotes(Ballot(p.clients, map[]), VotesOn(m, st.subs[m]), succ);
      ProxyResult(p.(clients := b.clients, storages := p.storages[s := st.(subs := st.subs - {m})]), b.mail, map[], Ok)
  }

  function SetStorage(p: Proxy, s: ServerId, st: Storage): Proxy {
    p.(storages := p.storages[s := st])
  }

  function Learn(p: Proxy, s: ServerId, ms: set<Md5>): Proxy
    requires s in p.storages
  {
    SetStorage(p, s, p.storages[s].(md5s := p.storages[s].md5s + ms))
  }

  function OnServerMessage(p: Proxy, s: ServerId, msg: Message): ProxyResult
    requires s in p.storages
  {
    match p.storages[s].phase
    case WaitingBlockSet =>
      if msg.TransferBlockSet? then
        var p' := Learn(p, s, set m | m in msg.md5s);
        Silent(if msg.eof then SetStorage(p', s, p'.storages[s].(phase := Working)) else p', Ok)
      else
        Silent(p, Close)
    case Working =>
      match msg
      case UploadBlockAck(m) =>
        var r := Publish(p, s, m, true);
        r.(proxy := Learn(r.proxy, s, {m}))
      case UploadBlockFail(m) => Publish(p, s, m, false)
      case TransferBlock(_, _, _, f, _) =>
        if f in p.clients then ProxyResult(p, map[f := [msg]], map[], Ok) else Silent(p, Ok)
      case _ => Silent(p, Close)
  }

  /** `order` is the order of the keys of block_ack_callbacks_. */
  function OnServerClose(p: Proxy, s: ServerId, order: seq<Md5>): ProxyResult
    requires s in p.storages
  {
    var b := CastVotes(Ballot(p.clients, map[]), AllVotes(p.storages[s].subs, order), false);
    ProxyResult(p.(clients := b.clients, storages := p.storages - {s}), b.mail, map[], Ok)
  }

  // ----- What the votes do to one flow -----

  ghost predicate Votes(votes: seq<Vote>, f: FlowId) {
    exists i :: 0 <= i < |votes| && votes[i].flow == f
  }

  ghost predicate VotesOnce(votes: seq<Vote>, f: FlowId) {
    forall i, j :: 0 <= i < j < |votes| && votes[i].flow == f ==> votes[j].flow != f
  }

  lemma {:induction false} CastVotesClients(b: Ballot, votes: seq<Vote>, succ: bool)
    ensures CastVotes(b, votes, succ).clients.Keys == b.clients.Keys
    decreases |votes|
  {
    if votes != [] {
      CastVotesClients(CastVote(b, votes[0], succ), votes[1..], succ);
    }
  }

  /** Votes touch nothing of a client but its counters, and nobody gets mail who is not a client
      with a vote. */
  lemma {:induction false} CastVotesFrame(b: Ballot, votes: seq<Vote>, succ: bool, f: FlowId)
    requires !Votes(votes, f) || f !in b.clients
    ensures var b' := CastVotes(b, votes, succ);
      && (f in b'.clients <==> f in b.clients)
      && (f in b.clients ==> b'.clients[f] == b.clients[f])
      && Mail(b'.mail, f) == Mail(b.mail, f)
    decreases |votes|
  {
    if votes != [] {
      assert votes[0].flow == f ==> Votes(votes, f);
      assert forall i :: 0 <= i < |votes[1..]| ==> votes[1..][i] == votes[i + 1];
      CastVotesFrame(CastVote(b, votes[0], succ), votes[1..], succ, f);
    }
  }

  /** A flow that votes once gets its counters moved by that vote; and if it is the first vote for its block, one reply:
      an acknowledgement for a success, and a failure for a failure. */
  lemma {:induction false} CastVotesEffect(b: Ballot, votes: seq<Vote>, succ: bool, f: FlowId, k: nat)
    requires VotesOnce(votes, f) && k < |votes| && votes[k].flow == f && f in b.clients
    ensures
      var b' := CastVotes(b, votes, succ);
      var before, m := b.clients[f], votes[k].md5;
      && f in b'.clients
      && b'.clients[f] == (if succ then before.(succ := before.succ + 1) else before.(fail := before.fail + 1))
      && Mail(b'.mail, f) == Mail(b.mail, f) + (if before.succ + before.fail > 0 then [] else if succ then [UploadBlockAck(m)] else [UploadBlockFail(m)])
    decreases |votes|
  {
    var b1 := CastVote(b, votes[0], succ);
    assert forall i :: 0 <= i < |votes[1..]| ==> votes[1..][i] == votes[i + 1];
    if k == 0 {
      assert !Votes(votes[1..], f);
      CastVotesFrame(b1, votes[1..], succ, f);
    } else {
      CastVotesEffect(b1, votes[1..], succ, f, k - 1);
    }
  }

  // ----- The filters -----

  lemma {:induction false} NeedUploadCovers(p: Proxy, md5s: seq<Md5>)
    ensures forall m :: m in NeedUpload(p, md5s) ==> m in md5s && !Indexed(p, m)
    ensures forall m :: m in md5s ==> m in NeedUpload(p, md5s) || Indexed(p, m)
  {
    if md5s != [] {
      NeedUploadCovers(p, md5s[1..]);
    }
  }

  lemma {:induction false} ReallyNeedAll(md5s: seq<Md5>)
    ensures ReallyNeed(md5s, []) == md5s
  {
    if md5s != [] {
      ReallyNeedAll(md5s[1..]);
    }
  }
}
