/** A measure of what is left to do: requests not yet handled, then blocks not yet begun, then the weight of
    pieces, messages, callbacks and writes. */
module Measure {
  import opened Types
  import opened FileBlocks
  import SM = ServerModel
  import AM = AgentModel
  import opened ProxyModel
  import opened SystemModel
  import opened Invariant
  import opened Frames

  // ----- Sums -----

  ghost function Sum(n: nat, w: nat -> nat): nat {
    if n == 0 then 0 else Sum(n - 1, w) + w(n - 1)
  }

  /** All terms but one may only fall, so the sum changes by at most what that one changes. */
  lemma {:induction false} SumShift(n: nat, w: nat -> nat, w': nat -> nat, k: nat)
    requires forall i: nat :: i < n && i != k ==> w'(i) <= w(i)
    ensures if k < n then Sum(n, w') + w(k) <= Sum(n, w) + w'(k) else Sum(n, w') <= Sum(n, w)
  {
    if n > 0 {
      SumShift(n - 1, w, w', k);
    }
  }

  // ----- Weights -----

  datatype Channel = ClientOut | ClientIn | ServerIn | ServerOut

  /** The weight of a message covers everything its handling can lead to, up to the next block. */
  function Cost(ch: Channel, files: map<Md5, Bytes>, msg: Message): nat {
    match ch
    case ClientOut => if msg.UploadBlock? then 6 else if msg.UploadAllBlocks? then 2 else 1
    case ClientIn => if msg.TransferBlock? && msg.eof then 2 else 1
    case ServerIn =>
      if msg.UploadBlock? then 3
      else if msg.DownloadBlock? && msg.md5 in files then 4 * PieceCount(|files[msg.md5]|) + 2
      else 1
    case ServerOut => if msg.TransferBlock? then 3 else 1
  }

  function Weigh(ch: Channel, files: map<Md5, Bytes>, msgs: seq<Message>): nat {
    if msgs == [] then 0 else Cost(ch, files, msgs[0]) + Weigh(ch, files, msgs[1..])
  }

  lemma {:induction false} WeighAppend(ch: Channel, files: map<Md5, Bytes>, a: seq<Message>, b: seq<Message>)
    ensures Weigh(ch, files, a + b) == Weigh(ch, files, a) + Weigh(ch, files, b)
  {
    if a == [] {
      assert a + b == b;
    } else {
      assert (a + b)[0] == a[0] && (a + b)[1..] == a[1..] + b;
      WeighAppend(ch, files, a[1..], b);
    }
  }

  lemma WeighOne(ch: Channel, files: map<Md5, Bytes>, msgs: seq<Message>)
    ensures |msgs| <= 1 ==> Weigh(ch, files, msgs) == if msgs == [] then 0 else Cost(ch, files, msgs[0])
  {
    if |msgs| == 1 {
      assert msgs[1..] == [];
    }
  }

  lemma {:induction false} WeighGrows(files: map<Md5, Bytes>, files': map<Md5, Bytes>, msgs: seq<Message>)
    requires forall m :: m in files ==> m in files' && files'[m] == files[m]
    requires forall msg :: msg in msgs && msg.DownloadBlock? ==> msg.md5 in files
    ensures Weigh(ServerIn, files', msgs) == Weigh(ServerIn, files, msgs)
  {
    if msgs != [] {
      assert msgs[0] in msgs;
      WeighGrows(files, files', msgs[1..]);
    }
  }

  /** The pieces an agent has still to send of its current block. */
  function PiecesLeft(a: AM.Agent): nat {
    if a.phase != AM.UploadingBlocks || a.current >= |a.upload| then 0
    else
      match AM.Find(a.blocks, a.upload[a.current])
      case None => 0
      case Some(b) => if a.offset <= b.length then PieceCount(b.length - a.offset) else 0
  }

  function PartyWeight(party: Party): nat {
    match party
    case Uploader(a, writing) => 7 * PiecesLeft(a) + (if writing then 1 else 0)
    case Downloader(_) => 0
  }

  function ClientWeight(e: ClientEnd): nat {
    Weigh(ClientIn, map[], e.inq) + Weigh(ClientOut, map[], e.outq) + PartyWeight(e.party)
  }

  function FlowWeight(st: System, f: FlowId): nat {
    if f in st.clients then ClientWeight(st.clients[f]) + 2 * |Subs(st.proxy, f)| else 0
  }

  function SetsLeft(sv: SM.Server): nat {
    if sv.phase == SM.TransferingBlockSet && sv.next <= |sv.toSend| then 2 * (|sv.toSend| - sv.next + 1) else 0
  }

  ghost function EndWeight(e: ServerEnd): nat {
    Weigh(ServerIn, e.server.files, e.inq) + Weigh(ServerOut, map[], e.outq)
    + 4 * SM.Work(e.server, e.server.downloads.Keys) + SetsLeft(e.server) + (if e.writing then 1 else 0)
  }

  /** A connected server can still be dropped. */
  ghost function ServerWeight(st: System, s: ServerId): nat {
    (if s in st.servers then EndWeight(st.servers[s]) else 0) + (if s in st.proxy.storages then 1 else 0)
  }

  /** A first request that the proxy has not handled. */
  function RequestDue(st: System, f: FlowId): nat {
    if f in st.proxy.clients && f in st.clients && st.proxy.clients[f].phase == Init && st.clients[f].outq != [] then 1 else 0
  }

  function AgentBlocks(a: AM.Agent, inq: seq<Message>): nat {
    match a.phase
    case WaitingUploadResponse => if inq != [] && inq[0].UploadResponse? then |inq[0].md5s| + 1 else 0
    case UploadingBlocks => if a.current <= |a.upload| then |a.upload| - a.current else 0
    case WaitingBlockAck => if a.current <= |a.upload| then |a.upload| - a.current else 0
    case _ => 0
  }

  function ContextBlocks(ctx: Option<Client>): nat {
    if ctx.Some? && ctx.value.phase == WaitingTransferBlock && ctx.value.index <= |ctx.value.needed|
    then |ctx.value.needed| - ctx.value.index else 0
  }

  /** The blocks of the flow that have not been finished. */
  function BlocksDue(st: System, f: FlowId): nat {
    if f !in st.clients then 0
    else
      match st.clients[f].party
      case Uploader(a, _) => AgentBlocks(a, st.clients[f].inq)
      case Downloader(_) => ContextBlocks(Context(st, f))
  }

  datatype Rank = Rank(requests: nat, blocks: nat, weight: nat)

  ghost function RankOf(st: System): Rank {
    Rank(Sum(st.proxy.nextFlow, f => RequestDue(st, f)),
         Sum(st.proxy.nextFlow, f => BlocksDue(st, f)),
         Sum(st.proxy.nextFlow, f => FlowWeight(st, f)) + Sum(st.nextServer, s => ServerWeight(st, s)))
  }

  predicate Below(r: Rank, q: Rank) {
    r.requests < q.requests
    || (r.requests == q.requests && (r.blocks < q.blocks || (r.blocks == q.blocks && r.weight < q.weight)))
  }

  /** What concerns one flow does not rise. */
  ghost predicate NoRise(st: System, st': System, g: FlowId) {
    RequestDue(st', g) <= RequestDue(st, g) && BlocksDue(st', g) <= BlocksDue(st, g) && FlowWeight(st', g) <= FlowWeight(st, g)
  }

  /** A request handled, or a block finished, lowers the rank whatever it leads to. */
  lemma ReachesNext(st: System, st': System, f: FlowId)
    requires st'.proxy.nextFlow == st.proxy.nextFlow && f < st.proxy.nextFlow
    requires forall g: FlowId :: g != f ==> NoRise(st, st', g)
    requires RequestDue(st', f) < RequestDue(st, f)
          || (RequestDue(st', f) == RequestDue(st, f) && BlocksDue(st', f) < BlocksDue(st, f))
    ensures Below(RankOf(st'), RankOf(st))
  {
    var n := st.proxy.nextFlow;
    forall g: nat | g != f ensures RequestDue(st', g) <= RequestDue(st, g) && BlocksDue(st', g) <= BlocksDue(st, g) {
      assert NoRise(st, st', g);
    }
    SumShift(n, g => RequestDue(st, g), g => RequestDue(st', g), f);
    SumShift(n, g => BlocksDue(st, g), g => BlocksDue(st', g), f);
  }

  /** A step in which the weight of one flow and one server falls, and nothing else rises, lowers the rank. */
  lemma LosesWeight(st: System, st': System, f: FlowId, s: ServerId)
    requires st'.proxy.nextFlow == st.proxy.nextFlow && st'.nextServer == st.nextServer
    requires f < st.proxy.nextFlow || FlowWeight(st', f) == FlowWeight(st, f)
    requires s < st.nextServer || ServerWeight(st', s) == ServerWeight(st, s)
    requires forall g: FlowId :: g != f ==> NoRise(st, st', g)
    requires forall t: ServerId :: t != s ==> ServerWeight(st', t) <= ServerWeight(st, t)
    requires RequestDue(st', f) <= RequestDue(st, f) && BlocksDue(st', f) <= BlocksDue(st, f)
    requires FlowWeight(st', f) + ServerWeight(st', s) < FlowWeight(st, f) + ServerWeight(st, s)
    ensures Below(RankOf(st'), RankOf(st))
  {
    var n := st.proxy.nextFlow;
    forall g: nat | g != f
      ensures RequestDue(st', g) <= RequestDue(st, g) && BlocksDue(st', g) <= BlocksDue(st, g) && FlowWeight(st', g) <= FlowWeight(st, g)
    {
      assert NoRise(st, st', g);
    }
    SumShift(n, g => RequestDue(st, g), g => RequestDue(st', g), f);
    SumShift(n, g => BlocksDue(st, g), g => BlocksDue(st', g), f);
    SumShift(n, g => FlowWeight(st, g), g => FlowWeight(st', g), f);
    SumShift(st.nextServer, t => ServerWeight(st, t), t => ServerWeight(st', t), s);
  }

  lemma {:induction false} SubsetSize<T>(a: set<T>, b: set<T>)
    requires a <= b
    ensures |a| <= |b|
    decreases a
  {
    if a != {} {
      var x :| x in a;
      SubsetSize(a - {x}, b - {x});
    }
  }

  lemma UntouchedNoRise(h: Hash, st: System, st': System, g: FlowId)
    requires Untouched(h, st, st', g)
    ensures NoRise(st, st', g)
  {
    SubsetSize(Subs(st'.proxy, g), Subs(st.proxy, g));
    assert Context(st', g) == Context(st, g);
  }
}
