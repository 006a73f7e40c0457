/** What has passed between the proxy and a downloading client since the start of a run. */
module DownloadHistory {
  import opened Types
  import DM = DownloaderModel
  import opened ProxyModel
  import opened SystemModel
  import opened Invariant
  import opened Frames
  import opened ProxySteps
  import opened DownloadHandlers
  import opened CloseHandlers
  import opened ServerHandlers
  import opened VoteHandlers
  import opened Runs
  import opened EndToEnd
  import opened OverlookedReplies

  // ----- Histories -----

  /** The messages of flow `f` that the proxy has handled in the first `i` steps. */
  ghost function HandledFrom(run: seq<System>, acts: seq<Action>, f: FlowId, i: nat): seq<Message>
    requires |run| == |acts| + 1 && i < |run|
  {
    if i == 0 then [] else HandledFrom(run, acts, f, i - 1) + Taking(run[i - 1], acts[i - 1], f)
  }

  ghost function Taking(st: System, act: Action, f: FlowId): seq<Message> {
    if act.ProxyReceivesFromClient? && act.flow == f && f in st.clients && st.clients[f].outq != [] then [st.clients[f].outq[0]] else []
  }

  /** The messages that the proxy has sent to flow `f` in the first `i` steps. */
  ghost function SentTo(run: seq<System>, acts: seq<Action>, f: FlowId, i: nat): seq<Message>
    requires |run| == |acts| + 1 && i < |run|
  {
    if i == 0 then [] else SentTo(run, acts, f, i - 1) + Sending(run[i - 1], acts[i - 1], run[i], f)
  }

  /** What a step of the proxy has added to the channel to flow `f`. */
  ghost function Sending(st: System, act: Action, st': System, f: FlowId): seq<Message> {
    if IsProxyStep(act) && f in st.clients && f in st'.clients && |st.clients[f].inq| <= |st'.clients[f].inq|
    then st'.clients[f].inq[|st.clients[f].inq|..] else []
  }

  /** The md5s acknowledged by `msgs`, in order. */
  function Acks(msgs: seq<Message>): seq<Md5> {
    if msgs == [] then [] else (if msgs[0].TransferBlockAck? then [msgs[0].md5] else []) + Acks(msgs[1..])
  }

  function Completions(msgs: seq<Message>): nat {
    if msgs == [] then 0 else (if msgs[0].TransferAllBlocks? then 1 else 0) + Completions(msgs[1..])
  }

  lemma {:induction false} AcksAppend(a: seq<Message>, b: seq<Message>)
    ensures Acks(a + b) == Acks(a) + Acks(b)
  {
    if a == [] {
      assert a + b == b;
    } else {
      assert (a + b)[0] == a[0] && (a + b)[1..] == a[1..] + b;
      AcksAppend(a[1..], b);
    }
  }

  lemma {:induction false} CompletionsAppend(a: seq<Message>, b: seq<Message>)
    ensures Completions(a + b) == Completions(a) + Completions(b)
  {
    if a == [] {
      assert a + b == b;
    } else {
      assert (a + b)[0] == a[0] && (a + b)[1..] == a[1..] + b;
      CompletionsAppend(a[1..], b);
    }
  }

  lemma {:induction false} NoCompletions(msgs: seq<Message>)
    requires TransferAllBlocks !in msgs
    ensures Completions(msgs) == 0
  {
    if msgs != [] {
      assert msgs[0] in msgs;
      NoCompletions(msgs[1..]);
    }
  }

  lemma OneMessage(msg: Message)
    ensures Acks([msg]) == if msg.TransferBlockAck? then [msg.md5] else []
    ensures Completions([msg]) == if msg.TransferAllBlocks? then 1 else 0
  {
    assert [msg][1..] == [];
  }

  // ----- Steps that do not handle a message of the flow -----

  /** The flow's end has got `more` from the proxy, and its context is as it was if it is still there. */
  ghost predicate Extended(st: System, st': System, f: FlowId, more: seq<Message>) {
    && f in st.clients && f in st'.clients && st'.clients[f] == st.clients[f].(inq := st.clients[f].inq + more)
    && TransferAllBlocks !in more
    && (f in st'.proxy.clients ==> f in st.proxy.clients && st'.proxy.clients[f] == st.proxy.clients[f])
  }

  lemma UnmailedClient(st: System, r: ProxyResult, f: FlowId)
    requires f in st.clients && Mail(r.toClients, f) == []
    ensures AfterProxy(st, r).clients[f] == st.clients[f]
  {
    assert st.clients[f].inq + [] == st.clients[f].inq;
  }

  lemma SameExtended(st: System, st': System, f: FlowId)
    requires f in st.clients && f in st'.clients && st'.clients[f] == st.clients[f] && SameProxy(st.proxy, st'.proxy, f)
    ensures Extended(st, st', f, [])
  {
    assert st.clients[f].inq + [] == st.clients[f].inq;
  }

  lemma FromOtherExtends(h: Hash, st: System, g: FlowId, pick: ServerId, f: FlowId)
    requires Inv(h, st) && Enabled(h, st, ProxyReceivesFromClient(g, pick)) && f in st.clients && f != g
    ensures Extended(st, FromClient(h, st, g, pick), f, [])
  {
    FromClientMoves(h, st, g, pick);
    var r :| FromClient(h, st, g, pick) == AfterProxy(PopFromClient(st, g), r) && ProxyMoves(st.proxy, r.proxy, g) && r.toClients.Keys <= {g};
    UnmailedClient(PopFromClient(st, g), r, f);
    SameExtended(st, AfterProxy(PopFromClient(st, g), r), f);
  }

  lemma CloseExtends(h: Hash, st: System, g: FlowId, f: FlowId)
    requires f in st.clients && g in st.proxy.clients
    ensures Extended(st, CloseClient(st, g), f, [])
  {
    var r := OnClientClose(st.proxy, g);
    UnmailedClient(st, r, f);
    assert st.clients[f].inq + [] == st.clients[f].inq;
  }

  lemma LeftExtends(h: Hash, st: System, s: ServerId, order: seq<Md5>, f: FlowId)
    requires f in st.clients && Subs(st.proxy, f) == {} && s in st.servers && s in st.proxy.storages
    ensures Extended(st, CloseServer(st, s, order), f, [])
  {
    LeftOthers(st.proxy, s, order, f);
    UnmailedClient(st, OnServerClose(st.proxy, s, order), f);
    SameExtended(st, CloseServer(st, s, order), f);
  }

  ghost predicate ExtendedSomehow(st: System, st': System, f: FlowId) {
    exists more :: Extended(st, st', f, more)
  }

  lemma BlockSetExtends(st: System, s: ServerId, f: FlowId)
    requires f in st.clients && s in st.proxy.storages && s in st.servers && st.servers[s].outq != [] && st.servers[s].outq[0].TransferBlockSet?
    ensures ExtendedSomehow(st, AfterProxy(PopFromServer(st, s), LearnSet(st, s)), f)
  {
    UnmailedClient(PopFromServer(st, s), LearnSet(st, s), f);
    SameStorage(st.proxy, s, Learned(st.proxy.storages[s], st.servers[s].outq[0]), f);
    SameExtended(st, AfterProxy(PopFromServer(st, s), LearnSet(st, s)), f);
  }

  lemma AckedExtends(st: System, s: ServerId, m: Md5, f: FlowId)
    requires f in st.clients && Subs(st.proxy, f) == {} && s in st.proxy.storages && s in st.servers && st.servers[s].outq != []
    ensures ExtendedSomehow(st, AfterProxy(PopFromServer(st, s), Acked(st.proxy, s, m)), f)
  {
    AckedOthers(st.proxy, s, m, f);
    UnmailedClient(PopFromServer(st, s), Acked(st.proxy, s, m), f);
    SameExtended(st, AfterProxy(PopFromServer(st, s), Acked(st.proxy, s, m)), f);
  }

  lemma ForwardExtends(st: System, s: ServerId, f: FlowId)
    requires f in st.clients && s in st.proxy.storages && s in st.servers && st.servers[s].outq != [] && st.servers[s].outq[0].TransferBlock?
    ensures ExtendedSomehow(st, AfterProxy(PopFromServer(st, s), Forward(st, s)), f)
  {
    assert Extended(st, AfterProxy(PopFromServer(st, s), Forward(st, s)), f, Mail(Forward(st, s).toClients, f));
  }

  lemma ServedExtends(h: Hash, st: System, s: ServerId, order: seq<Md5>, f: FlowId)
    requires ServersOk(h, st) && IsDownloader(st, f) && Subs(st.proxy, f) == {}
    requires s in st.proxy.storages && s in st.servers && st.servers[s].outq != []
    ensures ExtendedSomehow(st, FromServer(st, s, order), f)
  {
    var msg := st.servers[s].outq[0];
    ServerSends(h, st, s);
    ServerOutcome(st.proxy, s, msg);
    if OnServerMessage(st.proxy, s, msg).outcome == Close {
      LeftExtends(h, st, s, order, f);
    } else if msg.TransferBlockSet? {
      BlockSetIs(st.proxy, s, msg);
      BlockSetExtends(st, s, f);
    } else if msg.UploadBlockAck? {
      AckIs(st.proxy, s, msg.md5);
      AckedExtends(st, s, msg.md5, f);
    } else {
      TransferBlockIs(st, s);
      ForwardExtends(st, s, f);
    }
  }

  lemma ProxyStepExtends(h: Hash, st: System, act: Action, f: FlowId)
    requires Inv(h, st) && Enabled(h, st, act) && IsProxyStep(act) && IsDownloader(st, f)
    requires !(act.ProxyReceivesFromClient? && act.flow == f)
    ensures ExtendedSomehow(st, Apply(h, st, act), f)
  {
    assert Subs(st.proxy, f) == {} by {
      assert ClientOk(h, st, f);
    }
    match act
    case ProxyReceivesFromClient(g, pick) => FromOtherExtends(h, st, g, pick, f);
    case ProxyReceivesFromServer(s, order) => ServedExtends(h, st, s, order, f);
    case ProxyClosesClient(g) => CloseExtends(h, st, g, f);
    case ProxyClosesServer(s, order) => LeftExtends(h, st, s, order, f);
  }

  // ----- How far the download is -----

  /** The client has been told that all blocks are transferred, or will read it next. */
  predicate ToldAll(e: ClientEnd)
    requires e.party.Downloader?
  {
    e.party.downloader.phase == DM.Done || TransferAllBlocks in e.inq
  }

  /** How the acknowledgements handled and the completions sent fit the state of the flow. */
  ghost predicate Counted(st: System, f: FlowId, acks: seq<Md5>, completions: nat)
    requires IsDownloader(st, f)
  {
    && (st.clients[f].open ==> DownloaderOf(st, f).phase == DM.Receiving)
    && completions == (if ToldAll(st.clients[f]) then 1 else 0)
    && (ToldAll(st.clients[f]) ==> DownloaderOf(st, f).id in st.proxy.ids && acks == st.proxy.ids[DownloaderOf(st, f).id])
    && (f in st.proxy.clients ==>
          var c := st.proxy.clients[f];
          match c.phase
          case Init => acks == []
          case WaitingTransferBlock => c.index <= |c.needed| && acks == c.needed[..c.index] && !ToldAll(st.clients[f])
          case HaveTransferedAllBlocks => ToldAll(st.clients[f])
          case _ => false)
  }

  lemma ExtendedCounted(st: System, st': System, f: FlowId, more: seq<Message>, acks: seq<Md5>, n: nat)
    requires IsDownloader(st, f) && Counted(st, f, acks, n) && Extended(st, st', f, more)
    requires forall id :: id in st.proxy.ids ==> id in st'.proxy.ids && st'.proxy.ids[id] == st.proxy.ids[id]
    ensures Counted(st', f, acks, n)
  {
  }

  /** The client's first message, which makes no acknowledgement. */
  lemma RequestCounted(h: Hash, st: System, f: FlowId, pick: ServerId, n: nat)
    requires IsDownloader(st, f) && DownloaderOk(st, f) && f in st.proxy.clients && st.proxy.clients[f].phase == Init && st.clients[f].outq != []
    requires PickOk(st.proxy, f, st.clients[f].outq[0], pick) && OnClientMessage(h, st.proxy, f, st.clients[f].outq[0], pick).outcome == Ok
    requires Counted(st, f, [], n)
    ensures Counted(FromClient(h, st, f, pick), f, [], n)
  {
    DownloadRequestIs(h, st, f, pick);
    DownloaderSends(st, f);
  }

  lemma AckCounted(h: Hash, st: System, f: FlowId, pick: ServerId, acks: seq<Md5>, n: nat)
    requires IsDownloader(st, f) && DownloaderOk(st, f) && f in st.proxy.clients && st.proxy.clients[f].phase == WaitingTransferBlock
    requires st.clients[f].outq != [] && PickOk(st.proxy, f, st.clients[f].outq[0], pick)
    requires OnClientMessage(h, st.proxy, f, st.clients[f].outq[0], pick).outcome == Ok && Counted(st, f, acks, n)
    ensures
      var st', c := FromClient(h, st, f, pick), st.proxy.clients[f];
      c.index < |c.needed| && Counted(st', f, acks + [c.needed[c.index]], if c.index + 1 == |c.needed| then 1 else 0)
  {
    var c := st.proxy.clients[f];
    TransferBlockAckIs(h, st, f, pick);
    AckSent(st, f);
    assert c.needed[..c.index] + [c.needed[c.index]] == c.needed[..c.index + 1];
    if c.index + 1 == |c.needed| {
      assert c.needed[..c.index + 1] == c.needed;
      LastCounted(st, f, acks, n);
    } else {
      NextCounted(st, f, RequestNext(st, f, c.(index := c.index + 1), pick), acks, n);
    }
  }

  lemma LastCounted(st: System, f: FlowId, acks: seq<Md5>, n: nat)
    requires IsDownloader(st, f) && f in st.proxy.clients && st.clients[f].outq != [] && Counted(st, f, acks, n)
    requires DownloaderOf(st, f).id in st.proxy.ids
    ensures Counted(AfterProxy(PopFromClient(st, f), AllTransfered(st, f)), f, st.proxy.ids[DownloaderOf(st, f).id], 1)
  {
    var e := AfterProxy(PopFromClient(st, f), AllTransfered(st, f)).clients[f];
    assert e.inq == st.clients[f].inq + [TransferAllBlocks];
    assert e.inq[|e.inq| - 1] == TransferAllBlocks;
  }

  lemma NextCounted(st: System, f: FlowId, r: ProxyResult, acks: seq<Md5>, n: nat)
    requires IsDownloader(st, f) && f in st.proxy.clients && st.clients[f].outq != [] && Counted(st, f, acks, n)
    requires st.proxy.clients[f].phase == WaitingTransferBlock && st.proxy.clients[f].index < |st.proxy.clients[f].needed|
    requires
      var c := st.proxy.clients[f];
      r.proxy == SetClient(st.proxy, f, c.(index := c.index + 1)) && r.toClients == map[]
    ensures Counted(AfterProxy(PopFromClient(st, f), r), f, st.proxy.clients[f].needed[..st.proxy.clients[f].index + 1], 0)
  {
    assert st.clients[f].inq + [] == st.clients[f].inq;
  }

  lemma ExtendedSends(st: System, act: Action, st': System, f: FlowId, more: seq<Message>)
    requires Extended(st, st', f, more) && IsProxyStep(act)
    ensures Completions(Sending(st, act, st', f)) == 0
  {
    assert st'.clients[f].inq[|st.clients[f].inq|..] == more;
    NoCompletions(more);
  }

  /** A message of the downloading client is handled. */
  lemma HandledCounted(h: Hash, st: System, f: FlowId, pick: ServerId, acks: seq<Md5>, n: nat)
    requires IsDownloader(st, f) && DownloaderOk(st, f) && Enabled(h, st, ProxyReceivesFromClient(f, pick)) && Counted(st, f, acks, n)
    ensures
      CountedOn(st, ProxyReceivesFromClient(f, pick), FromClient(h, st, f, pick), f, acks, n)
  {
    var act, st' := ProxyReceivesFromClient(f, pick), FromClient(h, st, f, pick);
    var r := OnClientMessage(h, st.proxy, f, st.clients[f].outq[0], pick);
    OneMessage(st.clients[f].outq[0]);
    DownloaderSends(st, f);
    FromDownloaderIs(h, st, f, pick);
    if r.outcome == Close {
      DroppedCounted(h, st, f, pick, acks, n);
    } else if st.proxy.clients[f].phase == Init {
      RequestCounted(h, st, f, pick, n);
      RequestSends(h, st, f, pick);
      assert acks + [] == acks;
    } else {
      AckCounted(h, st, f, pick, acks, n);
      AckSends(h, st, f, pick);
    }
  }

  /** The proxy closes the session: a block is indexed nowhere. */
  lemma DroppedCounted(h: Hash, st: System, f: FlowId, pick: ServerId, acks: seq<Md5>, n: nat)
    requires IsDownloader(st, f) && f in st.proxy.clients && st.clients[f].outq != [] && Counted(st, f, acks, n)
    requires !ToldAll(st.clients[f]) && OnClientMessage(h, st.proxy, f, st.clients[f].outq[0], pick).outcome == Close
    requires exists c :: OnClientMessage(h, st.proxy, f, st.clients[f].outq[0], pick) == Silent(SetClient(st.proxy, f, c), Close)
    ensures
      var act, st' := ProxyReceivesFromClient(f, pick), FromClient(h, st, f, pick);
      IsDownloader(st', f) && (forall more :: Counted(st', f, more, n)) && Completions(Sending(st, act, st', f)) == 0
  {
    var st', e := FromClient(h, st, f, pick), st.clients[f];
    assert st'.clients[f] == e.(outq := e.outq[1..]) by {
      assert e.inq + [] + [] == e.inq;
    }
    assert st'.clients[f].inq[|e.inq|..] == [];
  }

  lemma RequestSends(h: Hash, st: System, f: FlowId, pick: ServerId)
    requires IsDownloader(st, f) && DownloaderOk(st, f) && f in st.proxy.clients && st.proxy.clients[f].phase == Init && st.clients[f].outq != []
    requires PickOk(st.proxy, f, st.clients[f].outq[0], pick) && OnClientMessage(h, st.proxy, f, st.clients[f].outq[0], pick).outcome == Ok
    ensures Completions(Sending(st, ProxyReceivesFromClient(f, pick), FromClient(h, st, f, pick), f)) == 0
  {
    DownloadRequestIs(h, st, f, pick);
    DownloaderSends(st, f);
    var r := OnClientMessage(h, st.proxy, f, st.clients[f].outq[0], pick);
    assert FromClient(h, st, f, pick).clients[f].inq == Mail(r.toClients, f);
    NoCompletions(Mail(r.toClients, f));
  }

  lemma AckSends(h: Hash, st: System, f: FlowId, pick: ServerId)
    requires IsDownloader(st, f) && DownloaderOk(st, f) && f in st.proxy.clients && st.proxy.clients[f].phase == WaitingTransferBlock
    requires st.clients[f].outq != [] && PickOk(st.proxy, f, st.clients[f].outq[0], pick)
    requires OnClientMessage(h, st.proxy, f, st.clients[f].outq[0], pick).outcome == Ok
    ensures
      var c := st.proxy.clients[f];
      && Completions(Sending(st, ProxyReceivesFromClient(f, pick), FromClient(h, st, f, pick), f)) == (if c.index + 1 == |c.needed| then 1 else 0)
      && c.index < |c.needed| && st.clients[f].outq[0] == TransferBlockAck(c.needed[c.index])
  {
    TransferBlockAckIs(h, st, f, pick);
    DownloaderSends(st, f);
    var r := OnClientMessage(h, st.proxy, f, st.clients[f].outq[0], pick);
    assert FromClient(h, st, f, pick).clients[f].inq == Mail(r.toClients, f);
    OneMessage(TransferAllBlocks);
  }

  /** The client's own steps. */
  lemma ReceivedCounted(h: Hash, st: System, f: FlowId, acks: seq<Md5>, n: nat)
    requires IsDownloader(st, f) && DownloaderOk(st, f) && st.clients[f].open && st.clients[f].inq != [] && Counted(st, f, acks, n)
    ensures
      var st' := WithClient(st, f, ClientReceive(st.clients[f]));
      IsDownloader(st', f) && Counted(st', f, acks, n)
  {
    var e := st.clients[f];
    assert e.inq == [e.inq[0]] + e.inq[1..];
    if f in st.proxy.clients && e.inq[0].TransferAllBlocks? {
      DownloaderMayLeave(st, f);
    }
  }

  lemma EndStepClient(h: Hash, st: System, act: Action, f: FlowId)
    requires FlowsOk(h, st) && Enabled(h, st, act) && !IsProxyStep(act) && f in st.clients
    ensures
      var st' := Apply(h, st, act);
      && f in st'.clients
      && st'.clients[f] ==
           (if act == ClientReceives(f) then ClientReceive(st.clients[f])
            else if act == ClientWriteComplete(f) then ClientWritten(st.clients[f])
            else if act == ClientCloses(f) then Shut(st.clients[f])
            else st.clients[f])
      && st'.proxy.ids == st.proxy.ids
      && (f in st'.proxy.clients <==> f in st.proxy.clients)
      && (f in st.proxy.clients ==> st'.proxy.clients[f] == st.proxy.clients[f])
  {
    KnownFlow(h, st, f);
  }

  lemma EndStepCounted(h: Hash, st: System, act: Action, f: FlowId, acks: seq<Md5>, n: nat)
    requires FlowsOk(h, st) && Enabled(h, st, act) && !IsProxyStep(act) && IsDownloader(st, f) && DownloaderOk(st, f) && Counted(st, f, acks, n)
    ensures CountedOn(st, act, Apply(h, st, act), f, acks, n)
  {
    assert acks + [] == acks;
    EndStepClient(h, st, act, f);
    if act == ClientReceives(f) {
      ReceivedCounted(h, st, f, acks, n);
    }
  }

  lemma StepCounted(h: Hash, st: System, act: Action, f: FlowId, acks: seq<Md5>, n: nat)
    requires Inv(h, st) && Enabled(h, st, act) && IsDownloader(st, f) && Counted(st, f, acks, n)
    ensures CountedOn(st, act, Apply(h, st, act), f, acks, n)
  {
    assert ClientOk(h, st, f);
    if act.ProxyReceivesFromClient? && act.flow == f {
      HandledCounted(h, st, f, act.pick, acks, n);
    } else if IsProxyStep(act) {
      ProxyStepExtends(h, st, act, f);
      StepGrows(h, st, act);
      OtherStepCounted(st, act, Apply(h, st, act), f, acks, n);
    } else {
      EndStepCounted(h, st, act, f, acks, n);
    }
  }

  ghost predicate CountedOn(st: System, act: Action, st': System, f: FlowId, acks: seq<Md5>, n: nat) {
    IsDownloader(st', f) && Counted(st', f, acks + Acks(Taking(st, act, f)), n + Completions(Sending(st, act, st', f)))
  }

  lemma OtherStepCounted(st: System, act: Action, st': System, f: FlowId, acks: seq<Md5>, n: nat)
    requires IsDownloader(st, f) && Counted(st, f, acks, n) && IsProxyStep(act) && ExtendedSomehow(st, st', f) && Grown(st, st')
    requires !(act.ProxyReceivesFromClient? && act.flow == f)
    ensures CountedOn(st, act, st', f, acks, n)
  {
    assert acks + [] == acks;
    var more :| Extended(st, st', f, more);
    ExtendedCounted(st, st', f, more, acks, n);
    ExtendedSends(st, act, st', f, more);
  }

  // ----- Runs -----

  /** Clients stay what they are, and come with nothing handled or sent. */
  lemma StepClients(h: Hash, st: System, act: Action, f: FlowId)
    requires FlowsOk(h, st) && Enabled(h, st, act)
    ensures f in st.clients ==> f in Apply(h, st, act).clients && (IsDownloader(Apply(h, st, act), f) ==> IsDownloader(st, f))
    ensures f !in st.clients && IsDownloader(Apply(h, st, act), f) ==> Counted(Apply(h, st, act), f, [], 0)
  {
    if IsProxyStep(act) {
      ProxyStepClients(h, st, act, f);
    } else if f in st.clients {
      EndStepClient(h, st, act, f);
    } else {
      NewCounted(h, st, act, f);
    }
  }

  lemma NewCounted(h: Hash, st: System, act: Action, f: FlowId)
    requires Enabled(h, st, act) && !IsProxyStep(act) && f !in st.clients
    ensures IsDownloader(Apply(h, st, act), f) ==> Counted(Apply(h, st, act), f, [], 0)
  {
    if act.ConnectDownloader? {
      assert NewDownloader(act.id).inq == [];
    }
  }

  lemma ProxyStepClients(h: Hash, st: System, act: Action, f: FlowId)
    requires Enabled(h, st, act) && IsProxyStep(act)
    ensures f in Apply(h, st, act).clients <==> f in st.clients
    ensures f in st.clients ==> Apply(h, st, act).clients[f].party == st.clients[f].party && Apply(h, st, act).clients[f].open == st.clients[f].open
  {
  }

  lemma {:induction false} RunCounted(h: Hash, run: seq<System>, acts: seq<Action>, f: FlowId, i: nat)
    requires IsRun(h, run, acts) && i < |run|
    ensures f !in run[i].clients ==> HandledFrom(run, acts, f, i) == [] && SentTo(run, acts, f, i) == []
    ensures IsDownloader(run[i], f) ==>
              Counted(run[i], f, Acks(HandledFrom(run, acts, f, i)), Completions(SentTo(run, acts, f, i)))
    decreases i
  {
    if i > 0 {
      var st, act := run[i - 1], acts[i - 1];
      RunCounted(h, run, acts, f, i - 1);
      RunKeeps(h, run, acts, i - 1);
      StepClients(h, st, act, f);
      if IsDownloader(run[i - 1], f) {
        var before, sent := HandledFrom(run, acts, f, i - 1), SentTo(run, acts, f, i - 1);
        StepCounted(h, st, act, f, Acks(before), Completions(sent));
        AcksAppend(before, Taking(st, act, f));
        CompletionsAppend(sent, Sending(st, act, run[i], f));
      }
    }
  }

  /** In every run and for every download: while it goes on, the acknowledgements that the proxy has handled name
      exactly the blocks before the current one, in list order; the proxy sends transfer_all_blocks at most once, after one
      acknowledgement of every block of the list in order; and it has sent it exactly when it takes the download for
      finished. */
  lemma DownloadCounts(h: Hash, run: seq<System>, acts: seq<Action>, f: FlowId, i: nat)
    requires IsRun(h, run, acts) && i < |run| && IsDownloader(run[i], f)
    ensures
      var acks, completions := Acks(HandledFrom(run, acts, f, i)), Completions(SentTo(run, acts, f, i));
      var st := run[i];
      && completions <= 1
      && (completions == 1 ==> DownloaderOf(st, f).id in st.proxy.ids && acks == st.proxy.ids[DownloaderOf(st, f).id])
      && (DownloaderOf(st, f).phase == DM.Done ==> completions == 1)
      && (f in st.proxy.clients ==>
            var c := st.proxy.clients[f];
            && (c.phase == HaveTransferedAllBlocks <==> completions == 1)
            && (c.phase == WaitingTransferBlock ==> c.index < |c.needed| && acks == c.needed[..c.index])
            && (c.phase == Init ==> acks == []))
  {
    RunCounted(h, run, acts, f, i);
    RunKeeps(h, run, acts, i);
    assert DownloaderOk(run[i], f) by {
      assert ClientOk(h, run[i], f);
    }
  }
}
