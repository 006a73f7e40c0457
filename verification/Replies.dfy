/** Which replies to a block an uploading client gets, and when: exactly the acknowledgements of its server, and failures only
    from a server that is dropped. */
module Replies {
  import opened Types
  import SM = ServerModel
  import AM = AgentModel
  import opened ProxyModel
  import opened SystemModel
  import opened Invariant
  import opened Frames
  import opened ProxySteps
  import opened ServerHandlers
  import opened VoteHandlers
  import opened Runs
  import opened Safety
  import opened EndToEnd
  import opened OverlookedReplies
  import opened DownloadHistory

  /** A server's acknowledgement of block `m` is passed on to exactly the connected clients that wait for `m` at this
      server. Each of them gets it as its only message, and no longer waits; nobody else gets anything. */
  lemma AckPassedOn(h: Hash, st: System, s: ServerId, order: seq<Md5>, m: Md5, f: FlowId)
    requires Reachable(h, st) && s in st.proxy.storages && s in st.servers && st.proxy.storages[s].phase == Working
    requires st.servers[s].outq != [] && st.servers[s].outq[0] == UploadBlockAck(m) && f in st.clients
    ensures
      var st' := FromServer(st, s, order);
      && f in st'.clients
      && (f in st.proxy.clients && (s, m) in Subs(st.proxy, f) ==>
            st.clients[f].inq == [] && st'.clients[f] == st.clients[f].(inq := [UploadBlockAck(m)])
            && f in st'.proxy.clients && Subs(st'.proxy, f) == {})
      && (!(f in st.proxy.clients && (s, m) in Subs(st.proxy, f)) ==> st'.clients[f] == st.clients[f])
  {
    AckIs(st.proxy, s, m);
    if f in st.proxy.clients && (s, m) in Subs(st.proxy, f) {
      ReachableInv(h, st);
      PendingOwner(h, st, s, m, f);
      AckedFires(st.proxy, s, m, f);
      FiredReply(h, st, PopFromServer(st, s), s, f, Acked(st.proxy, s, m), m, true);
    } else {
      AckedOthers(st.proxy, s, m, f);
      UnmailedClient(PopFromServer(st, s), Acked(st.proxy, s, m), f);
    }
  }

  /** A callback that fires sends its client one reply, which it gets as its only message. */
  lemma FiredReply(h: Hash, st: System, st1: System, s: ServerId, f: FlowId, r: ProxyResult, m: Md5, succ: bool)
    requires IsUploader(st, f) && UploaderOk(h, st, f) && (s, m) in Subs(st.proxy, f) && Fired(st.proxy, r, f, m, succ)
    requires f in st1.clients && st1.clients[f] == st.clients[f]
    ensures
      var reply := if succ then UploadBlockAck(m) else UploadBlockFail(m);
      st.clients[f].inq == [] && AfterProxy(st1, r).clients[f] == st.clients[f].(inq := [reply])
  {
    var at :| UploaderAt(h, st, f, at);
    PendingToken(h, st.clients[f], AgentOf(st, f), st.proxy.clients[f], Subs(st.proxy, f), (s, m));
    assert Mail(r.toClients, f) == [if succ then UploadBlockAck(m) else UploadBlockFail(m)];
  }

  /** A failure that a working server sends would be passed on as a failure; whatever the state of the proxy, a client that waits
      for one block there and has had no vote for it gets just this. */
  lemma FailurePassedOn(p: Proxy, s: ServerId, m: Md5, f: FlowId)
    requires s in p.storages && p.storages[s].phase == Working && f in p.clients
    requires Subs(p, f) == {(s, m)} && SubsOnce(p, f) && p.clients[f].succ == 0 && p.clients[f].fail == 0
    ensures
      var r := OnServerMessage(p, s, UploadBlockFail(m));
      && r.outcome == Ok && Mail(r.toClients, f) == [UploadBlockFail(m)]
      && s in r.proxy.storages && r.proxy.storages[s].md5s == p.storages[s].md5s && Subs(r.proxy, f) == {}
  {
    var votes := VotesAt(p.storages[s], m);
    assert (s, m) in Subs(p, f);
    VotesAtHas(p.storages[s], m, f);
    var k :| 0 <= k < |votes| && votes[k].flow == f;
    CastVotesEffect(Ballot(p.clients, map[]), votes, false, f, k);
    assert forall x :: x in Subs(OnServerMessage(p, s, UploadBlockFail(m)).proxy, f) <==> x in Subs(p, f) && x != (s, m);
  }

  // ----- Where replies come from -----

  predicate IsReply(msg: Message) {
    msg.UploadBlockAck? || msg.UploadBlockFail?
  }

  lemma NoReplyToClients(h: Hash, p: Proxy, f: FlowId, msg: Message, pick: ServerId)
    requires f in p.clients
    ensures forall g: FlowId, x :: x in Mail(OnClientMessage(h, p, f, msg, pick).toClients, g) ==> !IsReply(x)
  {
  }

  lemma FromClientReplies(h: Hash, st: System, g: FlowId, pick: ServerId, f: FlowId, x: Message)
    requires g in st.proxy.clients && g in st.clients && st.clients[g].outq != [] && f in st.clients && IsReply(x)
    ensures f in FromClient(h, st, g, pick).clients
    ensures x in FromClient(h, st, g, pick).clients[f].inq ==> x in st.clients[f].inq
  {
    var r := OnClientMessage(h, st.proxy, g, st.clients[g].outq[0], pick);
    var st1 := AfterProxy(PopFromClient(st, g), r);
    NoReplyToClients(h, st.proxy, g, st.clients[g].outq[0], pick);
    assert st1.clients[f].inq == st.clients[f].inq + Mail(r.toClients, f);
    if r.outcome == Close {
      UnmailedClient(st1, OnClientClose(st1.proxy, g), f);
    }
  }

  /** What a reply that is new in the channel to `f` tells of the step. */
  ghost predicate ReplyFrom(st: System, act: Action, st': System, f: FlowId, x: Message) {
    && f in st.proxy.clients
    && match x
       case UploadBlockAck(m) =>
         act.ProxyReceivesFromServer? && act.server in st.servers && st.servers[act.server].outq != []
         && st.servers[act.server].outq[0] == x && (act.server, m) in Subs(st.proxy, f)
       case UploadBlockFail(m) =>
         exists s :: s in st.proxy.storages && s !in st'.proxy.storages && (s, m) in Subs(st.proxy, f)
       case _ => true
  }

  /** If the flow waits for `m` at `s`, that is all it waits for. */
  ghost predicate WaitsOnlyFor(h: Hash, st: System, s: ServerId, m: Md5, f: FlowId) {
    f in st.proxy.clients && (s, m) in Subs(st.proxy, f) ==>
      IsUploader(st, f) && UploaderOk(h, st, f) && SubsOnce(st.proxy, f) && Subs(st.proxy, f) == {(s, m)}
  }

  lemma WaitsForOne(h: Hash, st: System, s: ServerId, m: Md5, f: FlowId)
    requires Inv(h, st)
    ensures WaitsOnlyFor(h, st, s, m, f)
  {
    if f in st.proxy.clients && (s, m) in Subs(st.proxy, f) {
      PendingOwner(h, st, s, m, f);
    }
  }

  lemma LeftReplies(h: Hash, st: System, act: Action, s: ServerId, order: seq<Md5>, f: FlowId, x: Message)
    requires s in st.proxy.storages && s in st.servers && Enumerates(order, st.proxy.storages[s].subs.Keys)
    requires forall m :: WaitsOnlyFor(h, st, s, m, f)
    requires f in st.clients && IsReply(x) && x !in st.clients[f].inq
    ensures f in CloseServer(st, s, order).clients
    ensures x in CloseServer(st, s, order).clients[f].inq ==> ReplyFrom(st, act, CloseServer(st, s, order), f, x)
  {
    var r := OnServerClose(st.proxy, s, order);
    if PendingAt(st.proxy, s, f) && f in st.proxy.clients {
      var m :| (s, m) in Subs(st.proxy, f);
      assert WaitsOnlyFor(h, st, s, m, f);
      LeftFires(st.proxy, s, order, f, m);
      FiredReply(h, st, st, s, f, r, m, false);
      assert s !in r.proxy.storages;
    } else {
      LeftOthers(st.proxy, s, order, f);
      UnmailedClient(st, r, f);
    }
  }

  lemma AckReplies(h: Hash, st: System, s: ServerId, order: seq<Md5>, m: Md5, f: FlowId, x: Message)
    requires WaitsOnlyFor(h, st, s, m, f)
    requires s in st.proxy.storages && s in st.servers && st.servers[s].outq != [] && st.servers[s].outq[0] == UploadBlockAck(m)
    requires f in st.clients && IsReply(x) && x !in st.clients[f].inq
    ensures
      var st' := AfterProxy(PopFromServer(st, s), Acked(st.proxy, s, m));
      f in st'.clients && (x in st'.clients[f].inq ==> ReplyFrom(st, ProxyReceivesFromServer(s, order), st', f, x))
  {
    var r := Acked(st.proxy, s, m);
    if f in st.proxy.clients && (s, m) in Subs(st.proxy, f) {
      AckedFires(st.proxy, s, m, f);
      FiredReply(h, st, PopFromServer(st, s), s, f, r, m, true);
    } else {
      AckedOthers(st.proxy, s, m, f);
      UnmailedClient(PopFromServer(st, s), r, f);
    }
  }

  /** What follows for `f` and the reply `x` from a message of server `s`. */
  ghost predicate RepliesOk(st: System, s: ServerId, order: seq<Md5>, f: FlowId, x: Message)
    requires s in st.proxy.storages && s in st.servers && st.servers[s].outq != []
  {
    var st' := FromServer(st, s, order);
    f in st'.clients && (x in st'.clients[f].inq ==> ReplyFrom(st, ProxyReceivesFromServer(s, order), st', f, x))
  }

  lemma DropReplies(h: Hash, st: System, s: ServerId, order: seq<Md5>, f: FlowId, x: Message)
    requires s in st.proxy.storages && s in st.servers && st.servers[s].outq != []
    requires forall m :: WaitsOnlyFor(h, st, s, m, f)
    requires OnServerMessage(st.proxy, s, st.servers[s].outq[0]).outcome == Close
    requires Enumerates(order, st.proxy.storages[s].subs.Keys) && f in st.clients && IsReply(x) && x !in st.clients[f].inq
    ensures RepliesOk(st, s, order, f, x)
  {
    LeftReplies(h, st, ProxyReceivesFromServer(s, order), s, order, f, x);
  }

  lemma TakenAckReplies(h: Hash, st: System, s: ServerId, order: seq<Md5>, m: Md5, f: FlowId, x: Message)
    requires WaitsOnlyFor(h, st, s, m, f) && s in st.proxy.storages && s in st.servers && st.servers[s].outq != []
    requires st.servers[s].outq[0] == UploadBlockAck(m) && st.proxy.storages[s].phase == Working
    requires f in st.clients && IsReply(x) && x !in st.clients[f].inq
    ensures RepliesOk(st, s, order, f, x)
  {
    AckIs(st.proxy, s, m);
    AckReplies(h, st, s, order, m, f, x);
  }

  lemma FromServerReplies(h: Hash, st: System, s: ServerId, order: seq<Md5>, f: FlowId, x: Message)
    requires ServersOk(h, st) && s in st.proxy.storages && s in st.servers && st.servers[s].outq != []
    requires forall m :: WaitsOnlyFor(h, st, s, m, f)
    requires Enumerates(order, st.proxy.storages[s].subs.Keys) && f in st.clients && IsReply(x) && x !in st.clients[f].inq
    ensures RepliesOk(st, s, order, f, x)
  {
    ServerSends(h, st, s);
    ServerOutcome(st.proxy, s, st.servers[s].outq[0]);
    if OnServerMessage(st.proxy, s, st.servers[s].outq[0]).outcome == Close {
      DropReplies(h, st, s, order, f, x);
    } else if st.servers[s].outq[0].UploadBlockAck? {
      assert WaitsOnlyFor(h, st, s, st.servers[s].outq[0].md5, f);
      TakenAckReplies(h, st, s, order, st.servers[s].outq[0].md5, f, x);
    } else {
      QuietReplies(st, s, order, f, x);
    }
  }

  lemma QuietReplies(st: System, s: ServerId, order: seq<Md5>, f: FlowId, x: Message)
    requires s in st.proxy.storages && s in st.servers && st.servers[s].outq != []
    requires st.servers[s].outq[0].TransferBlockSet? || st.servers[s].outq[0].TransferBlock?
    requires OnServerMessage(st.proxy, s, st.servers[s].outq[0]).outcome == Ok
    requires f in st.clients && IsReply(x) && x !in st.clients[f].inq
    ensures f in FromServer(st, s, order).clients && x !in FromServer(st, s, order).clients[f].inq
  {
    var msg, st1 := st.servers[s].outq[0], PopFromServer(st, s);
    if msg.TransferBlockSet? {
      BlockSetIs(st.proxy, s, msg);
      UnmailedClient(st1, LearnSet(st, s), f);
    } else {
      TransferBlockIs(st, s);
      assert AfterProxy(st1, Forward(st, s)).clients[f].inq == st.clients[f].inq + Mail(Forward(st, s).toClients, f);
    }
  }

  lemma ProxyStepReplies(h: Hash, st: System, act: Action, f: FlowId, x: Message)
    requires Inv(h, st) && Enabled(h, st, act) && IsProxyStep(act) && f in st.clients && IsReply(x) && x !in st.clients[f].inq
    ensures f in Apply(h, st, act).clients
    ensures x in Apply(h, st, act).clients[f].inq ==> ReplyFrom(st, act, Apply(h, st, act), f, x)
  {
    match act
    case ProxyReceivesFromClient(g, pick) => FromClientReplies(h, st, g, pick, f, x);
    case ProxyReceivesFromServer(s, order) =>
      AllWait(h, st, s, f);
      FromServerReplies(h, st, s, order, f, x);
    case ProxyClosesClient(g) => UnmailedClient(st, OnClientClose(st.proxy, g), f);
    case ProxyClosesServer(s, order) =>
      AllWait(h, st, s, f);
      LeftReplies(h, st, act, s, order, f, x);
  }

  lemma AllWait(h: Hash, st: System, s: ServerId, f: FlowId)
    requires Inv(h, st)
    ensures forall m :: WaitsOnlyFor(h, st, s, m, f)
  {
    forall m ensures WaitsOnlyFor(h, st, s, m, f) {
      WaitsForOne(h, st, s, m, f);
    }
  }

  lemma EndStepReplies(h: Hash, st: System, act: Action, f: FlowId, x: Message)
    requires FlowsOk(h, st) && Enabled(h, st, act) && !IsProxyStep(act) && f in st.clients && x !in st.clients[f].inq
    ensures f in Apply(h, st, act).clients && x !in Apply(h, st, act).clients[f].inq
  {
    EndStepClient(h, st, act, f);
  }

  /** A reply is on its way to a client only if its block's callback has fired: an acknowledgement in a step that handles
      the acknowledgement of this block from the server where the client waits for it, and a failure only in a step that
      drops the server where the client waits. */
  lemma RepliesComeFrom(h: Hash, st: System, act: Action, f: FlowId, x: Message)
    requires Reachable(h, st) && Enabled(h, st, act) && f in st.clients && IsReply(x) && x !in st.clients[f].inq
    ensures f in Apply(h, st, act).clients
    ensures x in Apply(h, st, act).clients[f].inq ==> ReplyFrom(st, act, Apply(h, st, act), f, x)
  {
    ReachableInv(h, st);
    if IsProxyStep(act) {
      ProxyStepReplies(h, st, act, f, x);
    } else {
      EndStepReplies(h, st, act, f, x);
    }
  }
}
