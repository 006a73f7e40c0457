/** Acknowledged blocks and servers that leave: the handlers that fire pending callbacks keep the
    invariant. */
module VoteHandlers {
  import opened Types
  import opened FileBlocks
  import SM = ServerModel
  import AM = AgentModel
  import opened ProxyModel
  import opened SystemModel
  import opened ServerLinks
  import opened Invariant
  import opened Frames
  import opened ServerHandlers

  // ----- A flow whose pending callback has fired -----

  function Answer(m: Md5, succ: bool): Message {
    if succ then UploadBlockAck(m) else UploadBlockFail(m)
  }

  /** What firing the callback of flow `g` for `m` does to the proxy. */
  ghost predicate Fired(p: Proxy, r: ProxyResult, g: FlowId, m: Md5, succ: bool) {
    && g in p.clients && g in r.proxy.clients
    && (var c := p.clients[g];
        && r.proxy.clients[g] == (if succ then c.(succ := c.succ + 1) else c.(fail := c.fail + 1))
        && Mail(r.toClients, g) == if c.succ + c.fail > 0 then [] else [Answer(m, succ)])
    && Subs(r.proxy, g) == {} && SubsOnce(r.proxy, g)
  }

  /** A pending callback holds the token of the flow's current block. */
  lemma PendingToken(h: Hash, e: ClientEnd, a: AM.Agent, c: Client, subs: set<(ServerId, Md5)>, x: (ServerId, Md5))
    requires UploadPhase(h, e, a, Some(c), subs) && x in subs
    ensures a.phase == AM.UploadingBlocks || a.phase == AM.WaitingBlockAck
    ensures a.current < |a.upload| && x.1 == a.upload[a.current] && subs == {x}
    ensures c.phase == WaitingUploadBlock && c.relay != [] && c.succ == 0 && c.fail == 0
    ensures Token(e, a.upload[a.current], c, subs) && e.inq == [] && Firsts(e.outq) == 0
  {
    assert subs == {x} + (subs - {x});
    assert |subs| == 1 + |subs - {x}|;
  }

  lemma FiredPhase(h: Hash, e: ClientEnd, a: AM.Agent, c: Client, subs: set<(ServerId, Md5)>, x: (ServerId, Md5), succ: bool)
    requires UploadPhase(h, e, a, Some(c), subs) && x in subs
    ensures
      var c' := if succ then c.(succ := c.succ + 1) else c.(fail := c.fail + 1);
      UploadPhase(h, e.(inq := e.inq + [Answer(x.1, succ)]), a, Some(c'), {})
  {
    PendingToken(h, e, a, c, subs, x);
  }

  lemma ServedStreams(h: Hash, st: System, s: ServerId, st1: System, r: ProxyResult, g: FlowId, at: SM.Stream)
    requires ServedBy(st, s, st1, r) && IsUploader(st, g) && StreamsAt(h, st, g, at)
    requires g in st.proxy.clients && g in r.proxy.clients && r.proxy.clients[g].relay == st.proxy.clients[g].relay
    ensures StreamsAt(h, AfterProxy(st1, r), g, at)
  {
    var st' := AfterProxy(st1, r);
    forall t | t in st.servers ensures StreamThrough(h, st'.servers[t], g) == StreamThrough(h, st.servers[t], g) {
      ServedServers(st, s, st1, r, t);
      if st1.servers[s] != st.servers[s] {
        PopSameFor(h, st.servers[s], g);
      }
    }
  }

  lemma ServedPipes(h: Hash, st: System, s: ServerId, st1: System, r: ProxyResult, g: FlowId, t: ServerId)
    requires ServedBy(st, s, st1, r) && t in st.servers && Pipe(st.servers[t], g) == []
    ensures Pipe(AfterProxy(st1, r).servers[t], g) == []
  {
    ServedServers(st, s, st1, r, t);
    if st1.servers[s] != st.servers[s] {
      PopSameFor(h, st.servers[s], g);
    }
  }

  /** A reply tells of a stored block, or of none. */
  lemma RepliedHeld(h: Hash, st: System, st': System, g: FlowId, reply: Message)
    requires IsUploader(st, g) && BlocksHeld(h, st, g) && AgentOf(st, g).phase != AM.WaitingUploadResponse
    requires g in st'.clients && st'.clients[g] == st.clients[g].(inq := [reply]) && st'.proxy.ids == st.proxy.ids
    requires forall m :: Held(st, m) ==> Held(st', m)
    requires reply.UploadBlockFail? || (reply.UploadBlockAck? && Held(st, reply.md5))
    ensures BlocksHeld(h, st', g)
  {
  }

  lemma FiredHeld(h: Hash, st: System, s: ServerId, st1: System, r: ProxyResult, g: FlowId, reply: Message)
    requires ServedBy(st, s, st1, r) && IsUploader(st, g) && BlocksHeld(h, st, g)
    requires st.clients[g].inq == [] && AgentOf(st, g).phase != AM.WaitingUploadResponse
    requires Mail(r.toClients, g) == [reply]
    requires reply.UploadBlockFail? || (reply.UploadBlockAck? && Held(st, reply.md5))
    ensures BlocksHeld(h, AfterProxy(st1, r), g)
  {
    var st' := AfterProxy(st1, r);
    ServedGrown(st, s, st1, r);
    forall m | Held(st, m) ensures Held(st', m) {
      HeldGrows(st, st', m);
    }
    RepliedHeld(h, st, st', g, reply);
  }

  /** The callback answers with a reply for the block the flow is at, the only one it gets, and a
      success only if a server holds that block. */
  lemma FiredOk(h: Hash, st: System, s: ServerId, st1: System, r: ProxyResult, g: FlowId, m: Md5, succ: bool)
    requires ServedBy(st, s, st1, r) && IsUploader(st, g) && UploaderOk(h, st, g)
    requires Fired(st.proxy, r, g, m, succ) && (s, m) in Subs(st.proxy, g)
    requires succ ==> Held(st, m)
    ensures UploaderOk(h, AfterProxy(st1, r), g)
  {
    var st' := AfterProxy(st1, r);
    var e, a, c := st.clients[g], AgentOf(st, g), st.proxy.clients[g];
    var at :| UploaderAt(h, st, g, at);
    assert UploadPhase(h, st'.clients[g], a, Context(st', g), Subs(st'.proxy, g)) by {
      FiredPhase(h, e, a, c, Subs(st.proxy, g), (s, m), succ);
    }
    assert BlocksHeld(h, st', g) by {
      PendingToken(h, e, a, c, Subs(st.proxy, g), (s, m));
      FiredHeld(h, st, s, st1, r, g, Answer(m, succ));
    }
    assert StreamsAt(h, st', g, at) by {
      ServedStreams(h, st, s, st1, r, g, at);
    }
    forall t | t in st'.servers ensures Pipe(st'.servers[t], g) == [] {
      ServedServers(st, s, st1, r, t);
      ServedPipes(h, st, s, st1, r, g, t);
    }
    assert UploaderAt(h, st', g, at);
  }

  // ----- upload_block_ack -----

  function VotesAt(x: Storage, m: Md5): seq<Vote> {
    if m in x.subs then VotesOn(m, x.subs[m]) else []
  }

  /** The handling of a server's acknowledgement of `m`. */
  function Acked(p: Proxy, s: ServerId, m: Md5): ProxyResult
    requires s in p.storages
  {
    var x := p.storages[s];
    var b := CastVotes(Ballot(p.clients, map[]), VotesAt(x, m), true);
    ProxyResult(p.(clients := b.clients, storages := p.storages[s := Storage(x.phase, x.md5s + {m}, x.subs - {m})]),
                b.mail, map[], Ok)
  }

  lemma AckIs(p: Proxy, s: ServerId, m: Md5)
    requires s in p.storages && p.storages[s].phase == Working
    ensures OnServerMessage(p, s, UploadBlockAck(m)) == Acked(p, s, m)
  {
    var x := p.storages[s];
    if m !in x.subs {
      assert x.subs - {m} == x.subs;
    }
  }

  lemma VotesAtHas(x: Storage, m: Md5, g: FlowId)
    ensures Votes(VotesAt(x, m), g) <==> m in x.subs && g in x.subs[m]
  {
    if m in x.subs && g in x.subs[m] {
      var i :| 0 <= i < |x.subs[m]| && x.subs[m][i] == g;
      assert VotesAt(x, m)[i].flow == g;
    }
  }

  lemma AckedSubs(p: Proxy, s: ServerId, m: Md5, g: FlowId)
    requires s in p.storages
    ensures Subs(Acked(p, s, m).proxy, g) == Subs(p, g) - {(s, m)}
    ensures SubsOnce(p, g) ==> SubsOnce(Acked(p, s, m).proxy, g)
  {
    assert forall x :: x in Subs(Acked(p, s, m).proxy, g) <==> x in Subs(p, g) && x != (s, m);
  }

  lemma AckedOthers(p: Proxy, s: ServerId, m: Md5, g: FlowId)
    requires s in p.storages && ((s, m) !in Subs(p, g) || g !in p.clients)
    ensures SameProxy(p, Acked(p, s, m).proxy, g) && Mail(Acked(p, s, m).toClients, g) == []
  {
    AckedSubs(p, s, m, g);
    VotesAtHas(p.storages[s], m, g);
    CastVotesFrame(Ballot(p.clients, map[]), VotesAt(p.storages[s], m), true, g);
  }

  lemma AckedFires(p: Proxy, s: ServerId, m: Md5, g: FlowId)
    requires s in p.storages && Subs(p, g) == {(s, m)} && g in p.clients && SubsOnce(p, g)
    ensures Fired(p, Acked(p, s, m), g, m, true)
  {
    var votes := VotesAt(p.storages[s], m);
    AckedSubs(p, s, m, g);
    assert (s, m) in Subs(p, g);
    VotesAtHas(p.storages[s], m, g);
    var k :| 0 <= k < |votes| && votes[k].flow == g;
    CastVotesEffect(Ballot(p.clients, map[]), votes, true, g, k);
  }

  lemma AckedServed(st: System, s: ServerId, m: Md5)
    requires s in st.servers && s in st.proxy.storages && st.servers[s].outq != []
    ensures ServedBy(st, s, PopFromServer(st, s), Acked(st.proxy, s, m))
  {
  }

  lemma AckedIndex(h: Hash, e: ServerEnd, md5s: set<Md5>, m: Md5)
    requires ServerEndOk(h, e) && IndexOk(e, md5s) && e.outq != [] && e.outq[0] == UploadBlockAck(m)
    ensures IndexOk(Popped(e), md5s + {m}) && m in e.server.files
  {
    assert e.outq[0] in e.outq && FromServerOk(e, e.outq[0]);
    PopIndex(e, md5s, md5s + {m});
  }

  /** A pending callback belongs to an uploading client, and is its only one. */
  lemma PendingOwner(h: Hash, st: System, s: ServerId, m: Md5, g: FlowId)
    requires Inv(h, st) && (s, m) in Subs(st.proxy, g) && g in st.proxy.clients
    ensures IsUploader(st, g) && UploaderOk(h, st, g) && SubsOnce(st.proxy, g) && g < st.proxy.nextFlow
    ensures Subs(st.proxy, g) == {(s, m)}
  {
    KnownFlow(h, st, g);
    assert ClientOk(h, st, g);
    var at :| UploaderAt(h, st, g, at);
    PendingToken(h, st.clients[g], AgentOf(st, g), st.proxy.clients[g], Subs(st.proxy, g), (s, m));
  }

  lemma AckedFlow(h: Hash, st: System, s: ServerId, m: Md5, g: FlowId)
    requires Inv(h, st) && s in st.servers && s in st.proxy.storages
    requires st.servers[s].outq != [] && st.servers[s].outq[0] == UploadBlockAck(m)
    requires (s, m) in Subs(st.proxy, g) && g in st.proxy.clients
    ensures
      var st' := AfterProxy(PopFromServer(st, s), Acked(st.proxy, s, m));
      IsUploader(st', g) && UploaderOk(h, st', g) && g < st.proxy.nextFlow
  {
    PendingOwner(h, st, s, m, g);
    AckedFires(st.proxy, s, m, g);
    AckedIndex(h, st.servers[s], st.proxy.storages[s].md5s, m);
    AckedServed(st, s, m);
    FiredOk(h, st, s, PopFromServer(st, s), Acked(st.proxy, s, m), g, m, true);
  }

  lemma AckedOther(h: Hash, st: System, s: ServerId, m: Md5, g: FlowId)
    requires s in st.servers && s in st.proxy.storages
    requires st.servers[s].outq != [] && st.servers[s].outq[0] == UploadBlockAck(m)
    requires (s, m) !in Subs(st.proxy, g) || g !in st.proxy.clients
    ensures Untouched(h, st, AfterProxy(PopFromServer(st, s), Acked(st.proxy, s, m)), g)
  {
    AckedServed(st, s, m);
    AckedOthers(st.proxy, s, m, g);
    PopSameFor(h, st.servers[s], g);
    ServedUntouched(h, st, s, PopFromServer(st, s), Acked(st.proxy, s, m), g);
  }

  lemma AckedFlows(h: Hash, st: System, s: ServerId, m: Md5)
    requires Inv(h, st) && s in st.servers && s in st.proxy.storages
    requires st.servers[s].outq != [] && st.servers[s].outq[0] == UploadBlockAck(m)
    ensures
      var st' := AfterProxy(PopFromServer(st, s), Acked(st.proxy, s, m));
      FlowsOk(h, st') && forall f :: f in st'.clients ==> ClientOk(h, st', f)
  {
    var st' := AfterProxy(PopFromServer(st, s), Acked(st.proxy, s, m));
    forall g: FlowId
      ensures Untouched(h, st, st', g) || (g in st'.clients && g < st.proxy.nextFlow && ClientOk(h, st', g))
    {
      if (s, m) in Subs(st.proxy, g) && g in st.proxy.clients {
        AckedFlow(h, st, s, m, g);
      } else {
        AckedOther(h, st, s, m, g);
      }
    }
    FlowsKept(h, st, st');
  }

  lemma AckedKeeps(h: Hash, st: System, s: ServerId, m: Md5)
    requires Inv(h, st) && s in st.servers && s in st.proxy.storages
    requires st.servers[s].outq != [] && st.servers[s].outq[0] == UploadBlockAck(m)
    ensures Inv(h, AfterProxy(PopFromServer(st, s), Acked(st.proxy, s, m)))
  {
    var st' := AfterProxy(PopFromServer(st, s), Acked(st.proxy, s, m));
    assert ServersOk(h, st') && IdsOk(h, st') by {
      AckedServed(st, s, m);
      AckedIndex(h, st.servers[s], st.proxy.storages[s].md5s, m);
      ServedRest(h, st, s, PopFromServer(st, s), Acked(st.proxy, s, m));
    }
    AckedFlows(h, st, s, m);
  }

  // ----- Servers that leave -----

  lemma {:induction false} AllVotesHas(subs: map<Md5, seq<FlowId>>, order: seq<Md5>, g: FlowId)
    ensures Votes(AllVotes(subs, order), g) <==> exists m :: m in order && m in subs && g in subs[m]
  {
    if order != [] {
      var a := if order[0] in subs then VotesOn(order[0], subs[order[0]]) else [];
      var b := AllVotes(subs, order[1..]);
      AllVotesHas(subs, order[1..], g);
      VotesAtHas(Storage(Working, {}, subs), order[0], g);
      VotesAppend(a, b, g);
      assert forall m :: m in order <==> m == order[0] || m in order[1..];
    }
  }

  lemma VotesAppend(a: seq<Vote>, b: seq<Vote>, g: FlowId)
    ensures Votes(a + b, g) <==> Votes(a, g) || Votes(b, g)
    ensures VotesOnce(a, g) && VotesOnce(b, g) && !(Votes(a, g) && Votes(b, g)) ==> VotesOnce(a + b, g)
  {
    if Votes(b, g) {
      var i :| 0 <= i < |b| && b[i].flow == g;
      assert (a + b)[|a| + i].flow == g;
    }
    if Votes(a, g) {
      var i :| 0 <= i < |a| && a[i].flow == g;
      assert (a + b)[i].flow == g;
    }
    if VotesOnce(a, g) && VotesOnce(b, g) && !(Votes(a, g) && Votes(b, g)) {
      forall i, j | 0 <= i < j < |a + b| && (a + b)[i].flow == g ensures (a + b)[j].flow != g {
        if j < |a| {
          assert a[i].flow == g && a[j] == (a + b)[j];
        } else if i >= |a| {
          assert b[i - |a|].flow == g && b[j - |a|] == (a + b)[j];
        } else {
          assert a[i].flow == g && b[j - |a|] == (a + b)[j];
        }
      }
    }
  }

  /** A flow with one callback at the server votes once when all its callbacks fire. */
  lemma {:induction false} AllVotesOnce(subs: map<Md5, seq<FlowId>>, order: seq<Md5>, g: FlowId, m: Md5)
    requires m in subs && VotesOnce(VotesOn(m, subs[m]), g)
    requires forall m' :: m' in subs && g in subs[m'] ==> m' == m
    requires forall i, j :: 0 <= i < j < |order| ==> order[i] != order[j]
    ensures VotesOnce(AllVotes(subs, order), g)
    ensures forall k :: 0 <= k < |AllVotes(subs, order)| && AllVotes(subs, order)[k].flow == g ==> AllVotes(subs, order)[k].md5 == m
  {
    if order != [] {
      var a := if order[0] in subs then VotesOn(order[0], subs[order[0]]) else [];
      AllVotesOnce(subs, order[1..], g, m);
      AllVotesHas(subs, order[1..], g);
      VotesAtHas(Storage(Working, {}, subs), order[0], g);
      assert Votes(a, g) ==> order[0] == m && m !in order[1..];
      assert !Votes(a, g) ==> VotesOnce(a, g);
      VotesAppend(a, AllVotes(subs, order[1..]), g);
      forall k | 0 <= k < |a| && a[k].flow == g ensures a[k].md5 == m {
        assert Votes(a, g);
      }
    }
  }

  lemma LeftSubs(p: Proxy, s: ServerId, order: seq<Md5>, g: FlowId)
    requires s in p.storages
    ensures Subs(OnServerClose(p, s, order).proxy, g) == set x | x in Subs(p, g) && x.0 != s
    ensures SubsOnce(p, g) ==> SubsOnce(OnServerClose(p, s, order).proxy, g)
  {
    var p' := OnServerClose(p, s, order).proxy;
    assert forall x :: x in Subs(p', g) <==> x in Subs(p, g) && x.0 != s;
  }

  ghost predicate PendingAt(p: Proxy, s: ServerId, g: FlowId) {
    exists m :: (s, m) in Subs(p, g)
  }

  lemma LeftOthers(p: Proxy, s: ServerId, order: seq<Md5>, g: FlowId)
    requires s in p.storages && (!PendingAt(p, s, g) || g !in p.clients)
    ensures SameProxy(p, OnServerClose(p, s, order).proxy, g) && Mail(OnServerClose(p, s, order).toClients, g) == []
  {
    LeftSubs(p, s, order, g);
    AllVotesHas(p.storages[s].subs, order, g);
    if !PendingAt(p, s, g) {
      forall m | m in p.storages[s].subs ensures g !in p.storages[s].subs[m] {
        assert (s, m) !in Subs(p, g);
      }
    }
    CastVotesFrame(Ballot(p.clients, map[]), AllVotes(p.storages[s].subs, order), false, g);
  }

  lemma LeftFires(p: Proxy, s: ServerId, order: seq<Md5>, g: FlowId, m: Md5)
    requires s in p.storages && Enumerates(order, p.storages[s].subs.Keys)
    requires Subs(p, g) == {(s, m)} && g in p.clients && SubsOnce(p, g)
    ensures Fired(p, OnServerClose(p, s, order), g, m, false)
  {
    var subs := p.storages[s].subs;
    var votes := AllVotes(subs, order);
    LeftSubs(p, s, order, g);
    assert (s, m) in Subs(p, g);
    forall m' | m' in subs && g in subs[m'] ensures m' == m {
      assert (s, m') in Subs(p, g);
    }
    AllVotesHas(subs, order, g);
    assert VotesOnce(VotesOn(m, subs[m]), g);
    AllVotesOnce(subs, order, g, m);
    var k :| 0 <= k < |votes| && votes[k].flow == g;
    CastVotesEffect(Ballot(p.clients, map[]), votes, false, g, k);
  }

  lemma LeftServed(st: System, s: ServerId, order: seq<Md5>)
    requires s in st.servers && s in st.proxy.storages
    ensures ServedBy(st, s, st, OnServerClose(st.proxy, s, order)) && s !in OnServerClose(st.proxy, s, order).proxy.storages
  {
  }

  lemma LeftFlow(h: Hash, st: System, s: ServerId, order: seq<Md5>, g: FlowId)
    requires Inv(h, st) && s in st.servers && s in st.proxy.storages && Enumerates(order, st.proxy.storages[s].subs.Keys)
    requires ServedBy(st, s, st, OnServerClose(st.proxy, s, order))
    requires PendingAt(st.proxy, s, g) && g in st.proxy.clients
    ensures
      var st' := AfterProxy(st, OnServerClose(st.proxy, s, order));
      IsUploader(st', g) && UploaderOk(h, st', g) && g < st.proxy.nextFlow
  {
    var m :| (s, m) in Subs(st.proxy, g);
    PendingOwner(h, st, s, m, g);
    LeftFires(st.proxy, s, order, g, m);
    FiredOk(h, st, s, st, OnServerClose(st.proxy, s, order), g, m, false);
  }

  lemma LeftOther(h: Hash, st: System, s: ServerId, order: seq<Md5>, g: FlowId)
    requires s in st.proxy.storages
    requires ServedBy(st, s, st, OnServerClose(st.proxy, s, order))
    requires !PendingAt(st.proxy, s, g) || g !in st.proxy.clients
    ensures Untouched(h, st, AfterProxy(st, OnServerClose(st.proxy, s, order)), g)
  {
    LeftOthers(st.proxy, s, order, g);
    ServedUntouched(h, st, s, st, OnServerClose(st.proxy, s, order), g);
  }

  lemma LeftAny(h: Hash, st: System, s: ServerId, order: seq<Md5>, g: FlowId)
    requires Inv(h, st) && s in st.proxy.storages && Enumerates(order, st.proxy.storages[s].subs.Keys)
    requires ServedBy(st, s, st, OnServerClose(st.proxy, s, order))
    ensures
      var st' := AfterProxy(st, OnServerClose(st.proxy, s, order));
      Untouched(h, st, st', g) || (g in st'.clients && g < st.proxy.nextFlow && ClientOk(h, st', g))
  {
    if PendingAt(st.proxy, s, g) && g in st.proxy.clients {
      LeftFlow(h, st, s, order, g);
    } else {
      LeftOther(h, st, s, order, g);
    }
  }

  lemma LeftFlows(h: Hash, st: System, s: ServerId, order: seq<Md5>)
    requires Inv(h, st) && s in st.proxy.storages && Enumerates(order, st.proxy.storages[s].subs.Keys)
    requires ServedBy(st, s, st, OnServerClose(st.proxy, s, order))
    ensures
      var st' := AfterProxy(st, OnServerClose(st.proxy, s, order));
      FlowsOk(h, st') && forall f :: f in st'.clients ==> ClientOk(h, st', f)
  {
    var st' := AfterProxy(st, OnServerClose(st.proxy, s, order));
    forall g: FlowId
      ensures Untouched(h, st, st', g) || (g in st'.clients && g < st'.proxy.nextFlow && ClientOk(h, st', g))
    {
      LeftAny(h, st, s, order, g);
    }
    FlowsKept(h, st, st');
  }

  lemma LeftKeeps(h: Hash, st: System, s: ServerId, order: seq<Md5>)
    requires Inv(h, st) && s in st.servers && s in st.proxy.storages && Enumerates(order, st.proxy.storages[s].subs.Keys)
    ensures Inv(h, AfterProxy(st, OnServerClose(st.proxy, s, order)))
  {
    var st' := AfterProxy(st, OnServerClose(st.proxy, s, order));
    LeftServed(st, s, order);
    assert ServersOk(h, st') && IdsOk(h, st') by {
      ServedRest(h, st, s, st, OnServerClose(st.proxy, s, order));
    }
    LeftFlows(h, st, s, order);
  }
}
