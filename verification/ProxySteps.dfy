/** What the proxy's handlers have in common: who hears of them, and what they leave alone. */
module ProxySteps {
  import opened Types
  import SM = ServerModel
  import opened ProxyModel
  import opened SystemModel
  import opened ServerLinks
  import opened Invariant
  import opened Frames

  /** A message to a server on behalf of flow `f`. */
  predicate Concerns(msg: Message, f: FlowId) {
    (msg.UploadBlock? || msg.DownloadBlock? || msg.ClientClean?) && msg.flow == f
  }

  lemma SendToSameFor(h: Hash, e: ServerEnd, msg: Message, f: FlowId, g: FlowId)
    requires Concerns(msg, f) && g != f
    ensures SameFor(h, e, SendTo(e, msg), g)
  {
    SendToStream(h, e, msg, g);
    SendToPipe(e, msg, g);
    SM.AskedOne(e.server.files, msg, g);
    BusyAfterAppend(g in e.server.downloads, e.inq, msg, g);
  }

  /** What a server gets from a handler run for flow `f`: at most one message, on behalf of `f`, and
      one that it can take. */
  ghost predicate MailOk(h: Hash, e: ServerEnd, mail: seq<Message>, f: FlowId) {
    || mail == []
    || (&& |mail| == 1 && Concerns(mail[0], f) && ToServerOk(e, mail[0])
        && (mail[0].DownloadBlock? ==> Pipe(e, f) == [])
        && (mail[0].UploadBlock? ==> SM.Read(h, f, StreamThrough(h, e, f), mail[0]) != SM.Broken))
  }

  function Mailed(e: ServerEnd, mail: seq<Message>): ServerEnd {
    e.(inq := e.inq + mail)
  }

  lemma MailedIs(e: ServerEnd, mail: seq<Message>)
    requires |mail| <= 1
    ensures Mailed(e, mail) == if mail == [] then e else SendTo(e, mail[0])
  {
    if mail == [] {
      assert e.inq + mail == e.inq;
    } else {
      assert mail == [mail[0]];
    }
  }

  lemma MailedKeeps(h: Hash, e: ServerEnd, mail: seq<Message>, f: FlowId)
    requires ServerEndOk(h, e) && MailOk(h, e, mail, f)
    ensures ServerEndOk(h, Mailed(e, mail))
    ensures forall g: FlowId :: g != f ==> SameFor(h, e, Mailed(e, mail), g)
    ensures forall md5s :: IndexOk(e, md5s) ==> IndexOk(Mailed(e, mail), md5s)
  {
    MailedIs(e, mail);
    if mail == [] {
      forall g: FlowId ensures SameFor(h, e, e, g) {
        SameForSelf(h, e, g);
      }
    } else {
      SendToKeeps(h, e, mail[0]);
      forall g: FlowId | g != f ensures SameFor(h, e, SendTo(e, mail[0]), g) {
        SendToSameFor(h, e, mail[0], f, g);
      }
    }
  }

  /** What a handler run for flow `f` may do to the proxy. */
  ghost predicate ProxyMoves(p: Proxy, p': Proxy, f: FlowId) {
    && p'.nextFlow == p.nextFlow
    && p'.storages.Keys == p.storages.Keys
    && (forall s :: s in p.storages ==> p'.storages[s].md5s == p.storages[s].md5s)
    && (forall id :: id in p.ids ==> id in p'.ids && p'.ids[id] == p.ids[id])
    && (forall g: FlowId :: g != f ==> SameProxy(p, p', g))
  }

  /** `st1` is `st` but for what flow `f` has sent to the proxy. */
  ghost predicate Taken(st: System, st1: System, f: FlowId) {
    && f in st.clients && f in st1.clients
    && st1 == st.(clients := st.clients[f := st.clients[f].(outq := st1.clients[f].outq)])
  }

  /** Only flow `f` among the clients hears of the handler, and servers get mail they can take. */
  ghost predicate Addressed(h: Hash, st: System, f: FlowId, r: ProxyResult) {
    && (forall g :: g != f ==> Mail(r.toClients, g) == [])
    && (forall s :: s in st.servers ==> MailOk(h, st.servers[s], Mail(r.toServers, s), f))
  }

  lemma QuietAddressed(h: Hash, st: System, f: FlowId, r: ProxyResult)
    requires r.toServers == map[] && r.toClients.Keys <= {f}
    ensures Addressed(h, st, f, r)
  {
  }

  lemma HandledUntouched(h: Hash, st: System, st1: System, f: FlowId, r: ProxyResult, g: FlowId)
    requires Taken(st, st1, f) && ProxyMoves(st.proxy, r.proxy, f) && g != f
    requires Mail(r.toClients, g) == []
    requires forall s :: s in st.servers ==> SameFor(h, st.servers[s], Mailed(st.servers[s], Mail(r.toServers, s)), g)
    ensures Untouched(h, st, AfterProxy(st1, r), g)
  {
    if g in st.clients {
      assert st.clients[g].inq + [] == st.clients[g].inq;
    }
    HandledGrown(st, st1, f, r);
    HandledSameServers(h, st, st1, f, r, g);
  }

  lemma HandledSameServers(h: Hash, st: System, st1: System, f: FlowId, r: ProxyResult, g: FlowId)
    requires Taken(st, st1, f) && r.proxy.storages.Keys == st.proxy.storages.Keys
    requires forall s :: s in st.servers ==> SameFor(h, st.servers[s], Mailed(st.servers[s], Mail(r.toServers, s)), g)
    ensures SameServers(h, st, AfterProxy(st1, r), g)
  {
    var st' := AfterProxy(st1, r);
    forall s | s in st'.servers ensures st'.servers[s] == Mailed(st.servers[s], Mail(r.toServers, s)) {
    }
  }

  lemma HandledGrown(st: System, st1: System, f: FlowId, r: ProxyResult)
    requires Taken(st, st1, f) && ProxyMoves(st.proxy, r.proxy, f)
    ensures Grown(st, AfterProxy(st1, r))
  {
  }

  lemma HandledServers(h: Hash, st: System, st1: System, f: FlowId, r: ProxyResult)
    requires ServersOk(h, st) && Taken(st, st1, f) && ProxyMoves(st.proxy, r.proxy, f)
    requires forall s :: s in st.servers ==> MailOk(h, st.servers[s], Mail(r.toServers, s), f)
    ensures ServersOk(h, AfterProxy(st1, r))
  {
    var st' := AfterProxy(st1, r);
    forall s | s in st'.servers
      ensures ServerEndOk(h, st'.servers[s])
      ensures forall md5s :: IndexOk(st.servers[s], md5s) ==> IndexOk(st'.servers[s], md5s)
    {
      assert st'.servers[s] == Mailed(st.servers[s], Mail(r.toServers, s));
      MailedKeeps(h, st.servers[s], Mail(r.toServers, s), f);
    }
  }

  /** A handler run for flow `f` keeps the invariant if it keeps the part of `f`. */
  lemma HandledKeeps(h: Hash, st: System, st1: System, f: FlowId, r: ProxyResult)
    requires Inv(h, st) && Taken(st, st1, f) && ProxyMoves(st.proxy, r.proxy, f)
    requires Addressed(h, st, f, r)
    requires f in AfterProxy(st1, r).clients && ClientOk(h, AfterProxy(st1, r), f)
    requires IdsOk(h, AfterProxy(st1, r))
    ensures Inv(h, AfterProxy(st1, r))
  {
    var st' := AfterProxy(st1, r);
    assert ServersOk(h, st') by {
      HandledServers(h, st, st1, f, r);
    }
    assert FlowsOk(h, st') && forall g :: g in st'.clients ==> ClientOk(h, st', g) by {
      forall g: FlowId | g != f ensures Untouched(h, st, st', g) {
        forall s | s in st.servers ensures SameFor(h, st.servers[s], Mailed(st.servers[s], Mail(r.toServers, s)), g) {
          MailedKeeps(h, st.servers[s], Mail(r.toServers, s), f);
        }
        HandledUntouched(h, st, st1, f, r, g);
      }
      FlowsKept(h, st, st');
    }
  }

  // ----- What a server is for flow `f` after a handler -----

  /** A server's part in the state after a handler. */
  lemma HandledServer(st: System, st1: System, f: FlowId, r: ProxyResult, s: ServerId)
    requires Taken(st, st1, f) && s in st.servers && |Mail(r.toServers, s)| <= 1
    ensures
      var e' := AfterProxy(st1, r).servers[s];
      e' == if Mail(r.toServers, s) == [] then st.servers[s] else SendTo(st.servers[s], Mail(r.toServers, s)[0])
  {
    MailedIs(st.servers[s], Mail(r.toServers, s));
    assert AfterProxy(st1, r).servers[s] == Mailed(st.servers[s], Mail(r.toServers, s));
  }

  lemma HandledClient(st: System, st1: System, f: FlowId, r: ProxyResult)
    requires Taken(st, st1, f)
    ensures AfterProxy(st1, r).clients[f] == st1.clients[f].(inq := st1.clients[f].inq + Mail(r.toClients, f))
    ensures st1.clients[f].inq == st.clients[f].inq
  {
  }

  lemma PopTakes(st: System, f: FlowId)
    requires f in st.clients && st.clients[f].outq != []
    ensures Taken(st, PopFromClient(st, f), f)
  {
  }
}
