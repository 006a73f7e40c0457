/** The steps of the storage servers keep the invariant. */
module ServerSteps {
  import opened Types
  import opened FileBlocks
  import SM = ServerModel
  import opened ProxyModel
  import opened SystemModel
  import opened ServerLinks
  import opened Invariant
  import opened Frames

  lemma AnnouncedMore(msgs: seq<Message>, more: seq<Message>, m: Md5)
    ensures Announced(msgs + more, m) <==> Announced(msgs, m) || Announced(more, m)
  {
    if Announced(more, m) {
      var msg :| msg in more && (msg == UploadBlockAck(m) || (msg.TransferBlockSet? && m in msg.md5s));
      assert msg in msgs + more;
    }
    if Announced(msgs, m) {
      var msg :| msg in msgs && (msg == UploadBlockAck(m) || (msg.TransferBlockSet? && m in msg.md5s));
      assert msg in msgs + more;
    }
  }

  lemma ServerAloneUntouched(h: Hash, st: System, s: ServerId, e': ServerEnd, f: FlowId)
    requires s in st.servers && SM.Grows(st.servers[s].server, e'.server)
    requires SameFor(h, st.servers[s], e', f)
    ensures Untouched(h, st, WithServer(st, s, e'), f)
  {
    var st' := WithServer(st, s, e');
    forall s' | s' in st.servers ensures SameFor(h, st.servers[s'], st'.servers[s'], f) {
      if s' != s {
        SameForSelf(h, st.servers[s'], f);
      }
    }
  }

  lemma ServerAloneServers(h: Hash, st: System, s: ServerId, e': ServerEnd)
    requires ServersOk(h, st) && s in st.servers && ServerEndOk(h, e')
    requires s in st.proxy.storages ==> IndexOk(e', st.proxy.storages[s].md5s)
    ensures ServersOk(h, WithServer(st, s, e'))
  {
  }

  /** What a server does on its own concerns no flow. */
  lemma ServerAlone(h: Hash, st: System, s: ServerId, e': ServerEnd)
    requires Inv(h, st) && s in st.servers
    requires ServerEndOk(h, e') && SM.Grows(st.servers[s].server, e'.server)
    requires s in st.proxy.storages ==> IndexOk(e', st.proxy.storages[s].md5s)
    requires forall f: FlowId :: SameFor(h, st.servers[s], e', f)
    ensures Inv(h, WithServer(st, s, e'))
  {
    var st' := WithServer(st, s, e');
    assert ServersOk(h, st') by {
      ServerAloneServers(h, st, s, e');
    }
    assert FlowsOk(h, st') && forall f :: f in st'.clients ==> ClientOk(h, st', f) by {
      forall f: FlowId ensures Untouched(h, st, st', f) {
        ServerAloneUntouched(h, st, s, e', f);
      }
      FlowsKept(h, st, st');
    }
    assert IdsOk(h, st') by {
      ServerAloneUntouched(h, st, s, e', 0);
      IdsOkGrows(h, st, st');
    }
  }

  lemma ReceiveIndex(h: Hash, e: ServerEnd, md5s: set<Md5>)
    requires ServerEndOk(h, e) && e.inq != [] && IndexOk(e, md5s)
    ensures IndexOk(ServerReceive(h, e), md5s)
  {
    var msg := e.inq[0];
    var r := SM.OnMessage(h, e.server, msg);
    ReceiveAcceptable(h, e);
    SM.OnMessageKeeps(h, e.server, msg);
    if msg.UploadBlock? {
      StreamHead(h, e, msg.flow);
    }
    ReceiveSends(h, e.server, msg);
    forall m | m in r.server.files
      ensures m in md5s || Announced(e.outq + r.sends, m) || m in e.server.toSend[e.server.next..]
    {
      AnnouncedMore(e.outq, r.sends, m);
    }
  }

  /** A cancelled flow with nothing in the pipe has nothing in it afterwards. */
  lemma ReceiveEmptyPipe(h: Hash, e: ServerEnd, f: FlowId)
    requires ServerEndOk(h, e) && e.inq != [] && Pipe(e, f) == []
    ensures Pipe(ServerReceive(h, e), f) == []
  {
    if e.inq[0] == ClientClean(f) {
      EmptyPipe(h, e, f);
      var e' := ServerReceive(h, e);
      assert SM.Asked(e.server.files, e.inq, f) == SM.Asked(e.server.files, e.inq[1..], f);
      assert e'.outq == e.outq;
      assert SM.Remaining(e'.server, f) == [];
      assert |Pipe(e, f)| == |SM.PiecesFor(e.outq, f)| + |SM.Remaining(e.server, f)| + |SM.Asked(e.server.files, e.inq, f)|;
    } else {
      ReceivePipe(h, e, f);
    }
  }

  lemma ReceiveSameFor(h: Hash, e: ServerEnd, f: FlowId)
    requires ServerEndOk(h, e) && e.inq != []
    ensures SameFor(h, e, ServerReceive(h, e), f)
  {
    ReceiveStream(h, e, f);
    ReceiveRequests(h, e, f);
    InTail(e.inq);
    if Pipe(e, f) == [] {
      ReceiveEmptyPipe(h, e, f);
    }
    if ClientClean(f) !in e.inq {
      ReceivePipe(h, e, f);
    }
  }

  lemma ServerReceivesKeeps(h: Hash, st: System, s: ServerId)
    requires Inv(h, st) && s in st.servers && st.servers[s].inq != []
    ensures Inv(h, WithServer(st, s, ServerReceive(h, st.servers[s])))
  {
    var e := st.servers[s];
    ServerReceiveKeeps(h, e);
    forall f: FlowId ensures SameFor(h, e, ServerReceive(h, e), f) {
      ReceiveSameFor(h, e, f);
    }
    if s in st.proxy.storages {
      ReceiveIndex(h, e, st.proxy.storages[s].md5s);
    }
    ServerAlone(h, st, s, ServerReceive(h, e));
  }

  lemma WriteCompleteSameFor(h: Hash, e: ServerEnd, f: FlowId)
    requires ServerEndOk(h, e)
    ensures SameFor(h, e, ServerWritten(e), f)
  {
    ServerWriteCompleteKeeps(h, e);
    WriteCompletePipe(h, e, f);
    WriteCompleteSends(h, e.server);
    BusyAfterWeaken(e.inq, f);
  }

  lemma WriteCompleteIndex(h: Hash, e: ServerEnd, md5s: set<Md5>)
    requires ServerEndOk(h, e) && IndexOk(e, md5s)
    ensures IndexOk(ServerWritten(e), md5s)
  {
    var r := SM.OnWriteComplete(e.server);
    SM.OnWriteCompleteKeeps(h, e.server);
    if e.server.phase == SM.TransferingBlockSet {
      BlockSetAnnounces(e.server);
    } else {
      SM.SendPieceKeeps(h, e.server);
    }
    forall m | m in r.server.files
      ensures m in md5s || Announced(e.outq + r.sends, m) || m in r.server.toSend[r.server.next..]
    {
      AnnouncedMore(e.outq, r.sends, m);
    }
  }

  /** A block set message announces exactly what it takes off the list. */
  lemma BlockSetAnnounces(sv: SM.Server)
    requires sv.next <= |sv.toSend|
    ensures
      var r := SM.SendMd5s(sv);
      && r.server.next <= |r.server.toSend|
      && forall m :: m in sv.toSend[sv.next..] <==> Announced(r.sends, m) || m in r.server.toSend[r.server.next..]
  {
    var r := SM.SendMd5s(sv);
    var end := if sv.next >= |sv.toSend| then sv.next else Min(sv.next + SM.BLOCK_SET_SIZE, |sv.toSend|);
    assert sv.toSend[sv.next..] == sv.toSend[sv.next..end] + sv.toSend[end..];
    assert r.sends[0].md5s == sv.toSend[sv.next..end];
    forall m ensures Announced(r.sends, m) <==> m in sv.toSend[sv.next..end] {
      assert r.sends[0] in r.sends;
    }
  }

  lemma ServerWritesKeeps(h: Hash, st: System, s: ServerId)
    requires Inv(h, st) && s in st.servers
    ensures Inv(h, WithServer(st, s, ServerWritten(st.servers[s])))
  {
    var e := st.servers[s];
    ServerWriteCompleteKeeps(h, e);
    forall f: FlowId ensures SameFor(h, e, ServerWritten(e), f) {
      WriteCompleteSameFor(h, e, f);
    }
    if s in st.proxy.storages {
      WriteCompleteIndex(h, e, st.proxy.storages[s].md5s);
    }
    ServerAlone(h, st, s, ServerWritten(e));
  }

  lemma ServerEndClosed(h: Hash, e: ServerEnd)
    requires ServerEndOk(h, e)
    ensures ServerEndOk(h, Closed(e)) && SM.Grows(e.server, Closed(e).server)
    ensures forall f: FlowId :: SameFor(h, e, Closed(e), f)
    ensures forall md5s :: IndexOk(e, md5s) ==> IndexOk(Closed(e), md5s)
  {
    forall f: FlowId ensures StreamThrough(h, Closed(e), f) == StreamThrough(h, e, f) {
    }
  }

  lemma ServerClosesKeeps(h: Hash, st: System, s: ServerId)
    requires Inv(h, st) && s in st.servers
    ensures Inv(h, WithServer(st, s, Closed(st.servers[s])))
  {
    ServerEndClosed(h, st.servers[s]);
    ServerAlone(h, st, s, Closed(st.servers[s]));
  }
}
