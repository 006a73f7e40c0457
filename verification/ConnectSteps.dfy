/** Clients and servers that join keep the invariant. */
module ConnectSteps {
  import opened Types
  import opened FileBlocks
  import SM = ServerModel
  import AM = AgentModel
  import opened ProxyModel
  import opened SystemModel
  import opened ServerLinks
  import opened Invariant
  import opened Frames
  import opened ServerSteps

  lemma NoSubsOnce(p: Proxy, f: FlowId)
    requires Subs(p, f) == {}
    ensures SubsOnce(p, f)
  {
    forall s, m | s in p.storages && m in p.storages[s].subs ensures f !in p.storages[s].subs[m] {
      assert (s, m) !in Subs(p, f);
    }
  }

  lemma ConnectUntouched(h: Hash, st: System, e: ClientEnd, g: FlowId)
    requires g != st.proxy.nextFlow
    ensures Untouched(h, st, Connect(st, e), g)
  {
    forall s | s in st.servers ensures SameFor(h, st.servers[s], st.servers[s], g) {
      SameForSelf(h, st.servers[s], g);
    }
  }

  lemma ConnectKeeps(h: Hash, st: System, e: ClientEnd)
    requires Inv(h, st)
    requires ClientOk(h, Connect(st, e), st.proxy.nextFlow)
    ensures Inv(h, Connect(st, e))
  {
    var st' := Connect(st, e);
    var f := st.proxy.nextFlow;
    assert FlowsOk(h, st') && forall g :: g in st'.clients ==> ClientOk(h, st', g) by {
      forall g: FlowId | g != f ensures Untouched(h, st, st', g) {
        ConnectUntouched(h, st, e, g);
      }
      FlowsKept(h, st, st');
    }
    assert ServersOk(h, st');
    assert IdsOk(h, st') by {
      ConnectUntouched(h, st, e, f + 1);
      IdsOkGrows(h, st, st');
    }
  }

  lemma UploaderConnects(h: Hash, st: System, file: Bytes)
    requires Inv(h, st)
    ensures Inv(h, Connect(st, NewUploader(h, file)))
  {
    var f := st.proxy.nextFlow;
    var st' := Connect(st, NewUploader(h, file));
    assert ClientOk(h, st', f) by {
      assert Unknown(h, st, f);
      assert Subs(st'.proxy, f) == {};
      NoSubsOnce(st'.proxy, f);
      assert [UploadRequest(AM.List(AgentOf(st', f)))][1..] == [];
      assert UploaderAt(h, st', f, SM.Between);
    }
    ConnectKeeps(h, st, NewUploader(h, file));
  }

  lemma DownloaderConnects(h: Hash, st: System, id: Md5)
    requires Inv(h, st)
    ensures Inv(h, Connect(st, NewDownloader(id)))
  {
    var f := st.proxy.nextFlow;
    var st' := Connect(st, NewDownloader(id));
    assert ClientOk(h, st', f) by {
      assert Unknown(h, st, f);
      assert Subs(st'.proxy, f) == {};
      assert Context(st', f) == Some(NewClient);
      assert Idle(st', f);
    }
    ConnectKeeps(h, st, NewDownloader(id));
  }

  lemma NewServerOk(h: Hash, files: map<Md5, Bytes>, order: seq<Md5>)
    requires Enumerates(order, files.Keys) && forall m :: m in files ==> h(files[m]) == m
    ensures ServerEndOk(h, NewServer(files, order)) && IndexOk(NewServer(files, order), {})
    ensures forall f: FlowId :: BlankFor(h, NewServer(files, order), f)
  {
    SM.OnConnectionKeeps(h, files, order);
    var sv := SM.Server(SM.TransferingBlockSet, order, 0, files.Keys, files, map[], map[], map[]);
    BlockSetAnnounces(sv);
    assert order[0..] == order;
    forall f: FlowId ensures BlankFor(h, NewServer(files, order), f) {
      NonePiecesFor(NewServer(files, order).outq, f);
    }
  }

  lemma JoinSubs(p: Proxy, s: ServerId, f: FlowId)
    requires s !in p.storages
    ensures SameProxy(p, SetStorage(p, s, NewStorage), f)
  {
    var p' := SetStorage(p, s, NewStorage);
    forall x ensures x in Subs(p', f) <==> x in Subs(p, f) {
    }
    assert Subs(p', f) == Subs(p, f);
  }

  lemma JoinUntouched(h: Hash, st: System, e: ServerEnd, f: FlowId)
    requires ServersOk(h, st) && BlankFor(h, e, f)
    ensures Untouched(h, st, Join(st, e), f)
  {
    var st' := Join(st, e);
    assert st.nextServer !in st.servers && st.nextServer !in st.proxy.storages;
    assert SameProxy(st.proxy, st'.proxy, f) by {
      JoinSubs(st.proxy, st.nextServer, f);
    }
    forall s | s in st.servers
      ensures SameFor(h, st.servers[s], st'.servers[s], f) && SM.Grows(st.servers[s].server, st'.servers[s].server)
    {
      SameForSelf(h, st.servers[s], f);
    }
  }

  lemma JoinServers(h: Hash, st: System, e: ServerEnd)
    requires ServersOk(h, st) && ServerEndOk(h, e) && IndexOk(e, {})
    ensures ServersOk(h, Join(st, e))
  {
  }

  lemma ServerJoins(h: Hash, st: System, files: map<Md5, Bytes>, order: seq<Md5>)
    requires Inv(h, st)
    requires Enumerates(order, files.Keys) && forall m :: m in files ==> h(files[m]) == m
    ensures Inv(h, Join(st, NewServer(files, order)))
  {
    var e := NewServer(files, order);
    var st' := Join(st, e);
    NewServerOk(h, files, order);
    assert ServersOk(h, st') by {
      JoinServers(h, st, e);
    }
    assert FlowsOk(h, st') && forall f :: f in st'.clients ==> ClientOk(h, st', f) by {
      forall f: FlowId ensures Untouched(h, st, st', f) {
        JoinUntouched(h, st, e, f);
      }
      FlowsKept(h, st, st');
    }
    assert IdsOk(h, st') by {
      JoinUntouched(h, st, e, 0);
      IdsOkGrows(h, st, st');
    }
  }
}
