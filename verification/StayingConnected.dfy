/** An upload stays connected as long as nobody closes its session and no server is dropped: then no failure is ever on its
    way to it. */
module StayingConnected {
  import opened Types
  import AM = AgentModel
  import opened ProxyModel
  import opened SystemModel
  import opened Invariant
  import opened ServerHandlers
  import opened Runs
  import opened Safety
  import opened EndToEnd
  import opened OverlookedReplies
  import opened DroppedServers
  import opened DownloadHistory
  import opened DownloadsEnd
  import opened Replies

  /** No client has been told of a failed block. */
  ghost predicate NoFailures(st: System) {
    forall f, m :: f in st.clients ==> UploadBlockFail(m) !in st.clients[f].inq
  }

  lemma NewClients(h: Hash, st: System, act: Action, f: FlowId)
    requires Enabled(h, st, act) && f in Apply(h, st, act).clients && f !in st.clients
    ensures Apply(h, st, act).clients[f].inq == []
  {
    if IsProxyStep(act) {
      ProxyStepClients(h, st, act, f);
    }
  }

  lemma StepNoFailures(h: Hash, st: System, act: Action)
    requires Reachable(h, st) && NoFailures(st) && Enabled(h, st, act) && KeepsServers(st, Apply(h, st, act))
    ensures NoFailures(Apply(h, st, act))
  {
    var st' := Apply(h, st, act);
    forall f, m | f in st'.clients ensures UploadBlockFail(m) !in st'.clients[f].inq {
      if f in st.clients {
        RepliesComeFrom(h, st, act, f, UploadBlockFail(m));
      } else {
        NewClients(h, st, act, f);
      }
    }
  }

  lemma RunStepNoFailures(h: Hash, run: seq<System>, acts: seq<Action>, k: nat)
    requires IsRun(h, run, acts) && k < |acts| && NoFailures(run[k]) && KeepsServers(run[k], run[k + 1])
    ensures NoFailures(run[k + 1])
  {
    PrefixRun(h, run, acts, k);
    StepNoFailures(h, run[k], acts[k]);
  }

  lemma {:induction false} NoFailuresAlong(run: seq<System>, i: nat)
    requires i < |run| && NoFailures(run[0])
    requires forall k :: 0 <= k < i && NoFailures(run[k]) ==> NoFailures(run[k + 1])
    ensures NoFailures(run[i])
    decreases i
  {
    if i > 0 {
      NoFailuresAlong(run, i - 1);
      assert NoFailures(run[i - 1 + 1]);
    }
  }

  /** As long as no server is dropped, no client is told of a failed block. */
  lemma RunNoFailures(h: Hash, run: seq<System>, acts: seq<Action>, i: nat)
    requires IsRun(h, run, acts) && i < |run| && forall k :: 0 <= k < i ==> KeepsServers(run[k], run[k + 1])
    ensures NoFailures(run[i])
  {
    assert run[0].clients == map[];
    forall k | 0 <= k < i && NoFailures(run[k]) ensures NoFailures(run[k + 1]) {
      assert KeepsServers(run[k], run[k + 1]);
      RunStepNoFailures(h, run, acts, k);
    }
    NoFailuresAlong(run, i);
  }

  // ----- Staying connected -----

  lemma FromSelfStays(h: Hash, st: System, f: FlowId, pick: ServerId)
    requires IsUploader(st, f) && UploaderOk(h, st, f) && f in st.proxy.clients && st.clients[f].outq != []
    requires OnClientMessage(h, st.proxy, f, st.clients[f].outq[0], pick).outcome != Exit
    ensures f in FromClient(h, st, f, pick).proxy.clients
  {
    FromUploaderIs(h, st, f, pick);
  }

  lemma ReceiveStays(h: Hash, st: System, f: FlowId)
    requires IsUploader(st, f) && UploaderOk(h, st, f) && st.clients[f].inq != [] && forall m :: UploadBlockFail(m) !in st.clients[f].inq
    ensures ClientReceive(st.clients[f]).open == st.clients[f].open && ClientReceive(st.clients[f]).party.Uploader?
  {
    var a, msg := AgentOf(st, f), st.clients[f].inq[0];
    assert msg in st.clients[f].inq;
    assert AM.AgentOk(h, a) && AM.Expected(a, msg) by {
      var at :| UploaderAt(h, st, f, at);
    }
    AM.OnMessageFollows(h, a, msg);
  }

  lemma WriteStays(h: Hash, st: System, f: FlowId)
    requires IsUploader(st, f) && UploaderOk(h, st, f)
    ensures ClientWritten(st.clients[f]).open == st.clients[f].open && ClientWritten(st.clients[f]).party.Uploader?
  {
    assert AM.AgentOk(h, AgentOf(st, f)) by {
      var at :| UploaderAt(h, st, f, at);
    }
    AM.OnWriteCompleteFollows(h, AgentOf(st, f));
  }

  lemma StepStays(h: Hash, st: System, act: Action, f: FlowId)
    requires Inv(h, st) && Enabled(h, st, act) && StaysConnected(st, f) && NoFailures(st)
    requires act != ClientCloses(f) && act != ProxyClosesClient(f)
    ensures StaysConnected(Apply(h, st, act), f)
  {
    assert UploaderOk(h, st, f) by {
      assert ClientOk(h, st, f);
    }
    if IsProxyStep(act) {
      ProxyStepClients(h, st, act, f);
      if act.ProxyReceivesFromClient? && act.flow == f {
        FromSelfStays(h, st, f, act.pick);
      } else {
        ProxyStepStays(h, st, act, f);
      }
    } else {
      EndStepClient(h, st, act, f);
      if act == ClientReceives(f) {
        ReceiveStays(h, st, f);
      } else if act == ClientWriteComplete(f) {
        WriteStays(h, st, f);
      }
    }
  }

  lemma RunStepStays(h: Hash, run: seq<System>, acts: seq<Action>, k: nat, f: FlowId)
    requires IsRun(h, run, acts) && k < |acts| && StaysConnected(run[k], f) && NoFailures(run[k])
    requires acts[k] != ClientCloses(f) && acts[k] != ProxyClosesClient(f)
    ensures StaysConnected(run[k + 1], f)
  {
    RunKeeps(h, run, acts, k);
    StepStays(h, run[k], acts[k], f);
  }

  lemma {:induction false} ConnectedAlong(run: seq<System>, f: FlowId, i: nat, j: nat)
    requires i <= j < |run| && StaysConnected(run[i], f)
    requires forall k :: i <= k < j && StaysConnected(run[k], f) ==> StaysConnected(run[k + 1], f)
    ensures StaysConnected(run[j], f)
    decreases j
  {
    if i < j {
      ConnectedAlong(run, f, i, j - 1);
      assert StaysConnected(run[j - 1 + 1], f);
    }
  }

  /** Nobody closes the session of the flow between the states `i` and `j`. */
  ghost predicate LeftAlone(acts: seq<Action>, f: FlowId, i: nat, j: nat)
    requires j <= |acts|
  {
    forall k :: i <= k < j ==> acts[k] != ClientCloses(f) && acts[k] != ProxyClosesClient(f)
  }

  lemma RunStays(h: Hash, run: seq<System>, acts: seq<Action>, i: nat, j: nat, f: FlowId)
    requires IsRun(h, run, acts) && i <= j < |run| && StaysConnected(run[i], f) && LeftAlone(acts, f, i, j)
    requires forall k :: 0 <= k < j ==> KeepsServers(run[k], run[k + 1])
    ensures StaysConnected(run[j], f)
  {
    forall k | i <= k < j && StaysConnected(run[k], f) ensures StaysConnected(run[k + 1], f) {
      RunNoFailures(h, run, acts, k);
      RunStepStays(h, run, acts, k, f);
    }
    ConnectedAlong(run, f, i, j);
  }
}
