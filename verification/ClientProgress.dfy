/** Every step of a client lowers the measure of what is left to do. */
module ClientProgress {
  import opened Types
  import opened FileBlocks
  import AM = AgentModel
  import DM = DownloaderModel
  import opened ProxyModel
  import opened SystemModel
  import opened Invariant
  import opened ClientSteps
  import opened Measure

  lemma ClientAloneLowers(h: Hash, st: System, f: FlowId, e': ClientEnd)
    requires f in st.clients && f < st.proxy.nextFlow
    requires RequestDue(WithClient(st, f, e'), f) <= RequestDue(st, f)
    requires
      || BlocksDue(WithClient(st, f, e'), f) < BlocksDue(st, f)
      || (BlocksDue(WithClient(st, f, e'), f) <= BlocksDue(st, f) && ClientWeight(e') < ClientWeight(st.clients[f]))
    ensures Below(RankOf(WithClient(st, f, e')), RankOf(st))
  {
    var st' := WithClient(st, f, e');
    forall g: FlowId | g != f ensures NoRise(st, st', g) {
      ClientAloneUntouched(h, st, f, e', g);
      UntouchedNoRise(h, st, st', g);
    }
    if RequestDue(st', f) < RequestDue(st, f) || BlocksDue(st', f) < BlocksDue(st, f) {
      ReachesNext(st, st', f);
    } else {
      LosesWeight(st, st', f, 0);
    }
  }

  // ----- The uploading client -----

  lemma PieceSpent(h: Hash, a: AM.Agent)
    requires a.phase == AM.UploadingBlocks && AM.Sending(h, a)
    ensures PiecesLeft(AM.SendBlockPiece(a).agent) + 1 == PiecesLeft(a)
  {
    AM.NextPiece(h, a);
    SplitFits(h, a.file, 0);
    assert a.upload[a.current] in a.upload;
    AM.FindFinds(a.blocks, a.upload[a.current]);
  }

  lemma WriteWeighs(h: Hash, e: ClientEnd, a: AM.Agent)
    requires e.party == Uploader(a, true) && AM.AgentOk(h, a)
    ensures ClientWeight(ClientWritten(e)) < ClientWeight(e)
    ensures AgentBlocks(ClientWritten(e).party.agent, e.inq) == AgentBlocks(a, e.inq)
    ensures a.phase != AM.UploadingBlocks ==> ClientWritten(e).outq == e.outq
  {
    var r := AM.OnWriteComplete(a);
    WeighAppend(ClientOut, map[], e.outq, r.sends);
    WeighOne(ClientOut, map[], r.sends);
    if a.phase == AM.UploadingBlocks {
      AM.WriteCompleteContinues(h, a);
      PieceSpent(h, a);
    } else {
      assert e.outq + [] == e.outq;
    }
  }

  lemma UploaderWriteLowers(h: Hash, st: System, f: FlowId)
    requires Inv(h, st) && IsUploader(st, f) && st.clients[f].party.writing
    ensures Below(RankOf(WithClient(st, f, ClientWritten(st.clients[f]))), RankOf(st))
  {
    assert f < st.proxy.nextFlow && UploaderOk(h, st, f) by {
      assert ClientOk(h, st, f);
    }
    assert AM.AgentOk(h, AgentOf(st, f)) && UploadPhase(h, st.clients[f], AgentOf(st, f), Context(st, f), Subs(st.proxy, f)) by {
      var at :| UploaderAt(h, st, f, at);
    }
    WriteWeighs(h, st.clients[f], AgentOf(st, f));
    ClientAloneLowers(h, st, f, ClientWritten(st.clients[f]));
  }

  /** Handling a message brings the agent to its next block, or costs the message. */
  lemma ReceiveWeighs(h: Hash, e: ClientEnd, a: AM.Agent, writing: bool)
    requires e.party == Uploader(a, writing) && AM.AgentOk(h, a) && |e.inq| == 1 && AM.Expected(a, e.inq[0])
    requires a.phase == AM.UploadingBlocks || a.phase == AM.WaitingBlockAck ==> a.current < |a.upload|
    ensures
      var e' := ClientReceive(e);
      || AgentBlocks(e'.party.agent, e'.inq) < AgentBlocks(a, e.inq)
      || (&& AgentBlocks(e'.party.agent, e'.inq) == AgentBlocks(a, e.inq) && e'.outq == e.outq
          && ClientWeight(e') < ClientWeight(e))
  {
    var msg := e.inq[0];
    assert e.inq[1..] == [];
    if a.phase == AM.WaitingUploadResponse {
      AM.ResponseStarts(h, a, msg);
    } else if a.phase == AM.WaitingBlockAck && msg.UploadBlockAck? {
      AM.AckStarts(h, a, msg);
    } else {
      assert AM.OnMessage(a, msg).sends == [] && e.outq + [] == e.outq;
      WeighOne(ClientIn, map[], e.inq);
    }
  }

  lemma UploaderInbox(h: Hash, e: ClientEnd, a: AM.Agent, ctx: Option<Client>, subs: set<(ServerId, Md5)>)
    requires UploadPhase(h, e, a, ctx, subs) && e.inq != []
    ensures |e.inq| == 1 && AM.Expected(a, e.inq[0])
    ensures a.phase == AM.UploadingBlocks || a.phase == AM.WaitingBlockAck ==> a.current < |a.upload|
    ensures ctx.Some? ==> ctx.value.phase != Init
  {
  }

  lemma UploaderReceiveLowers(h: Hash, st: System, f: FlowId)
    requires Inv(h, st) && IsUploader(st, f) && st.clients[f].inq != []
    ensures Below(RankOf(WithClient(st, f, ClientReceive(st.clients[f]))), RankOf(st))
  {
    assert f < st.proxy.nextFlow && UploaderOk(h, st, f) by {
      assert ClientOk(h, st, f);
    }
    var at :| UploaderAt(h, st, f, at);
    UploaderInbox(h, st.clients[f], AgentOf(st, f), Context(st, f), Subs(st.proxy, f));
    ReceiveWeighs(h, st.clients[f], AgentOf(st, f), st.clients[f].party.writing);
    ClientAloneLowers(h, st, f, ClientReceive(st.clients[f]));
  }

  // ----- The downloading client -----

  lemma ReadWeighs(e: ClientEnd)
    requires e.party.Downloader? && e.inq != []
    ensures ClientWeight(ClientReceive(e)) < ClientWeight(e)
    ensures !(e.inq[0].TransferBlock? && e.inq[0].eof) ==> ClientReceive(e).outq == e.outq
  {
    var r := DM.OnMessage(e.party.downloader, e.inq[0]);
    WeighAppend(ClientOut, map[], e.outq, r.sends);
    WeighOne(ClientOut, map[], r.sends);
    assert e.outq + [] == e.outq;
  }

  /** A client whose first request is not yet answered with a block has no block to read. */
  lemma NothingToRead(st: System, f: FlowId)
    requires IsDownloader(st, f) && DownloaderOk(st, f) && f in st.proxy.clients && st.proxy.clients[f].phase == Init
    requires st.clients[f].inq != []
    ensures !(st.clients[f].inq[0].TransferBlock? && st.clients[f].inq[0].eof)
  {
  }

  lemma DownloaderReceiveLowers(h: Hash, st: System, f: FlowId)
    requires Inv(h, st) && IsDownloader(st, f) && st.clients[f].inq != []
    ensures Below(RankOf(WithClient(st, f, ClientReceive(st.clients[f]))), RankOf(st))
  {
    assert f < st.proxy.nextFlow && DownloaderOk(st, f) by {
      assert ClientOk(h, st, f);
    }
    ReadWeighs(st.clients[f]);
    if f in st.proxy.clients && st.proxy.clients[f].phase == Init {
      NothingToRead(st, f);
    }
    ClientAloneLowers(h, st, f, ClientReceive(st.clients[f]));
  }
}
