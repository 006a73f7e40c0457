/** The uploading client's handlers as functions on its state (src/client/agent.cpp). The class Agent
    is proved to compute exactly these functions. */
module AgentModel {
  import opened Types
  import opened FileBlocks
  import opened ServerModel

  datatype AgentPhase =
    Idle | WaitingUploadResponse | UploadingBlocks | WaitingBlockAck | WaitingFinalResult | Succ | Fail

  datatype Agent = Agent(
    phase: AgentPhase,
    file: Bytes,                    // what fd_ reads
    blocks: seq<Block>,             // file_md5s_info_
    upload: seq<Md5>,               // upload_md5s_info_
    current: nat,                   // current_uploading_index_
    offset: nat,                    // current_block_offset_
    piece: nat)                     // piece_index_

  datatype AgentResult = AgentResult(agent: Agent, sends: seq<Message>, outcome: Outcome)

  function ReadFile(file: Bytes, pos: nat, n: nat): (content: Bytes)
    ensures |content| == n
    ensures pos + n <= |file| ==> content == file[pos..pos + n]
  {
    if pos + n <= |file| then file[pos..pos + n]
    else if pos <= |file| then file[pos..] + seq(pos + n - |file|, _ => 0 as byte)
    else seq(n, _ => 0 as byte)
  }

  /** std::find_if over the file's blocks. */
  function Find(blocks: seq<Block>, m: Md5): Option<Block> {
    if blocks == [] then None
    else if blocks[0].md5 == m then Some(blocks[0])
    else Find(blocks[1..], m)
  }

  function SendBlockPiece(a: Agent): AgentResult {
    if a.upload == [] then
      AgentResult(a.(phase := WaitingFinalResult), [UploadAllBlocks], Ok)
    else if a.current >= |a.upload| || a.offset >= BLOCK_SIZE then
      AgentResult(a, [], Exit)
    else
      match Find(a.blocks, a.upload[a.current])
      case None => AgentResult(a, [], Exit)
      case Some(b) =>
        var eof := PIECE_SIZE + a.offset >= b.length;
        if eof && (a.phase != UploadingBlocks || a.offset > b.length) then
          AgentResult(a, [], Exit)
        else
          var n := if eof then b.length - a.offset else PIECE_SIZE;
          AgentResult(
            a.(phase := if eof then WaitingBlockAck else a.phase, offset := a.offset + n, piece := a.piece + 1),
            [UploadBlock(b.md5, a.piece, 0, eof, ReadFile(a.file, b.start + a.offset, n))], Ok)
  }

  function OnConnection(h: Hash, file: Bytes): AgentResult {
    var blocks := Split(h, file, 0);
    AgentResult(Agent(WaitingUploadResponse, file, blocks, [], 0, 0, 0), [UploadRequest(Md5s(blocks))], Ok)
  }

  function OnMessage(a: Agent, msg: Message): AgentResult {
    match a.phase
    case WaitingUploadResponse =>
      if msg.UploadResponse? then
        SendBlockPiece(a.(phase := UploadingBlocks, upload := msg.md5s, current := 0, offset := 0, piece := 0))
      else
        AgentResult(a, [], Close)
    case WaitingBlockAck =>
      if msg.UploadBlockAck? then
        var a' := a.(current := a.current + 1, offset := 0, piece := 0);
        if a'.current >= |a'.upload| then
          AgentResult(a'.(phase := WaitingFinalResult), [UploadAllBlocks], Ok)
        else
          SendBlockPiece(a'.(phase := UploadingBlocks))
      else
        AgentResult(a, [], Close)
    case WaitingFinalResult =>
      if msg.FileStoreSucc? then AgentResult(a.(phase := Succ), [], Ok)
      else if msg.FileStoreFail? then AgentResult(a.(phase := Fail), [], Ok)
      else AgentResult(a, [], Close)
    case _ => AgentResult(a, [], Ok)
  }

  function OnWriteComplete(a: Agent): AgentResult {
    if a.phase != UploadingBlocks then AgentResult(a, [], Ok) else SendBlockPiece(a)
  }

  // ----- What the agent keeps -----

  lemma {:induction false} FindFinds(blocks: seq<Block>, m: Md5)
    requires m in Md5s(blocks)
    ensures var r := Find(blocks, m); r.Some? && r.value in blocks && r.value.md5 == m
  {
    if blocks[0].md5 != m {
      var i :| 0 <= i < |blocks| && Md5s(blocks)[i] == m;
      assert Md5s(blocks[1..])[i - 1] == m;
      FindFinds(blocks[1..], m);
    }
  }

  /** Of several blocks with the same md5 the first is found. */
  lemma {:induction false} FindFirst(blocks: seq<Block>, m: Md5, k: nat)
    requires k < |blocks| && blocks[k].md5 == m && forall j :: 0 <= j < k ==> blocks[j].md5 != m
    ensures Find(blocks, m) == Some(blocks[k])
  {
    if k > 0 {
      FindFirst(blocks[1..], m, k - 1);
    }
  }

  function List(a: Agent): seq<Md5> {
    Md5s(a.blocks)
  }

  /** The block list is that of the file, and only blocks of the file are uploaded. */
  ghost predicate BlocksOk(h: Hash, a: Agent) {
    && a.blocks == Split(h, a.file, 0)
    && (forall m :: m in a.upload ==> m in List(a))
  }

  /** The bytes the agent sends for its current md5. */
  ghost function CurrentBlock(h: Hash, a: Agent): Bytes
    requires BlocksOk(h, a) && a.current < |a.upload|
  {
    SplitFits(h, a.file, 0);
    assert a.upload[a.current] in a.upload;
    FindFinds(a.blocks, a.upload[a.current]);
    Content(h, a.file, Find(a.blocks, a.upload[a.current]).value)
  }

  ghost predicate Sending(h: Hash, a: Agent) {
    && BlocksOk(h, a) && a.current < |a.upload|
    && a.offset < |CurrentBlock(h, a)| && a.offset == 4096 * a.piece
  }

  ghost predicate AgentOk(h: Hash, a: Agent) {
    && BlocksOk(h, a)
    && a.phase != Idle && a.phase != Fail
    && (a.phase == WaitingUploadResponse ==> a.upload == [])
    && (a.phase == UploadingBlocks ==> Sending(h, a) && a.piece > 0)
    && (a.phase == WaitingBlockAck ==> a.current < |a.upload|)
    && (a.phase == WaitingFinalResult || a.phase == Succ ==> a.current >= |a.upload|)
  }

  /** Where the stream of the agent's pieces stands: the pieces sent so far of the block it is sending
      are exactly a prefix of that block. */
  ghost function Sent(h: Hash, a: Agent): Stream
    requires a.phase == UploadingBlocks ==> Sending(h, a)
  {
    if a.phase == UploadingBlocks && a.offset > 0
    then Inside(a.upload[a.current], CurrentBlock(h, a)[..a.offset])
    else Between
  }

  /** The piece sent is the next one of the current block, in full up to its last piece. */
  lemma NextPiece(h: Hash, a: Agent)
    requires a.phase == UploadingBlocks && Sending(h, a)
    ensures
      var r := SendBlockPiece(a);
      var c := CurrentBlock(h, a);
      var n := Min(4096, |c| - a.offset);
      var eof := a.offset + n == |c|;
      && r.outcome == Ok
      && r.agent == a.(phase := if eof then WaitingBlockAck else UploadingBlocks, offset := a.offset + n, piece := a.piece + 1)
      && r.sends == [UploadBlock(a.upload[a.current], a.piece, 0, eof, c[a.offset..a.offset + n])]
      && h(c) == a.upload[a.current]
  {
    SplitFits(h, a.file, 0);
    assert a.upload[a.current] in a.upload;
    FindFinds(a.blocks, a.upload[a.current]);
    var b := Find(a.blocks, a.upload[a.current]).value;
    var c := CurrentBlock(h, a);
    var n := Min(PIECE_SIZE, |c| - a.offset);
    assert a.file[b.start + a.offset..b.start + a.offset + n] == c[a.offset..a.offset + n];
  }

  lemma SendBlockPieceFollows(h: Hash, a: Agent)
    requires a.phase == UploadingBlocks && Sending(h, a)
    ensures
      var r := SendBlockPiece(a);
      && r.outcome == Ok && AgentOk(h, r.agent)
      && r.agent == a.(phase := r.agent.phase, offset := r.agent.offset, piece := r.agent.piece)
      && (r.agent.phase == UploadingBlocks || r.agent.phase == WaitingBlockAck)
      && |r.sends| == 1 && r.sends[0].UploadBlock? && r.sends[0].flow == 0
      && r.sends[0].md5 == a.upload[a.current]
      && r.sends[0].index == a.piece
      && Read(h, 0, Sent(h, a), r.sends[0]) == Sent(h, r.agent)
  {
    NextPiece(h, a);
    var c := CurrentBlock(h, a);
    var n := Min(PIECE_SIZE, |c| - a.offset);
    var r := SendBlockPiece(a).agent;
    assert CurrentBlock(h, r) == c;
    assert c[..a.offset] + c[a.offset..a.offset + n] == c[..a.offset + n];
    assert c[..|c|] == c;
  }

  /** Every reply the agent can get in its phase. */
  ghost predicate Expected(a: Agent, msg: Message) {
    match a.phase
    case WaitingUploadResponse => msg.UploadResponse? && forall m :: m in msg.md5s ==> m in List(a)
    case WaitingFinalResult => msg.FileStoreSucc?
    case Succ => false
    case _ => msg.UploadBlockAck? || msg.UploadBlockFail?
  }

  /** Handling a reply keeps the agent's invariant, meets none of its assertions and exits, and the
      pieces it sends continue its stream. Only a failure reply makes it close. */
  lemma OnMessageFollows(h: Hash, a: Agent, msg: Message)
    requires AgentOk(h, a) && Expected(a, msg)
    ensures
      var r := OnMessage(a, msg);
      && AgentOk(h, r.agent) && r.agent.blocks == a.blocks && r.agent.file == a.file
      && (r.outcome == Close <==> a.phase == WaitingBlockAck && msg.UploadBlockFail?) && r.outcome != Exit
      && ReadAll(h, 0, Sent(h, a), r.sends) == Sent(h, r.agent)
  {
    var r := OnMessage(a, msg);
    if a.phase == WaitingUploadResponse {
      if msg.md5s != [] {
        var a' := a.(phase := UploadingBlocks, upload := msg.md5s, current := 0, offset := 0, piece := 0);
        Starts(h, a');
        SendBlockPieceFollows(h, a');
      }
    } else if a.phase == WaitingBlockAck && msg.UploadBlockAck? && a.current + 1 < |a.upload| {
      var a' := a.(phase := UploadingBlocks, current := a.current + 1, offset := 0, piece := 0);
      Starts(h, a');
      SendBlockPieceFollows(h, a');
    }
    if |r.sends| == 1 {
      assert r.sends[1..] == [];
    }
  }

  /** Any message in any state: when the agent closes its session, succeeds or fails, and when it ignores the message. */
  lemma AnyMessage(a: Agent, msg: Message)
    ensures
      var r := OnMessage(a, msg);
      && (r.outcome == Close <==>
            || (a.phase == WaitingUploadResponse && !msg.UploadResponse?)
            || (a.phase == WaitingBlockAck && !msg.UploadBlockAck?)
            || (a.phase == WaitingFinalResult && !msg.FileStoreSucc? && !msg.FileStoreFail?))
      && (r.agent.phase == Succ <==> a.phase == Succ || (a.phase == WaitingFinalResult && msg.FileStoreSucc?))
      && (r.agent.phase == Fail <==> a.phase == Fail || (a.phase == WaitingFinalResult && msg.FileStoreFail?))
      && (a.phase == Idle || a.phase == UploadingBlocks || a.phase == Succ || a.phase == Fail ==> r == AgentResult(a, [], Ok))
      && (r.outcome == Close ==> r.agent == a && r.sends == [])
  {
  }

  lemma Starts(h: Hash, a: Agent)
    requires BlocksOk(h, a) && a.current < |a.upload| && a.offset == 0 && a.piece == 0
    ensures Sending(h, a)
  {
    SplitFits(h, a.file, 0);
    assert a.upload[a.current] in a.upload;
    FindFinds(a.blocks, a.upload[a.current]);
  }

  /** `r` is the start of block `current` of `upload`: its first piece is sent. */
  ghost predicate StartsBlock(r: AgentResult, upload: seq<Md5>, current: nat) {
    && r.agent.upload == upload && r.agent.current == current && current < |upload|
    && (r.agent.phase == UploadingBlocks || r.agent.phase == WaitingBlockAck)
    && |r.sends| == 1 && r.sends[0].UploadBlock? && r.sends[0].flow == 0
    && r.sends[0].md5 == upload[current] && r.sends[0].index == 0
  }

  ghost predicate Finishes(r: AgentResult, upload: seq<Md5>, current: nat) {
    && r.agent.upload == upload && r.agent.current == current && current >= |upload|
    && r.agent.phase == WaitingFinalResult && r.sends == [UploadAllBlocks]
  }

  lemma ResponseStarts(h: Hash, a: Agent, msg: Message)
    requires AgentOk(h, a) && Expected(a, msg) && a.phase == WaitingUploadResponse
    ensures StartsBlock(OnMessage(a, msg), msg.md5s, 0) || Finishes(OnMessage(a, msg), msg.md5s, 0)
  {
    if msg.md5s != [] {
      var a' := a.(phase := UploadingBlocks, upload := msg.md5s, current := 0, offset := 0, piece := 0);
      Starts(h, a');
      SendBlockPieceFollows(h, a');
    }
  }

  lemma AckStarts(h: Hash, a: Agent, msg: Message)
    requires AgentOk(h, a) && msg.UploadBlockAck? && a.phase == WaitingBlockAck
    ensures
      || StartsBlock(OnMessage(a, msg), a.upload, a.current + 1)
      || Finishes(OnMessage(a, msg), a.upload, a.current + 1)
  {
    if a.current + 1 < |a.upload| {
      var a' := a.(phase := UploadingBlocks, current := a.current + 1, offset := 0, piece := 0);
      Starts(h, a');
      SendBlockPieceFollows(h, a');
    }
  }

  /** A write completion while a block is being sent sends one more piece, never a first one. */
  lemma WriteCompleteContinues(h: Hash, a: Agent)
    requires AgentOk(h, a) && a.phase == UploadingBlocks
    ensures
      var r := OnWriteComplete(a);
      && r.agent.upload == a.upload && r.agent.current == a.current
      && (r.agent.phase == UploadingBlocks || r.agent.phase == WaitingBlockAck)
      && |r.sends| == 1 && r.sends[0].UploadBlock? && r.sends[0].flow == 0 && r.sends[0].index > 0
  {
    SendBlockPieceFollows(h, a);
  }

  lemma OnWriteCompleteFollows(h: Hash, a: Agent)
    requires AgentOk(h, a)
    ensures
      var r := OnWriteComplete(a);
      && r.outcome == Ok && AgentOk(h, r.agent) && r.agent.blocks == a.blocks && r.agent.file == a.file
      && ReadAll(h, 0, Sent(h, a), r.sends) == Sent(h, r.agent)
  {
    if a.phase == UploadingBlocks {
      SendBlockPieceFollows(h, a);
      var r := OnWriteComplete(a);
      assert r.sends[1..] == [];
    }
  }
}
