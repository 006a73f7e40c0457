/** The uploading client as an object (src/client/agent.cpp). Each handler is proved to compute the
    function of AgentModel; what those functions keep and promise is proved there. */
module AgentClass {
  import opened Types
  import opened FileBlocks
  import AM = AgentModel

  datatype Doing = Nothing | Uploading

  class Agent {
    const md5: Hash
    var what: Doing
    /** What the descriptor `fd_` reads. */
    var file: Bytes
    /** The state in the context of the connection. */
    var state: AM.AgentPhase
    var fileMd5sInfo: seq<Block>
    var uploadMd5sInfo: seq<Md5>
    var currentUploadingIndex: nat
    var currentBlockOffset: nat
    var pieceIndex: nat
    /** What has been given to con->send. */
    var sends: seq<Message>

    ghost function Value(): AM.Agent
      reads this
    {
      AM.Agent(state, file, fileMd5sInfo, uploadMd5sInfo, currentUploadingIndex, currentBlockOffset, pieceIndex)
    }

    /** The handler has had the effect `r`; a process that exits leaves no state behind. */
    twostate predicate Did(r: AM.AgentResult, outcome: Outcome)
      reads this
    {
      && outcome == r.outcome
      && (outcome != Exit ==> Value() == r.agent && sends == old(sends) + r.sends)
    }

    ghost predicate Unused()
      reads this
    {
      && what == Nothing
      && uploadMd5sInfo == [] && currentUploadingIndex == 0 && currentBlockOffset == 0 && pieceIndex == 0
    }

    constructor (h: Hash)
      ensures md5 == h && Unused() && sends == []
    {
      md5, what, file, state, fileMd5sInfo, uploadMd5sInfo := h, Nothing, [], AM.Idle, [], [];
      currentUploadingIndex, currentBlockOffset, pieceIndex, sends := 0, 0, 0, [];
    }

    /** One read of the file from position `pos`, of at most `n` bytes. */
    function ReadFrom(pos: nat, n: nat): Bytes
      requires pos <= |file|
      reads this
    {
      file[pos..pos + Min(n, |file| - pos)]
    }

    /** The block list of the file. */
    method GetMd5sFromFile() returns (result: seq<Block>)
      ensures result == Split(md5, file, 0)
    {
      result := [];
      var startPoint := 0;
      while true
        invariant startPoint <= |file|
        invariant SplitSoFar(md5, file, startPoint, result)
        decreases |file| - startPoint
      {
        var read := ReadBlock(startPoint);
        if read == None {
          break;
        }
        SplitNext(md5, file, startPoint, result, read.value);
        result := result + [read.value];
        startPoint := startPoint + read.value.length;
      }
    }

    /** Reads one block of the file, if there is more of it. */
    method ReadBlock(startPoint: nat) returns (read: Option<Block>)
      requires startPoint <= |file|
      ensures read == if startPoint == |file| then None else Some(NextBlock(md5, file, startPoint))
    {
      var buf := ReadFrom(startPoint, BLOCK_SIZE);
      read := if |buf| == 0 then None else Some(Block(md5(buf), startPoint, |buf|));
    }

    method GetMd5sFromInnerType(blocks: seq<Block>) returns (result: seq<Md5>)
      ensures result == Md5s(blocks)
    {
      result := [];
      var i := 0;
      while i < |blocks|
        invariant 0 <= i <= |blocks| && result == Md5s(blocks)[..i]
      {
        result := result + [blocks[i].md5];
        i := i + 1;
      }
    }

    /** std::find_if */
    method FindBlock(m: Md5) returns (it: Option<Block>)
      ensures it == AM.Find(fileMd5sInfo, m)
    {
      var i := 0;
      while i < |fileMd5sInfo|
        invariant 0 <= i <= |fileMd5sInfo|
        invariant AM.Find(fileMd5sInfo, m) == AM.Find(fileMd5sInfo[i..], m)
      {
        if fileMd5sInfo[i].md5 == m {
          return Some(fileMd5sInfo[i]);
        }
        i := i + 1;
      }
      it := None;
    }

    method Send(msg: Message)
      modifies this`sends
      ensures sends == old(sends) + [msg]
    {
      sends := sends + [msg];
    }

    method SendBlockPieceFromCurrentPoint() returns (outcome: Outcome)
      modifies this
      ensures what == old(what)
      ensures Did(AM.SendBlockPiece(old(Value())), outcome)
    {
      if |uploadMd5sInfo| == 0 {
        Send(UploadAllBlocks);
        state := AM.WaitingFinalResult;
        return Ok;
      }
      if currentUploadingIndex >= |uploadMd5sInfo| || currentBlockOffset >= BLOCK_SIZE {
        return Exit;
      }
      var it := FindBlock(uploadMd5sInfo[currentUploadingIndex]);
      match it
      case None =>
        outcome := Exit;
      case Some(block) =>
        outcome := SendPieceOf(block);
    }

    method SendPieceOf(block: Block) returns (outcome: Outcome)
      requires currentUploadingIndex < |uploadMd5sInfo| && currentBlockOffset < BLOCK_SIZE
      requires AM.Find(fileMd5sInfo, uploadMd5sInfo[currentUploadingIndex]) == Some(block)
      modifies this
      ensures what == old(what)
      ensures Did(AM.SendBlockPiece(old(Value())), outcome)
    {
      var sendLength := PIECE_SIZE;
      var eof := false;
      if sendLength + currentBlockOffset >= block.length {
        if currentBlockOffset > block.length || state != AM.UploadingBlocks {
          return Exit;
        }
        sendLength := block.length - currentBlockOffset;
        eof := true;
        state := AM.WaitingBlockAck;
      }
      var content := AM.ReadFile(file, block.start + currentBlockOffset, sendLength);
      Send(UploadBlock(block.md5, pieceIndex, 0, eof, content));
      currentBlockOffset := currentBlockOffset + sendLength;
      pieceIndex := pieceIndex + 1;
      outcome := Ok;
    }

    /** uploadFile, and onConnection once the session is there. */
    method UploadFile(content: Bytes)
      requires Unused()
      modifies this
      ensures what == Uploading && Did(AM.OnConnection(md5, content), Ok)
    {
      what := Uploading;
      file := content;
      fileMd5sInfo := GetMd5sFromFile();
      var md5s := GetMd5sFromInnerType(fileMd5sInfo);
      Send(UploadRequest(md5s));
      state := AM.WaitingUploadResponse;
    }

    method OnMessage(msg: Message) returns (outcome: Outcome)
      modifies this
      ensures what == old(what)
      ensures Did(AM.OnMessage(old(Value()), msg), outcome)
    {
      outcome := Ok;
      if state == AM.WaitingUploadResponse {
        if msg.UploadResponse? {
          uploadMd5sInfo := msg.md5s;
          currentUploadingIndex := 0;
          currentBlockOffset := 0;
          pieceIndex := 0;
          state := AM.UploadingBlocks;
          outcome := SendBlockPieceFromCurrentPoint();
        } else {
          outcome := Close;
        }
      } else if state == AM.WaitingBlockAck {
        if msg.UploadBlockAck? {
          currentUploadingIndex := currentUploadingIndex + 1;
          currentBlockOffset := 0;
          pieceIndex := 0;
          if currentUploadingIndex >= |uploadMd5sInfo| {
            Send(UploadAllBlocks);
            state := AM.WaitingFinalResult;
          } else {
            state := AM.UploadingBlocks;
            outcome := SendBlockPieceFromCurrentPoint();
          }
        } else {
          outcome := Close;
        }
      } else if state == AM.WaitingFinalResult {
        if msg.FileStoreSucc? {
          state := AM.Succ;
        } else if msg.FileStoreFail? {
          state := AM.Fail;
        } else {
          outcome := Close;
        }
      }
    }

    method OnWriteComplete() returns (outcome: Outcome)
      modifies this
      ensures what == old(what)
      ensures Did(AM.OnWriteComplete(old(Value())), outcome)
    {
      if state != AM.UploadingBlocks {
        return Ok;
      }
      outcome := SendBlockPieceFromCurrentPoint();
    }
  }

  function NextBlock(h: Hash, file: Bytes, start: nat): Block
    requires start <= |file|
  {
    var n := Min(BLOCK_SIZE, |file| - start);
    Block(h(file[start..start + n]), start, n)
  }

  /** `made` is the block list up to position `start`. */
  predicate SplitSoFar(h: Hash, file: Bytes, start: nat, made: seq<Block>)
    requires start <= |file|
  {
    made + Split(h, file, start) == Split(h, file, 0)
  }

  lemma SplitNext(h: Hash, file: Bytes, start: nat, made: seq<Block>, block: Block)
    requires start < |file| && SplitSoFar(h, file, start, made) && block == NextBlock(h, file, start)
    ensures start + block.length <= |file| && block.length > 0
    ensures SplitSoFar(h, file, start + block.length, made + [block])
  {
    assert Split(h, file, start) == [block] + Split(h, file, start + block.length);
    assert made + [block] + Split(h, file, start + block.length) == made + Split(h, file, start);
  }
}
