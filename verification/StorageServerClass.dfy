/** The storage server as an object (src/sserver/storage_server.cpp,
    include/sserver/storage_server_context.h). Each handler is proved to compute the function of
    ServerModel; what those functions keep and promise is proved there. */
module StorageServerClass {
  import opened Types
  import opened ServerModel

  class StorageServerContext {
    var state: Phase
    var nextToTransferMd5Index: nat
    var transferingMd5s: seq<Md5>
    var uploadingContext: map<FlowId, Upload>
    var downloadingMd5s: map<Md5, Cached>
    var downloadingContext: map<FlowId, Download>

    constructor ()
      ensures state == Init && nextToTransferMd5Index == 0 && transferingMd5s == []
      ensures uploadingContext == map[] && downloadingMd5s == map[] && downloadingContext == map[]
    {
      state, nextToTransferMd5Index, transferingMd5s := Init, 0, [];
      uploadingContext, downloadingMd5s, downloadingContext := map[], map[], map[];
    }
  }

  class StorageServer {
    const md5: Hash
    /** The path table, and the block files by the md5 that their path is made of. */
    var items: set<Md5>
    var files: map<Md5, Bytes>
    /** The context of the connection to the proxy. */
    var context: StorageServerContext
    /** What has been given to con->send. */
    var sends: seq<Message>

    ghost function Value(): Server
      reads this, context
    {
      Server(context.state, context.transferingMd5s, context.nextToTransferMd5Index, items, files,
             context.uploadingContext, context.downloadingMd5s, context.downloadingContext)
    }

    /** The handler has had the effect `r`; a process that exits leaves no state behind. */
    twostate predicate Did(r: ServerResult, outcome: Outcome)
      reads this, context
    {
      && outcome == r.outcome
      && (outcome != Exit ==> Value() == r.server && sends == old(sends) + r.sends)
    }

    constructor (h: Hash, stored: map<Md5, Bytes>)
      ensures md5 == h && files == stored && items == stored.Keys && sends == [] && fresh(context)
    {
      md5, files, items, sends := h, stored, stored.Keys, [];
      context := new StorageServerContext();
    }

    method Send(msg: Message)
      modifies this`sends
      ensures sends == old(sends) + [msg]
    {
      sends := sends + [msg];
    }

    /** `order` is what the path table returns for all its items. */
    method OnConnection(order: seq<Md5>)
      requires items == files.Keys
      modifies this
      ensures fresh(context)
      ensures
        var r := ServerModel.OnConnection(old(files), order);
        Value() == r.server && sends == old(sends) + r.sends && r.outcome == Ok
    {
      context := new StorageServerContext();
      context.state := TransferingBlockSet;
      context.transferingMd5s := order;
      SendSomeMd5sToProxy();
    }

    method SendSomeMd5sToProxy()
      modifies context, this`sends
      ensures Did(SendMd5s(old(Value())), Ok)
    {
      var nowTrans: seq<Md5> := [];
      ghost var start := context.nextToTransferMd5Index;
      var i := 0;
      while i < 128
        invariant 0 <= i <= 128
        invariant context.nextToTransferMd5Index == if start >= |context.transferingMd5s| then start else Min(start + i, |context.transferingMd5s|)
        invariant nowTrans == if start >= |context.transferingMd5s| then [] else context.transferingMd5s[start..context.nextToTransferMd5Index]
        invariant Value() == old(Value()).(next := context.nextToTransferMd5Index) && sends == old(sends)
      {
        if context.nextToTransferMd5Index >= |context.transferingMd5s| {
          break;
        }
        nowTrans := nowTrans + [context.transferingMd5s[context.nextToTransferMd5Index]];
        context.nextToTransferMd5Index := context.nextToTransferMd5Index + 1;
        i := i + 1;
      }
      ghost var end := if start >= |context.transferingMd5s| then start else Min(start + 128, |context.transferingMd5s|);
      assert context.nextToTransferMd5Index == end;
      assert SendMd5s(old(Value())).sends == [TransferBlockSet(nowTrans, end >= |context.transferingMd5s|)];
      var message: Message;
      if context.nextToTransferMd5Index >= |context.transferingMd5s| {
        message := TransferBlockSet(nowTrans, true);
        context.nextToTransferMd5Index := 0;
        context.transferingMd5s := [];
        context.state := Working;
      } else {
        message := TransferBlockSet(nowTrans, false);
      }
      Send(message);
    }

    method CleanDownloadContext(flow: FlowId) returns (outcome: Outcome)
      modifies context
      ensures Did(CleanDownload(old(Value()), flow), outcome) && sends == old(sends)
    {
      if flow !in context.downloadingContext {
        return Ok;
      }
      var m := context.downloadingContext[flow].md5;
      if m !in context.downloadingMd5s || context.downloadingMd5s[m].ref == 0 {
        return Exit;
      }
      var ref := context.downloadingMd5s[m].ref;
      context.downloadingContext := context.downloadingContext - {flow};
      ref := ref - 1;
      context.downloadingMd5s := context.downloadingMd5s[m := context.downloadingMd5s[m].(ref := ref)];
      if ref == 0 {
        context.downloadingMd5s := context.downloadingMd5s - {m};
        assert context.downloadingMd5s == old(context.downloadingMd5s) - {m};
      }
      outcome := Ok;
    }

    method CleanUploadContext(flow: FlowId)
      modifies context
      ensures Value() == old(Value()).(uploads := old(Value()).uploads - {flow})
    {
      context.uploadingContext := context.uploadingContext - {flow};
    }

    method SendSomeMd5PieceToProxy() returns (outcome: Outcome)
      modifies context, this`sends
      ensures Did(SendPiece(old(Value())), outcome)
    {
      if context.downloadingContext == map[] {
        return Ok;
      }
      var flow := Lowest(context.downloadingContext.Keys);
      var need := context.downloadingContext[flow];
      if need.md5 !in context.downloadingMd5s {
        return Exit;
      }
      var content := context.downloadingMd5s[need.md5].content;
      if context.downloadingMd5s[need.md5].ref == 0 || need.offset > |content| {
        return Exit;
      }
      if need.offset + PIECE_SIZE >= |content| {
        var tmp := content[need.offset..need.offset + (|content| - need.offset)];
        assert tmp == content[need.offset..];
        Send(TransferBlock(need.md5, need.index, true, flow, tmp));
        outcome := CleanDownloadContext(flow);
      } else {
        var tmp := content[need.offset..need.offset + PIECE_SIZE];
        Send(TransferBlock(need.md5, need.index, false, flow, tmp));
        context.downloadingContext :=
          context.downloadingContext[flow := Download(need.md5, need.offset + PIECE_SIZE, need.index + 1)];
        outcome := Ok;
      }
    }

    method OnUploadBlock(m: Md5, first: bool, flow: FlowId, last: bool, content: Bytes) returns (outcome: Outcome)
      modifies context, this`sends, this`items, this`files
      ensures Did(ServerModel.OnUploadBlock(md5, old(Value()), m, first, flow, last, content), outcome)
    {
      outcome := Ok;
      if first && flow !in context.uploadingContext {
        context.uploadingContext := context.uploadingContext[flow := Upload(Some(m), [])];
      }
      var uc := if flow in context.uploadingContext then context.uploadingContext[flow] else Upload(None, []);
      context.uploadingContext := context.uploadingContext[flow := uc.(content := uc.content + content)];
      if last {
        var all := context.uploadingContext[flow].content;
        if md5(all) != m {
          Send(UploadBlockFail(m));
        } else {
          items := items + {m};
          if m !in files {
            files := files[m := all];
          }
          Send(UploadBlockAck(m));
        }
        CleanUploadContext(flow);
        assert context.uploadingContext == old(context.uploadingContext) - {flow};
      }
    }

    method OnDownloadBlock(m: Md5, flow: FlowId) returns (outcome: Outcome)
      modifies context, this`sends
      ensures Did(ServerModel.OnDownloadBlock(old(Value()), m, flow), outcome)
    {
      if m !in context.downloadingMd5s {
        if m !in items || m !in files {
          return Exit;
        }
        context.downloadingMd5s := context.downloadingMd5s[m := Cached(1, files[m])];
      } else {
        var cached := context.downloadingMd5s[m];
        context.downloadingMd5s := context.downloadingMd5s[m := cached.(ref := cached.ref + 1)];
      }
      if flow in context.downloadingContext {
        return Exit;
      }
      context.downloadingContext := context.downloadingContext[flow := Download(m, 0, 0)];
      outcome := SendSomeMd5PieceToProxy();
    }

    method OnClientClean(flow: FlowId) returns (outcome: Outcome)
      modifies context
      ensures Did(ServerModel.OnClientClean(old(Value()), flow), outcome)
    {
      outcome := CleanDownloadContext(flow);
      if outcome != Exit {
        CleanUploadContext(flow);
      }
    }

    method OnMessage(msg: Message) returns (outcome: Outcome)
      modifies context, this`sends, this`items, this`files
      ensures Did(ServerModel.OnMessage(md5, old(Value()), msg), outcome)
    {
      match msg
      case UploadBlock(m, index, flow, eof, content) =>
        outcome := OnUploadBlock(m, index == 0, flow, eof, content);
      case DownloadBlock(m, flow) =>
        outcome := OnDownloadBlock(m, flow);
      case ClientClean(flow) =>
        outcome := OnClientClean(flow);
      case _ =>
        outcome := Close;
    }

    method OnWriteComplete() returns (outcome: Outcome)
      modifies context, this`sends
      ensures Did(ServerModel.OnWriteComplete(old(Value())), outcome)
    {
      match context.state
      case TransferingBlockSet =>
        SendSomeMd5sToProxy();
        outcome := Ok;
      case Working =>
        outcome := SendSomeMd5PieceToProxy();
      case Init =>
        outcome := Close;
    }
  }
}
