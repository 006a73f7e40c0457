/** The proxy as an object (src/proxy/proxy.cpp, include/proxy/). Each handler is proved to compute the
    function of ProxyModel; what those functions keep and promise is proved there and in the modules that
    build on it. */
module ProxyClass {
  import opened Types
  import opened FileBlocks
  import PM = ProxyModel

  class ClientContext {
    const flowId: FlowId
    var state: PM.ClientPhase
    var uploadingBlockMd5s: seq<Md5>
    var transferingStorageServers: seq<ServerId>
    var transferingBlockMd5s: seq<Md5>
    var currentTransferingBlockIndex: nat
    var succStorages: nat
    var failStorages: nat

    function Value(): PM.Client
      reads this
    {
      PM.Client(state, uploadingBlockMd5s, transferingStorageServers, transferingBlockMd5s,
                currentTransferingBlockIndex, succStorages, failStorages)
    }

    constructor (flow: FlowId)
      ensures flowId == flow && Value() == PM.NewClient
    {
      flowId, state, uploadingBlockMd5s, transferingStorageServers := flow, PM.Init, [], [];
      transferingBlockMd5s, currentTransferingBlockIndex, succStorages, failStorages := [], 0, 0, 0;
    }

    method SetState(s: PM.ClientPhase)
      modifies this`state
      ensures Value() == old(Value()).(phase := s)
    {
      state := s;
    }

    method SetUploadingBlockMd5s(md5s: seq<Md5>)
      modifies this`uploadingBlockMd5s
      ensures Value() == old(Value()).(uploading := md5s)
    {
      uploadingBlockMd5s := md5s;
    }

    method SuccFailZero()
      modifies this`succStorages, this`failStorages
      ensures Value() == old(Value()).(succ := 0, fail := 0)
    {
      succStorages, failStorages := 0, 0;
    }

    method AddVote(succ: bool)
      modifies this`succStorages, this`failStorages
      ensures Value() == PM.Voted(old(Value()), succ)
    {
      if succ {
        succStorages := succStorages + 1;
      } else {
        failStorages := failStorages + 1;
      }
    }

    method TransferingSetzero()
      modifies this`transferingStorageServers
      ensures Value() == old(Value()).(relay := [])
    {
      transferingStorageServers := [];
    }

    method PushTransferingStorageServers(s: ServerId)
      modifies this`transferingStorageServers
      ensures Value() == old(Value()).(relay := old(Value()).relay + [s])
    {
      transferingStorageServers := transferingStorageServers + [s];
    }

    method SetTransferingBlockMd5s(md5s: seq<Md5>)
      modifies this`transferingBlockMd5s
      ensures Value() == old(Value()).(needed := md5s)
    {
      transferingBlockMd5s := md5s;
    }

    /** Moving beyond the list ends the process. */
    method MoveToNextTransferBlockIndex() returns (outcome: Outcome)
      modifies this`currentTransferingBlockIndex
      ensures outcome == if old(Value()).index >= |old(Value()).needed| then Exit else Ok
      ensures outcome == Ok ==> Value() == old(Value()).(index := old(Value()).index + 1)
    {
      if currentTransferingBlockIndex >= |transferingBlockMd5s| {
        return Exit;
      }
      currentTransferingBlockIndex := currentTransferingBlockIndex + 1;
      outcome := Ok;
    }

    predicate ReadyToReplyClient()
      reads this
    {
      succStorages + failStorages == 1
    }

    /** The subtraction wraps around on an empty list. */
    predicate ContinueToTransferBlock()
      reads this
    {
      |transferingBlockMd5s| == 0 || currentTransferingBlockIndex < |transferingBlockMd5s| - 1
    }
  }

  class StorageContext {
    var state: PM.StoragePhase
    var storageMd5s: set<Md5>
    /** The callbacks by block; a callback is known by the flow it captures. */
    var blockAckCallbacks: map<Md5, seq<FlowId>>

    function Value(): PM.Storage
      reads this
    {
      PM.Storage(state, storageMd5s, blockAckCallbacks)
    }

    constructor ()
      ensures Value() == PM.NewStorage
    {
      state, storageMd5s, blockAckCallbacks := PM.WaitingBlockSet, {}, map[];
    }

    method SetState(s: PM.StoragePhase)
      modifies this`state
      ensures Value() == old(Value()).(phase := s)
    {
      state := s;
    }

    method PushStorageMd5(m: Md5)
      modifies this`storageMd5s
      ensures Value() == old(Value()).(md5s := old(Value()).md5s + {m})
    {
      storageMd5s := storageMd5s + {m};
    }

    method EraseCallbacks(block: Md5)
      modifies this`blockAckCallbacks
      ensures Value() == old(Value()).(subs := old(Value()).subs - {block})
    {
      blockAckCallbacks := blockAckCallbacks - {block};
    }

    method SubBlockAckEvent(block: Md5, flow: FlowId)
      modifies this`blockAckCallbacks
      ensures Value() == old(Value()).(subs := PM.Subscribe(old(Value()).subs, block, flow))
    {
      if block !in blockAckCallbacks {
        blockAckCallbacks := blockAckCallbacks[block := []];
      }
      blockAckCallbacks := blockAckCallbacks[block := blockAckCallbacks[block] + [flow]];
    }
  }

  class Proxy {
    const md5: Hash
    var clients: map<FlowId, ClientContext>
    var storageServers: map<ServerId, StorageContext>
    var idStorage: map<Md5, seq<Md5>>
    var counter: nat
    /** What the handler of the current event has given to send, by addressee. */
    var toClients: map<FlowId, seq<Message>>
    var toServers: map<ServerId, seq<Message>>
    /** The value of the whole state. */
    ghost var value: PM.Proxy

    ghost predicate ClientsOk()
      reads `clients, `value, clients.Values
    {
      && clients.Keys == value.clients.Keys
      && forall f :: f in clients ==>
           clients[f].flowId == f && clients[f].Value() == value.clients[f] && |clients[f].transferingStorageServers| <= 1
    }

    ghost predicate StoragesOk()
      reads `storageServers, `value, storageServers.Values
    {
      && storageServers.Keys == value.storages.Keys
      && (forall s :: s in storageServers ==> storageServers[s].Value() == value.storages[s])
      && (forall s, t :: s in storageServers && t in storageServers && storageServers[s] == storageServers[t] ==> s == t)
    }

    ghost predicate Valid()
      reads `clients, `storageServers, `idStorage, `counter, `value, clients.Values, storageServers.Values
    {
      ClientsOk() && StoragesOk() && value.ids == idStorage && value.nextFlow == counter
    }

    /** Only the context of `flow` has changed. */
    twostate lemma ClientsStay(flow: FlowId)
      requires old(ClientsOk()) && clients == old(clients) && flow in clients
      requires value.clients == old(value).clients[flow := clients[flow].Value()]
      requires |clients[flow].transferingStorageServers| <= 1
      requires forall f :: f in clients && clients[f] != clients[flow] ==> clients[f].Value() == old(clients[f].Value())
      ensures ClientsOk()
    {
      forall f | f in clients && f != flow ensures clients[f].Value() == old(clients[f].Value()) {
        assert clients[f].flowId != clients[flow].flowId;
      }
    }

    /** Only the context of `s` has changed. */
    twostate lemma StoragesStay(s: ServerId)
      requires old(StoragesOk()) && storageServers == old(storageServers) && s in storageServers
      requires value.storages == old(value).storages[s := storageServers[s].Value()]
      requires forall t :: t in storageServers && storageServers[t] != storageServers[s] ==> storageServers[t].Value() == old(storageServers[t].Value())
      ensures StoragesOk()
    {
    }

    /** No context of a server has changed. */
    twostate lemma StoragesUntouched()
      requires old(StoragesOk()) && storageServers == old(storageServers) && value.storages == old(value).storages
      requires forall s :: s in storageServers ==> unchanged(storageServers[s])
      ensures StoragesOk()
    {
    }

    /** Nothing has been given to send yet. */
    predicate Silent()
      reads `toClients, `toServers
    {
      toClients == map[] && toServers == map[]
    }

    /** The handler has had the effect `r`; a process that exits leaves no state behind. */
    ghost predicate Did(r: PM.ProxyResult, outcome: Outcome)
      reads this, clients.Values, storageServers.Values
    {
      && outcome == r.outcome
      && (outcome != Exit ==> Valid() && value == r.proxy && toClients == r.toClients && toServers == r.toServers)
    }

    constructor (h: Hash, ids: map<Md5, seq<Md5>>)
      ensures Valid() && md5 == h && value == PM.Proxy(map[], map[], ids, 0)
    {
      md5, clients, storageServers, idStorage, counter := h, map[], map[], ids, 0;
      toClients, toServers := map[], map[];
      value := PM.Proxy(map[], map[], ids, 0);
    }

    method SendToClient(flow: FlowId, msg: Message)
      modifies `toClients
      ensures toClients == Post(old(toClients), flow, msg)
      ensures flow !in old(toClients) ==> toClients == old(toClients)[flow := [msg]]
    {
      assert [] + [msg] == [msg];
      toClients := Post(toClients, flow, msg);
    }

    method SendToServer(s: ServerId, msg: Message)
      modifies `toServers
      ensures toServers == Post(old(toServers), s, msg)
      ensures s !in old(toServers) ==> toServers == old(toServers)[s := [msg]]
    {
      assert [] + [msg] == [msg];
      toServers := Post(toServers, s, msg);
    }

    // ----- Uploads -----

    lemma IndexedIs(m: Md5)
      requires StoragesOk()
      ensures PM.Indexed(value, m) <==> exists s :: s in storageServers.Keys && m in storageServers[s].storageMd5s
    {
      if s :| s in value.storages && m in value.storages[s].md5s {
        assert s in storageServers.Keys && m in storageServers[s].storageMd5s;
      }
    }

    /** Whether a connected server lists `m`, by counting those that do. */
    method CountServers(m: Md5) returns (flag: nat)
      requires StoragesOk()
      ensures flag > 0 <==> PM.Indexed(value, m)
    {
      flag := 0;
      var rest := storageServers.Keys;
      while rest != {}
        invariant rest <= storageServers.Keys
        invariant flag > 0 <==> exists s :: s in storageServers.Keys - rest && m in storageServers[s].storageMd5s
        decreases rest
      {
        var s :| s in rest;
        if m in storageServers[s].storageMd5s {
          flag := flag + 1;
        }
        rest := rest - {s};
      }
      assert storageServers.Keys - rest == storageServers.Keys;
      IndexedIs(m);
    }

    /** getNeedUploadMd5s: counts for every md5 the servers that list it, and takes those with none. */
    method GetNeedUploadMd5s(md5s: seq<Md5>) returns (need: seq<Md5>)
      requires StoragesOk()
      ensures need == PM.NeedUpload(value, md5s)
    {
      var flags: seq<nat> := [];
      while |flags| < |md5s|
        invariant |flags| <= |md5s|
        invariant forall k :: 0 <= k < |flags| ==> (flags[k] > 0 <==> PM.Indexed(value, md5s[k]))
      {
        var flag := CountServers(md5s[|flags|]);
        flags := flags + [flag];
      }
      need := TakeUnflagged(md5s, flags);
    }

    method TakeUnflagged(md5s: seq<Md5>, flags: seq<nat>) returns (need: seq<Md5>)
      requires |flags| == |md5s| && forall k :: 0 <= k < |flags| ==> (flags[k] > 0 <==> PM.Indexed(value, md5s[k]))
      ensures need == PM.NeedUpload(value, md5s)
    {
      need := [];
      var index := 0;
      while index < |md5s|
        invariant 0 <= index <= |md5s|
        invariant TakenSoFar(value, md5s, index, need)
      {
        TakeNext(value, md5s, index, need);
        if flags[index] == 0 {
          need := need + [md5s[index]];
        }
        index := index + 1;
      }
    }

    /** getFileId: the hash of the md5 texts, appended one after the other. */
    method GetFileId(md5s: seq<Md5>) returns (id: Md5)
      ensures id == FileId(md5, md5s)
    {
      var tmp: Bytes := [];
      var i := 0;
      while i < |md5s|
        invariant 0 <= i <= |md5s| && tmp + Flatten(md5s[i..]) == Flatten(md5s)
      {
        var each: Bytes := md5s[i];
        assert md5s[i..][0] == md5s[i] && md5s[i..][1..] == md5s[i + 1..];
        tmp := tmp + each;
        i := i + 1;
      }
      assert md5s[i..] == [] && tmp == Flatten(md5s);
      id := md5(tmp);
    }

    method HandleClientUploadRequest(flow: FlowId, md5s: seq<Md5>) returns (outcome: Outcome)
      requires Valid() && flow in clients && Silent()
      modifies `toClients, `value, clients[flow]
      ensures Did(PM.OnUploadRequest(old(value), flow, md5s), outcome)
    {
      UploadRequestResult(value, flow, md5s);
      SetUploading(flow, md5s);
      SameNeed(old(value), value, md5s);
      AnswerUploadRequest(flow, md5s);
      outcome := Ok;
    }

    method AnswerUploadRequest(flow: FlowId, md5s: seq<Md5>)
      requires Valid() && flow in clients && Silent()
      modifies `toClients, `value, clients[flow]
      ensures Valid() && value == PM.SetClient(old(value), flow, old(value).clients[flow].(phase := PM.WaitingUploadBlock))
      ensures toClients == map[flow := [UploadResponse(PM.NeedUpload(old(value), md5s))]] && toServers == map[]
    {
      var need := GetNeedUploadMd5s(md5s);
      SendToClient(flow, UploadResponse(need));
      SetClientState(flow, PM.WaitingUploadBlock);
    }

    method SetUploading(flow: FlowId, md5s: seq<Md5>)
      requires Valid() && flow in clients
      modifies `value, clients[flow]
      ensures Valid() && value == PM.SetClient(old(value), flow, old(value).clients[flow].(uploading := md5s))
    {
      clients[flow].SetUploadingBlockMd5s(md5s);
      value := PM.SetClient(value, flow, clients[flow].Value());
      ClientsStay(flow);
      StoragesUntouched();
    }

    /** What a first piece resets in the context of its client. */
    method StartBlock(flow: FlowId, pick: ServerId)
      requires Valid() && flow in clients
      modifies `value, clients[flow]
      ensures Valid()
      ensures value == PM.SetClient(old(value), flow, old(value).clients[flow].(succ := 0, fail := 0, relay := [pick]))
    {
      var client := clients[flow];
      client.SuccFailZero();
      client.TransferingSetzero();
      client.PushTransferingStorageServers(pick);
      assert [] + [pick] == [pick];
      value := PM.SetClient(value, flow, client.Value());
      ClientsStay(flow);
      StoragesUntouched();
    }

    method SubBlockAckEvent(s: ServerId, m: Md5, flow: FlowId)
      requires Valid() && s in storageServers
      modifies `value, storageServers[s]
      ensures Valid()
      ensures
        var x := old(value).storages[s];
        value == PM.SetStorage(old(value), s, x.(subs := PM.Subscribe(x.subs, m, flow)))
    {
      storageServers[s].SubBlockAckEvent(m, flow);
      value := PM.SetStorage(value, s, storageServers[s].Value());
      StoragesStay(s);
    }

    method HandleFirstPiece(flow: FlowId, msg: Message, pick: ServerId) returns (outcome: Outcome)
      requires Valid() && flow in clients && msg.UploadBlock? && msg.index == 0 && Silent() && pick in storageServers
      modifies `toServers, `value, clients[flow], storageServers[pick]
      ensures Did(PM.OnUploadBlock(old(value), flow, msg, pick), outcome)
    {
      FirstPieceResult(value, flow, msg, pick);
      SendToServer(pick, PM.Stamped(msg, flow));
      StartBlock(flow, pick);
      SubBlockAckEvent(pick, msg.md5, flow);
      outcome := Ok;
    }

    method HandleLaterPiece(flow: FlowId, msg: Message, pick: ServerId) returns (outcome: Outcome)
      requires Valid() && flow in clients && msg.UploadBlock? && msg.index != 0 && Silent()
      modifies `toServers
      ensures Did(PM.OnUploadBlock(old(value), flow, msg, pick), outcome)
    {
      var client := clients[flow];
      var stamped := PM.Stamped(msg, flow);
      var i := 0;
      while i < |client.transferingStorageServers|
        invariant 0 <= i <= |client.transferingStorageServers|
        invariant toServers == map s | s in client.transferingStorageServers[..i] && s in storageServers :: [stamped]
      {
        var s := client.transferingStorageServers[i];
        if s in storageServers {
          SendToServer(s, stamped);
        }
        i := i + 1;
      }
      assert client.transferingStorageServers[..i] == client.transferingStorageServers;
      outcome := Ok;
    }

    method HandleClientUploadBlock(flow: FlowId, msg: Message, pick: ServerId) returns (outcome: Outcome)
      requires Valid() && flow in clients && msg.UploadBlock? && Silent()
      requires storageServers != map[] ==> pick in storageServers
      modifies `toServers, `value, clients[flow], storageServers.Values
      ensures Did(PM.OnUploadBlock(old(value), flow, msg, pick), outcome)
    {
      if msg.index == 0 {
        if storageServers == map[] {
          assert pick !in value.storages;
          outcome := Exit;
        } else {
          outcome := HandleFirstPiece(flow, msg, pick);
        }
      } else {
        outcome := HandleLaterPiece(flow, msg, pick);
      }
    }

    method SetClientState(flow: FlowId, state: PM.ClientPhase)
      requires Valid() && flow in clients
      modifies `value, clients[flow]
      ensures Valid() && value == PM.SetClient(old(value), flow, old(value).clients[flow].(phase := state))
    {
      clients[flow].SetState(state);
      value := PM.SetClient(value, flow, clients[flow].Value());
      ClientsStay(flow);
      StoragesUntouched();
    }

    method StorageIdMd5s(id: Md5, md5s: seq<Md5>)
      requires Valid()
      modifies `idStorage, `value
      ensures Valid() && value == if id in old(value).ids then old(value) else old(value).(ids := old(value).ids[id := md5s])
    {
      if id !in idStorage {
        idStorage := idStorage[id := md5s];
        value := value.(ids := idStorage);
      }
    }

    method HandleClientUploadAllBlocks(flow: FlowId) returns (outcome: Outcome)
      requires Valid() && flow in clients && Silent()
      modifies `toClients, `idStorage, `value, clients[flow]
      ensures Did(PM.OnUploadAllBlocks(md5, old(value), flow), outcome)
    {
      var md5s := clients[flow].uploadingBlockMd5s;
      assert md5s == value.clients[flow].uploading;
      AllBlocksResult(md5, value, flow);
      var id := GetFileId(md5s);
      StorageIdMd5s(id, md5s);
      SendToClient(flow, FileStoreSucc(id));
      SetClientState(flow, PM.HaveUploadedAllBlocks);
      outcome := Ok;
    }

    // ----- Downloads -----

    /** findServersStoragedBlock */
    method FindServersStoragedBlock(m: Md5) returns (result: set<ServerId>)
      ensures result == set s | s in storageServers && m in storageServers[s].storageMd5s
    {
      result := {};
      var rest := storageServers.Keys;
      while rest != {}
        invariant rest <= storageServers.Keys
        invariant result == set s | s in storageServers.Keys - rest && m in storageServers[s].storageMd5s
        decreases rest
      {
        var s :| s in rest;
        if m in storageServers[s].storageMd5s {
          result := result + {s};
        }
        rest := rest - {s};
      }
    }

    /** `pick` is the first of the servers found, in an order that the program leaves open. */
    method RequestBlockFromStorageServer(m: Md5, flow: FlowId, pick: ServerId) returns (outcome: Outcome)
      requires Valid() && Silent()
      requires PM.Indexed(value, m) ==> pick in storageServers && m in storageServers[pick].storageMd5s
      modifies `toServers
      ensures Did(PM.RequestBlock(value, m, flow, pick), outcome)
    {
      var servers := FindServersStoragedBlock(m);
      IndexedIs(m);
      if servers == {} {
        forall s | s in storageServers.Keys ensures m !in storageServers[s].storageMd5s {
          assert s !in servers;
        }
        return Close;
      }
      assert exists s :: s in servers;
      SendToServer(pick, DownloadBlock(m, flow));
      outcome := Ok;
    }

    method GetReallyNeed(all: seq<Md5>, dontNeed: seq<Md5>) returns (need: seq<Md5>)
      ensures need == PM.ReallyNeed(all, dontNeed)
    {
      need := [];
      var i := 0;
      while i < |all|
        invariant 0 <= i <= |all|
        invariant need + PM.ReallyNeed(all[i..], dontNeed) == PM.ReallyNeed(all, dontNeed)
      {
        assert all[i..][0] == all[i] && all[i..][1..] == all[i + 1..];
        if all[i] !in dontNeed {
          need := need + [all[i]];
        }
        i := i + 1;
      }
    }

    method StartTransfer(flow: FlowId, need: seq<Md5>)
      requires Valid() && flow in clients
      modifies `value, clients[flow]
      ensures Valid()
      ensures value == PM.SetClient(old(value), flow, old(value).clients[flow].(phase := PM.WaitingTransferBlock, needed := need))
    {
      clients[flow].SetState(PM.WaitingTransferBlock);
      clients[flow].SetTransferingBlockMd5s(need);
      value := PM.SetClient(value, flow, clients[flow].Value());
      ClientsStay(flow);
      StoragesUntouched();
    }

    method HandleClientDownloadRequest(flow: FlowId, id: Md5, have: seq<Md5>, pick: ServerId) returns (outcome: Outcome)
      requires Valid() && flow in clients && Silent()
      requires clients[flow].state == PM.Init && PM.PickOk(value, flow, DownloadRequest(id, have), pick)
      modifies `toClients, `toServers, `value, clients[flow]
      ensures Did(PM.OnDownloadRequest(old(value), flow, id, have, pick), outcome)
    {
      if id !in idStorage {
        SendToClient(flow, FileNotExist(id));
        return Ok;
      }
      var need := GetReallyNeed(idStorage[id], have);
      StartTransfer(flow, need);
      var index := clients[flow].currentTransferingBlockIndex;
      assert index == old(value).clients[flow].index;
      if index >= |need| {
        return Exit;
      }
      assert PM.Wanted(old(value), flow, DownloadRequest(id, have)) == Some(need[index]);
      SameIndexed(old(value), value, need[index]);
      outcome := RequestBlockFromStorageServer(need[index], flow, pick);
    }

    method MoveToNext(flow: FlowId) returns (outcome: Outcome)
      requires Valid() && flow in clients
      modifies `value, clients[flow]
      ensures outcome == if old(value).clients[flow].index >= |old(value).clients[flow].needed| then Exit else Ok
      ensures outcome == Ok ==> Valid()
      ensures outcome == Ok ==>
                value == PM.SetClient(old(value), flow, old(value).clients[flow].(index := old(value).clients[flow].index + 1))
    {
      outcome := clients[flow].MoveToNextTransferBlockIndex();
      if outcome == Ok {
        value := PM.SetClient(value, flow, clients[flow].Value());
        ClientsStay(flow);
        StoragesUntouched();
      }
    }

    method RequestNext(flow: FlowId, pick: ServerId) returns (outcome: Outcome)
      requires Valid() && flow in clients && Silent() && PM.Continues(value.clients[flow])
      requires
        var c := value.clients[flow];
        c.index + 1 < |c.needed| && PM.Indexed(value, c.needed[c.index + 1]) ==>
          pick in storageServers && c.needed[c.index + 1] in storageServers[pick].storageMd5s
      modifies `toServers, `value, clients[flow]
      ensures Did(PM.OnTransferBlockAck(old(value), flow, pick), outcome)
    {
      ExitResult(value, flow, pick);
      outcome := MoveToNext(flow);
      if outcome == Exit || clients[flow].currentTransferingBlockIndex >= |clients[flow].transferingBlockMd5s| {
        return Exit;
      }
      assert clients[flow].Value() == value.clients[flow];
      NextRequest(old(value), value, flow, pick);
      outcome := RequestCurrent(flow, pick);
    }

    method RequestCurrent(flow: FlowId, pick: ServerId) returns (outcome: Outcome)
      requires Valid() && flow in clients && Silent() && value.clients[flow].index < |value.clients[flow].needed|
      requires
        var m := value.clients[flow].needed[value.clients[flow].index];
        PM.Indexed(value, m) ==> pick in storageServers && m in storageServers[pick].storageMd5s
      modifies `toServers
      ensures
        var m := value.clients[flow].needed[value.clients[flow].index];
        Did(PM.RequestBlock(value, m, flow, pick), outcome)
    {
      assert clients[flow].Value() == value.clients[flow];
      var next := clients[flow].transferingBlockMd5s[clients[flow].currentTransferingBlockIndex];
      outcome := RequestBlockFromStorageServer(next, flow, pick);
    }

    method FinishTransfer(flow: FlowId, ghost pick: ServerId) returns (outcome: Outcome)
      requires Valid() && flow in clients && Silent() && !PM.Continues(value.clients[flow])
      modifies `toClients, `value, clients[flow]
      ensures Did(PM.OnTransferBlockAck(old(value), flow, pick), outcome)
    {
      TransferAckResult(value, flow, pick);
      SendToClient(flow, TransferAllBlocks);
      SetClientState(flow, PM.HaveTransferedAllBlocks);
      outcome := Ok;
    }

    method HandleTransferBlockAck(flow: FlowId, m: Md5, pick: ServerId) returns (outcome: Outcome)
      requires Valid() && flow in clients && Silent()
      requires clients[flow].state == PM.WaitingTransferBlock && PM.PickOk(value, flow, TransferBlockAck(m), pick)
      modifies `toClients, `toServers, `value, clients[flow]
      ensures Did(PM.OnTransferBlockAck(old(value), flow, pick), outcome)
    {
      NextPick(value, flow, m, pick);
      assert clients[flow].Value() == value.clients[flow];
      if clients[flow].ContinueToTransferBlock() {
        outcome := RequestNext(flow, pick);
      } else {
        outcome := FinishTransfer(flow, pick);
      }
    }

    // ----- Events of clients -----

    method ClientOnConnection() returns (flow: FlowId)
      requires Valid()
      modifies this
      ensures Valid() && flow == old(counter)
      ensures value == old(value).(clients := old(value).clients[flow := PM.NewClient], nextFlow := flow + 1)
    {
      flow := counter;
      counter := counter + 1;
      var client := new ClientContext(flow);
      clients := clients[flow := client];
      value := value.(clients := value.clients[flow := PM.NewClient], nextFlow := counter);
    }

    method HandleInit(flow: FlowId, msg: Message, pick: ServerId) returns (outcome: Outcome)
      requires Valid() && flow in clients && Silent()
      requires clients[flow].state == PM.Init && PM.PickOk(value, flow, msg, pick)
      modifies `toClients, `toServers, `value, clients[flow]
      ensures Did(PM.OnClientMessage(md5, old(value), flow, msg, pick), outcome)
    {
      if msg.UploadRequest? {
        outcome := HandleClientUploadRequest(flow, msg.md5s);
      } else if msg.DownloadRequest? {
        outcome := HandleClientDownloadRequest(flow, msg.id, msg.have, pick);
      } else {
        outcome := Close;
      }
    }

    method HandleWaitingUploadBlock(flow: FlowId, msg: Message, pick: ServerId) returns (outcome: Outcome)
      requires Valid() && flow in clients && Silent()
      requires clients[flow].state == PM.WaitingUploadBlock && (storageServers != map[] ==> pick in storageServers)
      modifies `toClients, `toServers, `idStorage, `value, clients[flow], storageServers.Values
      ensures Did(PM.OnClientMessage(md5, old(value), flow, msg, pick), outcome)
    {
      if msg.UploadBlock? {
        outcome := HandleClientUploadBlock(flow, msg, pick);
      } else if msg.UploadAllBlocks? {
        outcome := HandleClientUploadAllBlocks(flow);
      } else {
        outcome := Close;
      }
    }

    method ClientOnMessage(flow: FlowId, msg: Message, pick: ServerId) returns (outcome: Outcome)
      requires Valid() && flow in clients && PM.PickOk(value, flow, msg, pick)
      modifies `toClients, `toServers, `idStorage, `value, clients[flow], storageServers.Values
      ensures Did(PM.OnClientMessage(md5, old(value), flow, msg, pick), outcome)
    {
      toClients, toServers := map[], map[];
      outcome := Dispatch(flow, msg, pick);
    }

    method Dispatch(flow: FlowId, msg: Message, pick: ServerId) returns (outcome: Outcome)
      requires Valid() && flow in clients && PM.PickOk(value, flow, msg, pick) && Silent()
      modifies `toClients, `toServers, `idStorage, `value, clients[flow], storageServers.Values
      ensures Did(PM.OnClientMessage(md5, old(value), flow, msg, pick), outcome)
    {
      assert clients[flow].Value() == value.clients[flow];
      var state := clients[flow].state;
      if state == PM.Init {
        outcome := HandleInit(flow, msg, pick);
      } else if state == PM.WaitingUploadBlock {
        outcome := HandleWaitingUploadBlock(flow, msg, pick);
      } else if state == PM.WaitingTransferBlock && msg.TransferBlockAck? {
        outcome := HandleTransferBlockAck(flow, msg.md5, pick);
      } else {
        outcome := Close;
      }
    }

    method SendToAllServers(msg: Message)
      requires toServers == map[]
      modifies `toServers
      ensures toServers == map s | s in storageServers.Keys :: [msg]
    {
      var rest := storageServers.Keys;
      while rest != {}
        invariant rest <= storageServers.Keys
        invariant toServers == map s | s in storageServers.Keys - rest :: [msg]
        decreases rest
      {
        var s :| s in rest;
        SendToServer(s, msg);
        rest := rest - {s};
      }
    }

    method EraseClient(flow: FlowId)
      requires Valid()
      modifies `clients, `value
      ensures Valid() && value == old(value).(clients := old(value).clients - {flow})
    {
      clients := clients - {flow};
      value := value.(clients := value.clients - {flow});
    }

    method ClientOnClose(flow: FlowId)
      requires Valid() && flow in clients
      modifies `clients, `toClients, `toServers, `value
      ensures Did(PM.OnClientClose(old(value), flow), Ok)
    {
      toClients, toServers := map[], map[];
      CloseResult(value, flow);
      var state := clients[flow].state;
      if state != PM.HaveUploadedAllBlocks && state != PM.HaveTransferedAllBlocks {
        SendToAllServers(ClientClean(flow));
      }
      EraseClient(flow);
    }

    // ----- Events of servers -----

    /** The callback that a first piece registers. */
    method OnBlockEvent(flow: FlowId, m: Md5, succ: bool)
      requires ClientsOk()
      modifies `toClients, `value, clients.Values
      ensures ClientsOk() && value == old(value).(clients := value.clients)
      ensures PM.Ballot(value.clients, toClients)
           == PM.CastVote(PM.Ballot(old(value).clients, old(toClients)), PM.Vote(m, flow), succ)
    {
      if flow !in clients {
        return;
      }
      var client := clients[flow];
      client.AddVote(succ);
      if client.ReadyToReplyClient() {
        if client.succStorages >= 1 {
          SendToClient(flow, UploadBlockAck(m));
        } else {
          SendToClient(flow, UploadBlockFail(m));
        }
      }
      value := PM.SetClient(value, flow, client.Value());
      ClientsStay(flow);
    }

    /** Runs the callbacks registered for one block, in the order of their registration. */
    method RunCallbacks(m: Md5, flows: seq<FlowId>, succ: bool)
      requires ClientsOk()
      modifies `toClients, `value, clients.Values
      ensures ClientsOk() && value == old(value).(clients := value.clients)
      ensures PM.Ballot(value.clients, toClients)
           == PM.CastVotes(PM.Ballot(old(value).clients, old(toClients)), PM.VotesOn(m, flows), succ)
    {
      ghost var votes := PM.VotesOn(m, flows);
      var i := 0;
      while i < |flows|
        invariant 0 <= i <= |flows| && ClientsOk() && value == old(value).(clients := value.clients)
        invariant PM.CastVotes(PM.Ballot(value.clients, toClients), votes[i..], succ)
               == PM.CastVotes(PM.Ballot(old(value).clients, old(toClients)), votes, succ)
      {
        assert votes[i..][0] == PM.Vote(m, flows[i]) && votes[i..][1..] == votes[i + 1..];
        OnBlockEvent(flows[i], m, succ);
        i := i + 1;
      }
    }

    method EraseCallbacks(s: ServerId, m: Md5)
      requires Valid() && s in storageServers
      modifies `value, storageServers[s]
      ensures Valid()
      ensures value == PM.SetStorage(old(value), s, old(value).storages[s].(subs := old(value).storages[s].subs - {m}))
    {
      storageServers[s].EraseCallbacks(m);
      value := PM.SetStorage(value, s, storageServers[s].Value());
      StoragesStay(s);
    }

    /** Runs the callbacks for `m` registered at `s`. */
    method RunAt(s: ServerId, m: Md5, succ: bool)
      requires Valid() && s in storageServers && m in storageServers[s].blockAckCallbacks
      modifies `toClients, `value, clients.Values
      ensures Valid() && value == old(value).(clients := value.clients)
      ensures PM.Ballot(value.clients, toClients)
           == PM.CastVotes(PM.Ballot(old(value).clients, old(toClients)), PM.VotesOn(m, old(value).storages[s].subs[m]), succ)
    {
      RunCallbacks(m, storageServers[s].blockAckCallbacks[m], succ);
      StoragesUntouched();
    }

    method PubBlockAckEvent(s: ServerId, m: Md5, succ: bool)
      requires Valid() && s in storageServers && Silent()
      modifies `toClients, `value, clients.Values, storageServers[s]
      ensures Did(PM.Publish(old(value), s, m, succ), Ok)
    {
      if m in storageServers[s].blockAckCallbacks {
        RunAt(s, m, succ);
        EraseCallbacks(s, m);
      }
    }

    method StorageOnConnection(s: ServerId)
      requires Valid() && s !in storageServers
      modifies `storageServers, `value
      ensures Valid() && value == PM.SetStorage(old(value), s, PM.NewStorage)
    {
      var storage := new StorageContext();
      storageServers := storageServers[s := storage];
      value := PM.SetStorage(value, s, PM.NewStorage);
    }

    method StorageOnMessage(s: ServerId, msg: Message) returns (outcome: Outcome)
      requires Valid() && s in storageServers
      modifies `toClients, `toServers, `value, clients.Values, storageServers[s]
      ensures Did(PM.OnServerMessage(old(value), s, msg), outcome)
    {
      toClients, toServers := map[], map[];
      if storageServers[s].state != PM.WaitingBlockSet {
        outcome := HandleWorking(s, msg);
      } else if msg.TransferBlockSet? {
        BlockSetResult(value, s, msg);
        PushBlockSet(s, msg.md5s, msg.eof);
        outcome := Ok;
      } else {
        outcome := Close;
      }
    }

    method HandleWorking(s: ServerId, msg: Message) returns (outcome: Outcome)
      requires Valid() && s in storageServers && Silent() && storageServers[s].state != PM.WaitingBlockSet
      modifies `toClients, `value, clients.Values, storageServers[s]
      ensures Did(PM.OnServerMessage(old(value), s, msg), outcome)
    {
      outcome := Ok;
      if msg.UploadBlockAck? {
        HandleBlockAck(s, msg.md5);
      } else if msg.UploadBlockFail? {
        PubBlockAckEvent(s, msg.md5, false);
      } else if msg.TransferBlock? {
        if msg.flow in clients {
          SendToClient(msg.flow, msg);
        }
      } else {
        outcome := Close;
      }
    }

    method HandleBlockAck(s: ServerId, m: Md5)
      requires Valid() && s in storageServers && Silent() && storageServers[s].state != PM.WaitingBlockSet
      modifies `toClients, `value, clients.Values, storageServers[s]
      ensures Did(PM.OnServerMessage(old(value), s, UploadBlockAck(m)), Ok)
    {
      AckResult(value, s, m);
      PubBlockAckEvent(s, m, true);
      PushMd5(s, m);
    }

    method PushMd5(s: ServerId, m: Md5)
      requires Valid() && s in storageServers
      modifies `value, storageServers[s]
      ensures Valid() && value == PM.Learn(old(value), s, {m})
    {
      storageServers[s].PushStorageMd5(m);
      value := PM.SetStorage(value, s, storageServers[s].Value());
      StoragesStay(s);
    }

    method PushBlockSet(s: ServerId, md5s: seq<Md5>, last: bool)
      requires Valid() && s in storageServers
      modifies `value, storageServers[s]
      ensures Valid()
      ensures
        var x := old(value).storages[s];
        value == PM.SetStorage(old(value), s, x.(md5s := x.md5s + (set m | m in md5s), phase := if last then PM.Working else x.phase))
    {
      var storage := storageServers[s];
      var i := 0;
      while i < |md5s|
        modifies storage
        invariant 0 <= i <= |md5s|
        invariant storage.Value() == old(storage.Value()).(md5s := old(storage.storageMd5s) + set m | m in md5s[..i])
      {
        storage.PushStorageMd5(md5s[i]);
        i := i + 1;
      }
      assert md5s[..i] == md5s;
      if last {
        storage.SetState(PM.Working);
      }
      value := PM.SetStorage(value, s, storage.Value());
      StoragesStay(s);
    }

    /** handleRemainEvent runs every callback still registered, block by block in the order of the map. */
    method HandleRemainEvent(callbacks: map<Md5, seq<FlowId>>, order: seq<Md5>)
      requires ClientsOk() && Enumerates(order, callbacks.Keys)
      modifies `toClients, `value, clients.Values
      ensures ClientsOk() && value == old(value).(clients := value.clients)
      ensures PM.Ballot(value.clients, toClients)
           == PM.CastVotes(PM.Ballot(old(value).clients, old(toClients)), PM.AllVotes(callbacks, order), false)
    {
      ghost var goal := PM.CastVotes(PM.Ballot(value.clients, toClients), PM.AllVotes(callbacks, order), false);
      assert order[0..] == order;
      var i := 0;
      while i < |order|
        invariant 0 <= i <= |order| && ClientsOk() && value == old(value).(clients := value.clients)
        invariant PM.CastVotes(PM.Ballot(value.clients, toClients), PM.AllVotes(callbacks, order[i..]), false) == goal
      {
        assert order[i] in callbacks;
        BlockVotes(PM.Ballot(value.clients, toClients), callbacks, order, i);
        RunCallbacks(order[i], callbacks[order[i]], false);
        i := i + 1;
      }
    }

    method FailRemaining(s: ServerId, order: seq<Md5>)
      requires Valid() && s in storageServers && Enumerates(order, storageServers[s].blockAckCallbacks.Keys)
      modifies `toClients, `value, clients.Values
      ensures Valid() && value == old(value).(clients := value.clients)
      ensures PM.Ballot(value.clients, toClients)
           == PM.CastVotes(PM.Ballot(old(value).clients, old(toClients)), PM.AllVotes(old(value).storages[s].subs, order), false)
    {
      HandleRemainEvent(storageServers[s].blockAckCallbacks, order);
      StoragesUntouched();
    }

    method EraseStorage(s: ServerId)
      requires Valid()
      modifies `storageServers, `value
      ensures Valid() && value == old(value).(storages := old(value).storages - {s})
    {
      storageServers := storageServers - {s};
      value := value.(storages := value.storages - {s});
    }

    method StorageOnClose(s: ServerId, order: seq<Md5>)
      requires Valid() && s in storageServers && Enumerates(order, storageServers[s].blockAckCallbacks.Keys)
      modifies `toClients, `toServers, `storageServers, `value, clients.Values
      ensures Did(PM.OnServerClose(old(value), s, order), Ok)
    {
      toClients, toServers := map[], map[];
      FailRemaining(s, order);
      EraseStorage(s);
    }
  }

  lemma FirstPieceResult(p: PM.Proxy, f: FlowId, msg: Message, pick: ServerId)
    requires f in p.clients && msg.UploadBlock? && msg.index == 0 && pick in p.storages
    ensures
      var x := p.storages[pick];
      PM.OnUploadBlock(p, f, msg, pick)
        == PM.ProxyResult(PM.SetStorage(PM.SetClient(p, f, p.clients[f].(succ := 0, fail := 0, relay := [pick])),
                                        pick, x.(subs := PM.Subscribe(x.subs, msg.md5, f))),
                          map[], map[pick := [PM.Stamped(msg, f)]], Ok)
  {
  }

  /** `need` is what the first `index` md5s have to be uploaded for. */
  predicate TakenSoFar(p: PM.Proxy, md5s: seq<Md5>, index: nat, need: seq<Md5>)
    requires index <= |md5s|
  {
    need + PM.NeedUpload(p, md5s[index..]) == PM.NeedUpload(p, md5s)
  }

  lemma TakeNext(p: PM.Proxy, md5s: seq<Md5>, index: nat, need: seq<Md5>)
    requires index < |md5s| && TakenSoFar(p, md5s, index, need)
    ensures TakenSoFar(p, md5s, index + 1, if PM.Indexed(p, md5s[index]) then need else need + [md5s[index]])
  {
    assert md5s[index..][0] == md5s[index] && md5s[index..][1..] == md5s[index + 1..];
  }

  lemma {:induction false} SameNeed(p: PM.Proxy, p': PM.Proxy, md5s: seq<Md5>)
    requires p'.storages == p.storages
    ensures PM.NeedUpload(p', md5s) == PM.NeedUpload(p, md5s)
  {
    if md5s != [] {
      SameIndexed(p, p', md5s[0]);
      SameNeed(p, p', md5s[1..]);
    }
  }

  lemma UploadRequestResult(p: PM.Proxy, f: FlowId, md5s: seq<Md5>)
    requires f in p.clients
    ensures
      var p' := PM.SetClient(p, f, p.clients[f].(uploading := md5s));
      PM.OnUploadRequest(p, f, md5s)
        == PM.ProxyResult(PM.SetClient(p', f, p'.clients[f].(phase := PM.WaitingUploadBlock)),
                          map[f := [UploadResponse(PM.NeedUpload(p, md5s))]], map[], Ok)
  {
    var c := p.clients[f].(uploading := md5s);
    assert p.clients[f := c][f := c.(phase := PM.WaitingUploadBlock)] == p.clients[f := c.(phase := PM.WaitingUploadBlock)];
  }

  lemma TransferAckResult(p: PM.Proxy, f: FlowId, pick: ServerId)
    requires f in p.clients
    ensures
      var c := p.clients[f];
      PM.OnTransferBlockAck(p, f, pick) ==
        if !PM.Continues(c) then
          PM.ProxyResult(PM.SetClient(p, f, c.(phase := PM.HaveTransferedAllBlocks)), map[f := [TransferAllBlocks]], map[], Ok)
        else if c.index + 1 >= |c.needed| then PM.Silent(p, Exit)
        else PM.RequestBlock(PM.SetClient(p, f, c.(index := c.index + 1)), c.needed[c.index + 1], f, pick)
  {
  }

  lemma ExitResult(p: PM.Proxy, f: FlowId, pick: ServerId)
    requires f in p.clients && PM.Continues(p.clients[f])
    ensures p.clients[f].index + 1 >= |p.clients[f].needed| ==> PM.OnTransferBlockAck(p, f, pick) == PM.Silent(p, Exit)
  {
    TransferAckResult(p, f, pick);
  }

  lemma NextRequest(p: PM.Proxy, p': PM.Proxy, f: FlowId, pick: ServerId)
    requires f in p.clients && PM.Continues(p.clients[f]) && p.clients[f].index + 1 < |p.clients[f].needed|
    requires p' == PM.SetClient(p, f, p.clients[f].(index := p.clients[f].index + 1))
    ensures
      var m := p'.clients[f].needed[p'.clients[f].index];
      && PM.OnTransferBlockAck(p, f, pick) == PM.RequestBlock(p', m, f, pick)
      && (PM.Indexed(p', m) <==> PM.Indexed(p, m)) && m == p.clients[f].needed[p.clients[f].index + 1]
  {
    TransferAckResult(p, f, pick);
    SameIndexed(p, p', p'.clients[f].needed[p'.clients[f].index]);
  }

  lemma AllBlocksResult(h: Hash, p: PM.Proxy, f: FlowId)
    requires f in p.clients
    ensures
      var c := p.clients[f];
      var id := FileId(h, c.uploading);
      var p' := if id in p.ids then p else p.(ids := p.ids[id := c.uploading]);
      PM.OnUploadAllBlocks(h, p, f)
        == PM.ProxyResult(PM.SetClient(p', f, c.(phase := PM.HaveUploadedAllBlocks)), map[f := [FileStoreSucc(id)]], map[], Ok)
  {
  }

  lemma AckResult(p: PM.Proxy, s: ServerId, m: Md5)
    requires s in p.storages && p.storages[s].phase == PM.Working
    ensures
      var r := PM.Publish(p, s, m, true);
      s in r.proxy.storages && PM.OnServerMessage(p, s, UploadBlockAck(m)) == r.(proxy := PM.Learn(r.proxy, s, {m}))
  {
  }

  lemma NextWanted(p: PM.Proxy, f: FlowId, m: Md5)
    requires f in p.clients && p.clients[f].phase == PM.WaitingTransferBlock
    ensures
      var c := p.clients[f];
      PM.Wanted(p, f, TransferBlockAck(m)) == if c.index + 1 < |c.needed| then Some(c.needed[c.index + 1]) else None
  {
  }

  lemma NextPick(p: PM.Proxy, f: FlowId, m: Md5, pick: ServerId)
    requires f in p.clients && p.clients[f].phase == PM.WaitingTransferBlock && PM.PickOk(p, f, TransferBlockAck(m), pick)
    ensures
      var c := p.clients[f];
      c.index + 1 < |c.needed| && PM.Indexed(p, c.needed[c.index + 1]) ==>
        pick in p.storages && c.needed[c.index + 1] in p.storages[pick].md5s
  {
    NextWanted(p, f, m);
  }

  lemma CloseResult(p: PM.Proxy, f: FlowId)
    requires f in p.clients
    ensures
      PM.OnClientClose(p, f) == PM.ProxyResult(p.(clients := p.clients - {f}), map[],
        if p.clients[f].phase == PM.HaveUploadedAllBlocks || p.clients[f].phase == PM.HaveTransferedAllBlocks then map[]
        else map s | s in p.storages.Keys :: [ClientClean(f)], Ok)
  {
  }

  lemma BlockSetResult(p: PM.Proxy, s: ServerId, msg: Message)
    requires s in p.storages && p.storages[s].phase == PM.WaitingBlockSet && msg.TransferBlockSet?
    ensures
      var x := p.storages[s];
      var x' := x.(md5s := x.md5s + (set m | m in msg.md5s), phase := if msg.eof then PM.Working else x.phase);
      PM.OnServerMessage(p, s, msg) == PM.Silent(p.(storages := p.storages[s := x']), Ok)
  {
  }

  lemma SameIndexed(p: PM.Proxy, p': PM.Proxy, m: Md5)
    requires p'.storages == p.storages
    ensures PM.Indexed(p', m) <==> PM.Indexed(p, m)
  {
  }

  lemma {:induction false} CastVotesAppend(b: PM.Ballot, a: seq<PM.Vote>, c: seq<PM.Vote>, succ: bool)
    ensures PM.CastVotes(b, a + c, succ) == PM.CastVotes(PM.CastVotes(b, a, succ), c, succ)
    decreases |a|
  {
    if a == [] {
      assert a + c == c;
    } else {
      assert (a + c)[0] == a[0] && (a + c)[1..] == a[1..] + c;
      CastVotesAppend(PM.CastVote(b, a[0], succ), a[1..], c, succ);
    }
  }

  lemma BlockVotes(b: PM.Ballot, subs: map<Md5, seq<FlowId>>, order: seq<Md5>, i: nat)
    requires i < |order| && order[i] in subs
    ensures PM.CastVotes(b, PM.AllVotes(subs, order[i..]), false)
         == PM.CastVotes(PM.CastVotes(b, PM.VotesOn(order[i], subs[order[i]]), false), PM.AllVotes(subs, order[i + 1..]), false)
  {
    assert order[i..][0] == order[i] && order[i..][1..] == order[i + 1..];
    CastVotesAppend(b, PM.VotesOn(order[i], subs[order[i]]), PM.AllVotes(subs, order[i + 1..]), false);
  }
}
