/** Byte strings, md5 names, the protocol's messages, and a few facts about sequences. */
module Types {

  newtype byte = x: int | 0 <= x < 256

  type Bytes = seq<byte>

  /** The text form of an md5 (Md5Info asserts that it has 32 characters). */
  type Md5 = s: Bytes | |s| == 32 witness seq(32, _ => 0 as byte)

  /** MD5 is a parameter of the model. Nothing is assumed about it; where the absence of
      collisions matters it is a hypothesis about the finitely many strings of one run. */
  type Hash = Bytes -> Md5

  type FlowId = nat
  type ServerId = nat

  datatype Option<+T> = None | Some(value: T)

  /** How a handler ends: normally, by closing its connection, or by ending the process (a failed
      assertion, a call of exit, or an access the language leaves undefined). */
  datatype Outcome = Ok | Close | Exit

  datatype Message =
    | UploadRequest(md5s: seq<Md5>)
    | UploadResponse(md5s: seq<Md5>)
    | UploadBlock(md5: Md5, index: nat, flow: FlowId, eof: bool, content: Bytes)
    | UploadBlockAck(md5: Md5)
    | UploadBlockFail(md5: Md5)
    | UploadAllBlocks
    | FileStoreSucc(id: Md5)
    | FileStoreFail(id: Md5)
    | TransferBlockSet(md5s: seq<Md5>, eof: bool)
    | DownloadRequest(id: Md5, have: seq<Md5>)
    | DownloadBlock(md5: Md5, flow: FlowId)
    | FileNotExist(id: Md5)
    | TransferBlock(md5: Md5, index: nat, eof: bool, flow: FlowId, content: Bytes)
    | TransferBlockAck(md5: Md5)
    | TransferAllBlocks
    | ClientClean(flow: FlowId)

  const BLOCK_SIZE: nat := 64 * 1024 * 1024
  const PIECE_SIZE: nat := 4096

  function Min(a: nat, b: nat): nat {
    if a <= b then a else b
  }

  function Flatten(parts: seq<Bytes>): Bytes {
    if parts == [] then [] else parts[0] + Flatten(parts[1..])
  }

  lemma {:induction false} FlattenAppend(a: seq<Bytes>, b: seq<Bytes>)
    ensures Flatten(a + b) == Flatten(a) + Flatten(b)
  {
    if a == [] {
      assert a + b == b;
    } else {
      FlattenAppend(a[1..], b);
      assert (a + b)[1..] == a[1..] + b;
    }
  }

  /** `order` lists the members of `s`, each once: the order in which a container is walked. */
  ghost predicate Enumerates<T(!new)>(order: seq<T>, s: set<T>) {
    && (forall x :: x in order <==> x in s)
    && (forall i, j :: 0 <= i < j < |order| ==> order[i] != order[j])
  }

  /** The messages addressed to one peer by a handler that writes to several. */
  function Mail<K>(mail: map<K, seq<Message>>, k: K): seq<Message> {
    if k in mail then mail[k] else []
  }

  function Post<K>(mail: map<K, seq<Message>>, k: K, msg: Message): map<K, seq<Message>> {
    mail[k := Mail(mail, k) + [msg]]
  }

  ghost predicate NoCollision(h: Hash, contents: set<Bytes>) {
    forall a, b :: a in contents && b in contents && h(a) == h(b) ==> a == b
  }
}
