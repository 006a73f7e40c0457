/** How a server announces the blocks it stores: at most 128 to a message. */
module BlockSets {
  import opened Types
  import opened ServerModel

  /** One message: it carries exactly the next 128 names, or all that are left if these are fewer, and it is marked as the
      last if and only if none are left behind it; then the server is working. */
  lemma BlockSetExactly(sv: Server)
    requires sv.next <= |sv.toSend|
    ensures
      var n := if |sv.toSend| - sv.next < 128 then |sv.toSend| - sv.next else 128;
      var last := sv.next + n == |sv.toSend|;
      var r := SendMd5s(sv);
      && r.outcome == Ok && r.sends == [TransferBlockSet(sv.toSend[sv.next..sv.next + n], last)]
      && (last ==> r.server.phase == Working && r.server.toSend == [])
      && (!last ==> r.server == sv.(next := sv.next + 128))
  {
    assert sv.toSend[|sv.toSend|..|sv.toSend|] == [];
  }

  /** All the messages of one announcement, from the state before the first. */
  function Announcement(sv: Server): seq<Message>
    requires sv.next <= |sv.toSend|
    decreases |sv.toSend| - sv.next
  {
    var r := SendMd5s(sv);
    if |sv.toSend| - sv.next <= 128 then r.sends else r.sends + Announcement(r.server)
  }

  function Names(msgs: seq<Message>): seq<Md5> {
    if msgs == [] then [] else (if msgs[0].TransferBlockSet? then msgs[0].md5s else []) + Names(msgs[1..])
  }

  /** A list of n names is announced in full and in order, in max(1, ceil(n / 128)) messages, of which the last and no
      other is marked. */
  lemma {:induction false} AnnouncedExactly(sv: Server)
    requires sv.next <= |sv.toSend|
    ensures
      var ms, n := Announcement(sv), |sv.toSend| - sv.next;
      && |ms| == (if n == 0 then 1 else (n + 127) / 128)
      && Names(ms) == sv.toSend[sv.next..]
      && forall i :: 0 <= i < |ms| ==>
           ms[i].TransferBlockSet? && (ms[i].eof <==> i == |ms| - 1) && (i < |ms| - 1 ==> |ms[i].md5s| == 128) && |ms[i].md5s| <= 128
    decreases |sv.toSend| - sv.next
  {
    var r, ms := SendMd5s(sv), Announcement(sv);
    BlockSetExactly(sv);
    if |sv.toSend| - sv.next <= 128 {
      assert ms == r.sends && ms[1..] == [];
    } else {
      var rest := Announcement(r.server);
      AnnouncedExactly(r.server);
      assert ms == [r.sends[0]] + rest && ms[1..] == rest;
      assert Names(ms) == r.sends[0].md5s + Names(rest);
      assert sv.toSend[sv.next..] == sv.toSend[sv.next..sv.next + 128] + sv.toSend[sv.next + 128..];
      forall i | 1 <= i < |ms| ensures ms[i] == rest[i - 1] {
      }
    }
  }
}
