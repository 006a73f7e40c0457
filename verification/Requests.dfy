/** What the proxy answers to the first message of a client, in any state. */
module Requests {
  import opened Types
  import opened FileBlocks
  import opened ProxyModel

  // ----- Selections from a list -----

  /** `kept` is `all` at the positions `at`, in order. */
  ghost predicate SelectedAt(all: seq<Md5>, kept: seq<Md5>, at: seq<nat>) {
    && |at| == |kept| && (forall i, j :: 0 <= i < j < |at| ==> at[i] < at[j])
    && forall i :: 0 <= i < |at| ==> at[i] < |all| && kept[i] == all[at[i]]
  }

  function Shift(at: seq<nat>): seq<nat> {
    seq(|at|, i requires 0 <= i < |at| => at[i] + 1)
  }

  lemma ShiftHas(at: seq<nat>, k: nat)
    ensures k in Shift(at) <==> k > 0 && k - 1 in at
  {
    if k > 0 && k - 1 in at {
      var i :| 0 <= i < |at| && at[i] == k - 1;
      assert Shift(at)[i] == k;
    }
  }

  function Members(have: seq<Md5>): set<Md5> {
    set m | m in have
  }

  /** What the connected servers list. */
  function Listed(p: Proxy): set<Md5> {
    set s, m | s in p.storages && m in p.storages[s].md5s :: m
  }

  /** `kept` is `all` without the members of `drop`, in order. */
  ghost predicate Keeps(all: seq<Md5>, kept: seq<Md5>, at: seq<nat>, drop: set<Md5>) {
    SelectedAt(all, kept, at) && forall k :: 0 <= k < |all| ==> (k in at <==> all[k] !in drop)
  }

  /** One more element in front. */
  lemma SelectedMore(all: seq<Md5>, kept: seq<Md5>, at: seq<nat>, first: Md5, keep: bool)
    requires SelectedAt(all, kept, at)
    ensures
      var at' := (if keep then [0] else []) + Shift(at);
      && SelectedAt([first] + all, (if keep then [first] else []) + kept, at')
      && (0 in at' <==> keep) && forall k: nat :: k + 1 in at' <==> k in at
  {
    var head: seq<nat> := if keep then [0] else [];
    var at' := head + Shift(at);
    forall k: nat ensures k in at' <==> k in head || k in Shift(at) {
    }
    ShiftHas(at, 0);
    forall k: nat ensures k + 1 in at' <==> k in at {
      ShiftHas(at, k + 1);
    }
  }

  lemma KeepsAt(all: seq<Md5>, at: seq<nat>, at': seq<nat>, first: Md5, drop: set<Md5>, k: nat)
    requires forall j :: 0 <= j < |all| ==> (j in at <==> all[j] !in drop)
    requires (0 in at' <==> first !in drop) && forall j: nat :: j + 1 in at' <==> j in at
    requires k < |all| + 1
    ensures k in at' <==> ([first] + all)[k] !in drop
  {
    if k > 0 {
      var j: nat := k - 1;
      assert j + 1 in at' <==> j in at;
      assert ([first] + all)[k] == all[j];
    }
  }

  /** One more element in front, which is kept or dropped. */
  lemma KeepsMore(all: seq<Md5>, kept: seq<Md5>, rest: seq<Md5>, at: seq<nat>, drop: set<Md5>)
    requires all != [] && Keeps(all[1..], rest, at, drop) && kept == (if all[0] in drop then [] else [all[0]]) + rest
    ensures exists at' :: Keeps(all, kept, at', drop)
  {
    var keep := all[0] !in drop;
    var at' := (if keep then [0] else []) + Shift(at);
    SelectedMore(all[1..], rest, at, all[0], keep);
    assert all == [all[0]] + all[1..];
    forall k | 0 <= k < |all| ensures k in at' <==> all[k] !in drop {
      KeepsAt(all[1..], at, at', all[0], drop, k);
    }
    assert Keeps(all, kept, at', drop);
  }

  lemma {:induction false} ReallyNeedKeeps(all: seq<Md5>, have: seq<Md5>)
    ensures exists at :: Keeps(all, ReallyNeed(all, have), at, Members(have))
  {
    if all == [] {
      assert Keeps(all, ReallyNeed(all, have), [], Members(have));
    } else {
      ReallyNeedKeeps(all[1..], have);
      var at :| Keeps(all[1..], ReallyNeed(all[1..], have), at, Members(have));
      KeepsMore(all, ReallyNeed(all, have), ReallyNeed(all[1..], have), at, Members(have));
    }
  }

  lemma {:induction false} ReallyNeedCounts(all: seq<Md5>, have: seq<Md5>, m: Md5)
    ensures multiset(ReallyNeed(all, have))[m] == if m in have then 0 else multiset(all)[m]
  {
    if all != [] {
      ReallyNeedCounts(all[1..], have, m);
      assert all == [all[0]] + all[1..];
    }
  }

  /** The filter of a download request: it keeps the list in order, at exactly the positions whose block the client does
      not have already. */
  lemma ReallyNeedExactly(all: seq<Md5>, have: seq<Md5>)
    ensures exists at :: SelectedAt(all, ReallyNeed(all, have), at) && forall k :: 0 <= k < |all| ==> (k in at <==> all[k] !in have)
  {
    ReallyNeedKeeps(all, have);
    var at :| Keeps(all, ReallyNeed(all, have), at, Members(have));
  }

  /** It is the list without what the client has, each other block as often as in the list. */
  lemma ReallyNeedMembers(all: seq<Md5>, have: seq<Md5>)
    ensures forall m :: m in ReallyNeed(all, have) <==> m in all && m !in have
    ensures forall m :: m !in have ==> multiset(ReallyNeed(all, have))[m] == multiset(all)[m]
  {
    forall m ensures multiset(ReallyNeed(all, have))[m] == if m in have then 0 else multiset(all)[m] {
      ReallyNeedCounts(all, have, m);
    }
    forall m ensures m in ReallyNeed(all, have) <==> m in all && m !in have {
      assert m in ReallyNeed(all, have) <==> multiset(ReallyNeed(all, have))[m] > 0;
      assert m in all <==> multiset(all)[m] > 0;
    }
  }

  lemma ListedIndexed(p: Proxy, m: Md5)
    ensures m in Listed(p) <==> Indexed(p, m)
  {
  }

  lemma {:induction false} NeedUploadKeeps(p: Proxy, all: seq<Md5>)
    ensures exists at :: Keeps(all, NeedUpload(p, all), at, Listed(p))
  {
    if all == [] {
      assert Keeps(all, NeedUpload(p, all), [], Listed(p));
    } else {
      NeedUploadKeeps(p, all[1..]);
      var at :| Keeps(all[1..], NeedUpload(p, all[1..]), at, Listed(p));
      ListedIndexed(p, all[0]);
      KeepsMore(all, NeedUpload(p, all), NeedUpload(p, all[1..]), at, Listed(p));
    }
  }

  /** The filter of an upload request: it keeps the list in order, at exactly the positions whose block no connected server
      lists. */
  lemma NeedUploadExactly(p: Proxy, all: seq<Md5>)
    ensures exists at :: SelectedAt(all, NeedUpload(p, all), at) && forall k :: 0 <= k < |all| ==> (k in at <==> all[k] !in Listed(p))
  {
    NeedUploadKeeps(p, all);
    var at :| Keeps(all, NeedUpload(p, all), at, Listed(p));
  }

  /** The first block of the list that the client does not have, if there is one. */
  lemma {:induction false} FirstNeeded(all: seq<Md5>, have: seq<Md5>)
    ensures ReallyNeed(all, have) == [] <==> forall m :: m in all ==> m in have
    ensures forall k :: 0 <= k < |all| && all[k] !in have && (forall j :: 0 <= j < k ==> all[j] in have) ==>
              ReallyNeed(all, have) != [] && ReallyNeed(all, have)[0] == all[k]
  {
    if all != [] {
      FirstNeeded(all[1..], have);
      forall k | 0 <= k < |all| && all[k] !in have && (forall j :: 0 <= j < k ==> all[j] in have)
        ensures ReallyNeed(all, have) != [] && ReallyNeed(all, have)[0] == all[k]
      {
        if k > 0 {
          assert all[1..][k - 1] == all[k] && all[0] in have;
          forall j | 0 <= j < k - 1 ensures all[1..][j] in have {
            assert all[1..][j] == all[j + 1];
          }
        }
      }
    }
  }

  // ----- Answers -----

  /** An upload request is answered with the blocks that no connected server lists, in the order of the file. */
  lemma UploadRequestAnswered(h: Hash, p: Proxy, f: FlowId, all: seq<Md5>, pick: ServerId)
    requires f in p.clients && p.clients[f].phase == Init
    ensures
      var r := OnClientMessage(h, p, f, UploadRequest(all), pick);
      && r.outcome == Ok && r.toServers == map[] && r.toClients.Keys == {f}
      && r.proxy == p.(clients := p.clients[f := p.clients[f].(phase := WaitingUploadBlock, uploading := all)])
      && exists need, at ::
           && r.toClients[f] == [UploadResponse(need)] && SelectedAt(all, need, at)
           && forall k :: 0 <= k < |all| ==> (k in at <==> all[k] !in Listed(p))
  {
    NeedUploadExactly(p, all);
  }

  /** A download request is answered with file_not_exist if the id is not registered. Otherwise nothing goes to the client,
      and the first block of the list that it does not have is requested from a server that lists it; its session is closed if none
      does, and the process ends if it has all blocks. */
  lemma DownloadRequestAnswered(h: Hash, p: Proxy, f: FlowId, id: Md5, have: seq<Md5>, pick: ServerId)
    requires f in p.clients && p.clients[f].phase == Init && p.clients[f].index == 0 && PickOk(p, f, DownloadRequest(id, have), pick)
    ensures
      var r := OnClientMessage(h, p, f, DownloadRequest(id, have), pick);
      && (id !in p.ids ==> r == ProxyResult(p, map[f := [FileNotExist(id)]], map[], Ok))
      && (id in p.ids ==>
            && r.toClients == map[]
            && (r.outcome == Exit <==> forall m :: m in p.ids[id] ==> m in have)
            && forall k :: 0 <= k < |p.ids[id]| && p.ids[id][k] !in have && (forall j :: 0 <= j < k ==> p.ids[id][j] in have) ==>
                 var m := p.ids[id][k];
                 if Indexed(p, m) then
                   r.outcome == Ok && pick in p.storages && m in p.storages[pick].md5s && r.toServers == map[pick := [DownloadBlock(m, f)]]
                 else
                   r.outcome == Close && r.toServers == map[])
  {
    if id in p.ids {
      var need := ReallyNeed(p.ids[id], have);
      FirstNeeded(p.ids[id], have);
      if need != [] {
        var c := p.clients[f].(phase := WaitingTransferBlock, needed := need);
        assert Wanted(p, f, DownloadRequest(id, have)) == Some(need[0]);
        assert Indexed(SetClient(p, f, c), need[0]) == Indexed(p, need[0]);
      }
    }
  }
}
