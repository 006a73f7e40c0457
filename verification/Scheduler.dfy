/** What a client sees of a server's scheduler: whatever requests, uploads, cancellations and write completions come
    between, the pieces of its block, all of them and in order. */
module Scheduler {
  import opened Types
  import opened FileBlocks
  import opened ServerModel

  datatype Event = Receives(msg: Message) | WriteCompletes

  function Handle(h: Hash, sv: Server, ev: Event): ServerResult {
    match ev
    case Receives(msg) => OnMessage(h, sv, msg)
    case WriteCompletes => OnWriteComplete(sv)
  }

  /** Every request comes for a stored block, on a flow that is not being served. */
  ghost predicate AllAcceptable(h: Hash, sv: Server, evs: seq<Event>)
    decreases |evs|
  {
    evs != [] ==> (evs[0].Receives? ==> Acceptable(sv, evs[0].msg)) && AllAcceptable(h, Handle(h, sv, evs[0]).server, evs[1..])
  }

  function AfterAll(h: Hash, sv: Server, evs: seq<Event>): Server
    decreases |evs|
  {
    if evs == [] then sv else AfterAll(h, Handle(h, sv, evs[0]).server, evs[1..])
  }

  function SentIn(h: Hash, sv: Server, evs: seq<Event>): seq<Message>
    decreases |evs|
  {
    if evs == [] then [] else Handle(h, sv, evs[0]).sends + SentIn(h, Handle(h, sv, evs[0]).server, evs[1..])
  }

  /** The pieces of the blocks that flow `f` asks for. */
  function AskedIn(h: Hash, sv: Server, evs: seq<Event>, f: FlowId): seq<Message>
    decreases |evs|
  {
    if evs == [] then []
    else (if evs[0].Receives? then Asked(sv.files, [evs[0].msg], f) else []) + AskedIn(h, Handle(h, sv, evs[0]).server, evs[1..], f)
  }

  lemma HandleConserves(h: Hash, sv: Server, ev: Event, f: FlowId)
    requires ServerOk(h, sv) && (ev.Receives? ==> Acceptable(sv, ev.msg)) && ev != Receives(ClientClean(f))
    ensures
      var r := Handle(h, sv, ev);
      && ServerOk(h, r.server)
      && PiecesFor(r.sends, f) + Remaining(r.server, f) == Remaining(sv, f) + (if ev.Receives? then Asked(sv.files, [ev.msg], f) else [])
  {
    match ev
    case Receives(msg) =>
      OnMessageKeeps(h, sv, msg);
      OnMessageConserves(h, sv, msg, f);
    case WriteCompletes =>
      OnWriteCompleteKeeps(h, sv);
      OnWriteCompleteConserves(h, sv, f);
  }

  /** Over any sequence of events that does not cancel the flow: what it has been sent, followed by what it has still to
      get, is what it had to get at first and what it has asked for since. */
  lemma {:induction false} SequenceConserves(h: Hash, sv: Server, evs: seq<Event>, f: FlowId)
    requires ServerOk(h, sv) && AllAcceptable(h, sv, evs) && Receives(ClientClean(f)) !in evs
    ensures ServerOk(h, AfterAll(h, sv, evs))
    ensures PiecesFor(SentIn(h, sv, evs), f) + Remaining(AfterAll(h, sv, evs), f) == Remaining(sv, f) + AskedIn(h, sv, evs, f)
    decreases |evs|
  {
    if evs != [] {
      var r := Handle(h, sv, evs[0]);
      HandleConserves(h, sv, evs[0], f);
      SequenceConserves(h, r.server, evs[1..], f);
      var asked := if evs[0].Receives? then Asked(sv.files, [evs[0].msg], f) else [];
      var later, rest := SentIn(h, r.server, evs[1..]), Remaining(AfterAll(h, sv, evs), f);
      PiecesForAppend(r.sends, later, f);
      Associates(PiecesFor(r.sends, f), PiecesFor(later, f), rest);
      Associates(PiecesFor(r.sends, f), Remaining(r.server, f), AskedIn(h, r.server, evs[1..], f));
      Associates(Remaining(sv, f), asked, AskedIn(h, r.server, evs[1..], f));
    }
  }

  lemma {:induction false} NothingAskedIn(h: Hash, sv: Server, evs: seq<Event>, f: FlowId)
    requires forall ev :: ev in evs && ev.Receives? && ev.msg.DownloadBlock? ==> ev.msg.flow != f
    ensures AskedIn(h, sv, evs, f) == []
    decreases |evs|
  {
    if evs != [] {
      assert evs[0] in evs;
      if evs[0].Receives? {
        AskedOne(sv.files, evs[0].msg, f);
      }
      NothingAskedIn(h, Handle(h, sv, evs[0]).server, evs[1..], f);
    }
  }

  lemma OneAskedIn(h: Hash, sv: Server, evs: seq<Event>, m: Md5, f: FlowId)
    requires m in sv.files
    requires forall ev :: ev in evs && ev.Receives? && ev.msg.DownloadBlock? ==> ev.msg.flow != f
    ensures AskedIn(h, sv, [Receives(DownloadBlock(m, f))] + evs, f) == Pieces(m, f, sv.files[m], 0, 0)
  {
    var all := [Receives(DownloadBlock(m, f))] + evs;
    assert all[1..] == evs;
    AskedOne(sv.files, all[0].msg, f);
    NothingAskedIn(h, Handle(h, sv, all[0]).server, evs, f);
    assert Pieces(m, f, sv.files[m], 0, 0) + [] == Pieces(m, f, sv.files[m], 0, 0);
  }

  /** A client that asks for a stored block, and is not cancelled and does not ask again, is sent the pieces of that block
      in order and nothing else: a part of them as long as the server has a context for it, and all of them after. */
  lemma ServedInFull(h: Hash, sv: Server, evs: seq<Event>, m: Md5, f: FlowId)
    requires ServerOk(h, sv) && m in sv.files && f !in sv.downloads
    requires AllAcceptable(h, sv, [Receives(DownloadBlock(m, f))] + evs)
    requires forall ev :: ev in evs && ev.Receives? ==> ev.msg != ClientClean(f) && (ev.msg.DownloadBlock? ==> ev.msg.flow != f)
    ensures
      var all := [Receives(DownloadBlock(m, f))] + evs;
      && PiecesFor(SentIn(h, sv, all), f) <= Pieces(m, f, sv.files[m], 0, 0)
      && (f !in AfterAll(h, sv, all).downloads <==> PiecesFor(SentIn(h, sv, all), f) == Pieces(m, f, sv.files[m], 0, 0))
  {
    var all := [Receives(DownloadBlock(m, f))] + evs;
    OneAskedIn(h, sv, evs, m, f);
    SequenceConserves(h, sv, all, f);
    var sv' := AfterAll(h, sv, all);
    assert [] + Pieces(m, f, sv.files[m], 0, 0) == Pieces(m, f, sv.files[m], 0, 0);
    if f in sv'.downloads {
      RemainingCount(h, sv', f);
      assert |PiecesFor(SentIn(h, sv, all), f)| < |Pieces(m, f, sv.files[m], 0, 0)|;
    }
  }
}
