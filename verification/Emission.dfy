/** The delivery side: tokens' bytes become text on each job's stream, and each job gets exactly one
    reply, after all its text. */
module Emissions {
  import opened Wrappers
  import opened Errors
  import opened Events
  import opened Utf8

  /** A completion as its caller sees it: everything streamed before it, and the reply. */
  datatype Report = Report(id: nat, ticket: Ticket, text: Text, reply: Reply)

  // ---- What a trace of events owes its callers ----

  /** The report an event triggers, given the trace before it. */
  function Triggered(before: seq<EmissionEvent>, event: EmissionEvent): seq<Report> {
    if event.Retire? && Track(before, event.id).Live? then
      [Report(event.id, Track(before, event.id).ticket, LossyDecode(Track(before, event.id).sent), event.reply)]
    else []
  }

  /** All reports of a trace, in order. */
  function Reports(events: seq<EmissionEvent>): seq<Report> {
    if events == [] then []
    else Reports(events[..|events| - 1]) + Triggered(events[..|events| - 1], events[|events| - 1])
  }

  /** The worker's end of the channel is gone: everybody still live is answered. */
  function Closing(ids: seq<nat>): (r: seq<EmissionEvent>)
    ensures |r| == |ids|
  {
    seq(|ids|, i requires 0 <= i < |ids| => Retire(ids[i], Err(WorkerDied)))
  }

  function ReportsFor(reports: seq<Report>, id: nat): seq<Report> {
    if reports == [] then []
    else
      var last := |reports| - 1;
      ReportsFor(reports[..last], id) + if reports[last].id == id then [reports[last]] else []
  }

  /** The report an answered delivery has earned. */
  function Earned(d: Delivery, id: nat): seq<Report> {
    if d.Done? then [Report(id, d.ticket, LossyDecode(d.sent), d.reply)] else []
  }

  lemma ReportsForAppend(reports: seq<Report>, more: seq<Report>, id: nat)
    requires |more| <= 1
    ensures ReportsFor(reports + more, id) == ReportsFor(reports, id) + ReportsFor(more, id)
  {
    if more == [] {
      assert reports + more == reports;
    } else {
      assert (reports + more)[..|reports|] == reports;
      assert more[..0] == [];
    }
  }

  /** A job that has not been admitted is unknown. */
  lemma {:induction false} UnadmittedIsUnknown(events: seq<EmissionEvent>, id: nat)
    requires forall i :: 0 <= i < |events| && events[i].Admitted? ==> events[i].id != id
    ensures Track(events, id) == Unknown
  {
    if events != [] {
      UnadmittedIsUnknown(events[..|events| - 1], id);
    }
  }

  lemma {:induction false} KnownIsAdmitted(events: seq<EmissionEvent>, id: nat)
    ensures !Track(events, id).Unknown? <==> exists i :: 0 <= i < |events| && events[i].Admitted? && events[i].id == id
  {
    if events != [] {
      KnownIsAdmitted(events[..|events| - 1], id);
      var last := |events| - 1;
      assert forall i :: 0 <= i < last ==> events[..last][i] == events[i];
      if !Track(events[..last], id).Unknown? {
        var i :| 0 <= i < last && events[..last][i].Admitted? && events[..last][i].id == id;
        assert events[i].Admitted? && events[i].id == id;
      }
    }
  }

  /** Each admitted job is reported exactly once, when its delivery is answered: later events for it
      change nothing, and the text before the report is the lossy decoding of exactly the bytes sent
      for it before that point. */
  lemma {:induction false} ReportedOnce(events: seq<EmissionEvent>, id: nat)
    requires AdmittedOnce(events)
    ensures ReportsFor(Reports(events), id) == Earned(Track(events, id), id)
  {
    if events != [] {
      var last := |events| - 1;
      var before, event := events[..last], events[last];
      ReportedOnce(before, id);
      ReportsForAppend(Reports(before), Triggered(before, event), id);
      OneReport(Triggered(before, event), id);
      if event.Admitted? && event.id == id {
        forall i | 0 <= i < last && before[i].Admitted?
          ensures before[i].id != id
        {
          assert before[i] == events[i];
        }
        UnadmittedIsUnknown(before, id);
      }
    }
  }

  lemma OneReport(more: seq<Report>, id: nat)
    requires |more| <= 1
    ensures ReportsFor(more, id) == if |more| == 1 && more[0].id == id then more else []
  {
    if |more| == 1 {
      assert more[..0] == [];
    }
  }

  /** Closing answers every delivery still live, and only those. */
  lemma {:induction false} ClosingAnswers(events: seq<EmissionEvent>, ids: seq<nat>, id: nat)
    ensures var d := Track(events, id);
      Track(events + Closing(ids), id) == if d.Live? && id in ids then Done(d.ticket, d.sent, Err(WorkerDied)) else d
  {
    if ids == [] {
      assert events + Closing(ids) == events;
    } else {
      var last := |ids| - 1;
      ClosingAnswers(events, ids[..last], id);
      assert ids == ids[..last] + [ids[last]];
      assert events + Closing(ids) == (events + Closing(ids[..last])) + [Retire(ids[last], Err(WorkerDied))];
      TrackAppend(events + Closing(ids[..last]), Retire(ids[last], Err(WorkerDied)), id);
    }
  }

  // ---- The thread ----

  /** One job's delivery state: its stream, its UTF-8 cursor, and whom to answer. */
  class Stream {
    const ticket: Ticket
    const detok: Utf8Buffer
    /** What the emitter has written. */
    var text: Text

    constructor (ticket: Ticket)
      ensures Valid() && this.ticket == ticket && text == [] && detok.fed == []
      ensures fresh(detok)
    {
      this.ticket, text := ticket, [];
      detok := new Utf8Buffer();
    }

    /** Everything said by the cursor has been written. */
    ghost predicate Valid()
      reads this, detok
    {
      detok.Valid() && text == detok.said
    }

    /** Push one token's bytes through the cursor and write whatever text is now complete. */
    method Deliver(bytes: seq<Byte>)
      requires Valid()
      modifies this, detok
      ensures Valid() && detok.fed == old(detok.fed) + bytes
    {
      var out := detok.Push(bytes);
      if out.Some? {
        text := text + out.value;
      }
    }

    /** Flush the held-back bytes before the reply. */
    method Finish(id: nat, reply: Reply) returns (report: Report)
      requires Valid()
      modifies this, detok
      ensures report == Report(id, ticket, LossyDecode(old(detok.fed)), reply)
    {
      var out := detok.Finish();
      if out.Some? {
        text := text + out.value;
      }
      report := Report(id, ticket, text, reply);
    }
  }

  /** A batch delivered up to and including its `i`-th entry. */
  lemma BatchEntry(trace: seq<EmissionEvent>, batch: seq<(nat, seq<Byte>)>, i: nat, id: nat)
    requires i < |batch|
    ensures var before := Track(trace + [EmissionEvent.Tokens(batch[..i])], id);
      Track(trace + [EmissionEvent.Tokens(batch[..i + 1])], id) == Extended(before, batch[i].0 == id, batch[i].1)
  {
    TrackAppend(trace, EmissionEvent.Tokens(batch[..i]), id);
    TrackAppend(trace, EmissionEvent.Tokens(batch[..i + 1]), id);
    assert batch[..i + 1][..i] == batch[..i];
    var d := Track(trace, id);
    if d.Live? {
      assert (d.sent + BatchBytes(batch[..i], id)) + batch[i].1 == d.sent + (BatchBytes(batch[..i], id) + batch[i].1);
      assert d.sent + BatchBytes(batch[..i], id) + [] == d.sent + BatchBytes(batch[..i], id);
    }
  }

  lemma EmptyBatch(trace: seq<EmissionEvent>, id: nat)
    ensures Track(trace + [EmissionEvent.Tokens([])], id) == Track(trace, id)
  {
    TrackAppend(trace, EmissionEvent.Tokens([]), id);
    var d := Track(trace, id);
    assert d.Live? ==> d.sent + [] == d.sent;
  }

  /** A live delivery that this entry is for takes its bytes. */
  function Extended(d: Delivery, mine: bool, bytes: seq<Byte>): Delivery {
    if d.Live? && mine then Live(d.ticket, d.sent + bytes) else d
  }

  /** A live delivery that this retirement is for is answered. */
  function Closed(d: Delivery, mine: bool, reply: Reply): Delivery {
    if d.Live? && mine then Done(d.ticket, d.sent, reply) else d
  }

  lemma RetireTracks(before: seq<EmissionEvent>, id: nat, reply: Reply)
    ensures forall x: nat :: Track(before + [EmissionEvent.Retire(id, reply)], x) == Closed(Track(before, x), x == id, reply)
  {
    forall x: nat ensures Track(before + [EmissionEvent.Retire(id, reply)], x) == Closed(Track(before, x), x == id, reply) {
      TrackAppend(before, EmissionEvent.Retire(id, reply), x);
    }
  }

  lemma ReportsStep(trace: seq<EmissionEvent>, event: EmissionEvent)
    ensures Reports(trace + [event]) == Reports(trace) + Triggered(trace, event)
  {
    assert (trace + [event])[..|trace|] == trace;
  }

  class Emission {
    var live: map<nat, Stream>
    /** Completions sent, in order. */
    var replies: seq<Report>
    ghost var trace: seq<EmissionEvent>

    ghost function Streams(): set<object>
      reads this`live
    {
      live.Values + (set s | s in live.Values :: s.detok)
    }

    ghost function Repr(): set<object>
      reads this`live
    {
      {this} + Streams()
    }

    /** Every live job has its own stream and its own cursor. */
    ghost predicate Separate()
      reads this`live
    {
      forall i, j :: i in live && j in live && i != j ==> live[i] != live[j] && live[i].detok != live[j].detok
    }

    static ghost predicate Carried(stream: Stream, d: Delivery)
      reads stream, stream.detok
    {
      stream.Valid() && d == Live(stream.ticket, stream.detok.fed)
    }

    /** The streams are where the trace says the live deliveries are. */
    ghost predicate Carries(events: seq<EmissionEvent>)
      reads this`live, Streams()
    {
      && (forall id: nat :: id in live <==> Track(events, id).Live?)
      && (forall id: nat :: id in live ==> Carried(live[id], Track(events, id)))
    }

    ghost predicate Valid()
      reads Repr()
    {
      Separate() && Carries(trace) && replies == Reports(trace)
    }

    constructor ()
      ensures Valid() && trace == [] && fresh(Repr())
    {
      live, replies, trace := map[], [], [];
    }

    method Admit(id: nat, ticket: Ticket)
      requires Valid()
      modifies this
      ensures Valid() && trace == old(trace) + [Admitted(id, ticket)]
      ensures fresh(Repr() - old(Repr()))
    {
      ghost var before, event := trace, Admitted(id, ticket);
      ReportsStep(before, event);
      forall x: nat ensures Track(before + [event], x) == if x == id then Live(ticket, []) else Track(before, x) {
        TrackAppend(before, event, x);
      }
      hide Track, Reports, Carried, Carries, Separate;
      Insert(id, ticket, before, before + [event]);
      trace := before + [event];
    }

    /** Take ownership of an admitted job's delivery state. */
    method Insert(id: nat, ticket: Ticket, ghost before: seq<EmissionEvent>, ghost after: seq<EmissionEvent>)
      requires Separate() && Carries(before)
      requires forall x: nat :: Track(after, x) == if x == id then Live(ticket, []) else Track(before, x)
      modifies this`live
      ensures Separate() && Carries(after) && fresh(Repr() - old(Repr()))
    {
      hide Track, Stream.Valid;
      var stream := new Stream(ticket);
      forall x: nat | x in live
        ensures Carried(live[x], Track(before, x)) && live[x] != stream && live[x].detok != stream.detok
      {
        assert old(Carried(live[x], Track(before, x)));
      }
      assert Carried(stream, Live(ticket, []));
      hide Carried;
      live := live[id := stream];
    }

    /** One entry of a batch: a job no longer live ignores it. */
    method DeliverEntry(id: nat, bytes: seq<Byte>, ghost before: seq<EmissionEvent>, ghost after: seq<EmissionEvent>)
      requires Separate() && Carries(before)
      requires forall x: nat :: Track(after, x) == Extended(Track(before, x), id == x, bytes)
      modifies Streams()
      ensures Separate() && Carries(after)
    {
      hide Track, Stream.Valid;
      if id in live {
        assert Carried(live[id], Track(before, id));
        var stream := live[id];
        stream.Deliver(bytes);
        forall x: nat | x in live
          ensures Carried(live[x], Track(after, x))
        {
          assert old(Carried(live[x], Track(before, x)));
        }
      }
    }

    /** One round's tokens, each to its own stream. */
    method DeliverBatch(batch: seq<(nat, seq<Byte>)>)
      requires Valid()
      modifies Repr()
      ensures Valid() && trace == old(trace) + [EmissionEvent.Tokens(batch)] && live == old(live)
    {
      ghost var before, event := trace, EmissionEvent.Tokens(batch);
      ReportsStep(before, event);
      hide Track, Reports, Carried, Carries, Separate;
      assert this !in Streams();
      DeliverEntries(batch, before);
      trace := before + [event];
    }

    method DeliverEntries(batch: seq<(nat, seq<Byte>)>, ghost before: seq<EmissionEvent>)
      requires Separate() && Carries(before)
      modifies Streams()
      ensures Separate() && Carries(before + [EmissionEvent.Tokens(batch)])
    {
      forall x: nat ensures Track(before + [EmissionEvent.Tokens(batch[..0])], x) == Track(before, x) {
        EmptyBatch(before, x);
      }
      hide Track, Carried;
      for i := 0 to |batch|
        invariant Separate() && Carries(before + [EmissionEvent.Tokens(batch[..i])])
      {
        forall x: nat ensures Track(before + [EmissionEvent.Tokens(batch[..i + 1])], x)
          == Extended(Track(before + [EmissionEvent.Tokens(batch[..i])], x), batch[i].0 == x, batch[i].1)
        {
          BatchEntry(before, batch, i, x);
        }
        hide Carries;
        DeliverEntry(batch[i].0, batch[i].1, before + [EmissionEvent.Tokens(batch[..i])], before + [EmissionEvent.Tokens(batch[..i + 1])]);
      }
      assert batch[..|batch|] == batch;
    }

    /** Flush, reply once, drop the state; a job already answered is not there to answer again. */
    method Retire(id: nat, reply: Reply)
      requires Valid()
      modifies Repr()
      ensures Valid() && trace == old(trace) + [EmissionEvent.Retire(id, reply)]
      ensures live == old(live) - {id} && Repr() <= old(Repr())
    {
      assert this !in Streams();
      hide Track, Reports, Carried, Carries, Separate, Triggered, Closed, Emission.Streams;
      ghost var before, event := trace, EmissionEvent.Retire(id, reply);
      ReportsStep(before, event);
      RetireTracks(before, id, reply);
      var reports := Remove(id, reply, before, before + [event]);
      replies := replies + reports;
      trace := before + [event];
    }

    /** Finish a live job's delivery. */
    method Remove(id: nat, reply: Reply, ghost before: seq<EmissionEvent>, ghost after: seq<EmissionEvent>) returns (reports: seq<Report>)
      requires Separate() && Carries(before)
      requires forall x: nat :: Track(after, x) == Closed(Track(before, x), x == id, reply)
      modifies this`live, Streams()
      ensures Separate() && Carries(after)
      ensures reports == Triggered(before, EmissionEvent.Retire(id, reply))
      ensures live == old(live) - {id} && Streams() <= old(Streams())
    {
      hide Track, Stream.Valid;
      reports := [];
      if id in live {
        var stream := live[id];
        assert Carried(stream, Track(before, id));
        live := live - {id};
        var report := stream.Finish(id, reply);
        reports := [report];
        forall x: nat | x in live
          ensures Carried(live[x], Track(after, x))
        {
          assert old(Carried(live[x], Track(before, x)));
        }
      }
    }

    method Handle(event: EmissionEvent)
      requires Valid()
      modifies Repr()
      ensures Valid() && trace == old(trace) + [event]
      ensures fresh(Repr() - old(Repr()))
    {
      hide Track, Reports, Carried, Carries, Separate, Emission.Streams;
      match event {
        case Admitted(id, ticket) => Admit(id, ticket);
        case Tokens(batch) => DeliverBatch(batch);
        case Retire(id, reply) => Retire(id, reply);
      }
    }

    /** Answer one of those still live. */
    method CloseOne() returns (id: nat)
      requires Valid() && live != map[]
      modifies Repr()
      ensures Valid() && trace == old(trace) + [EmissionEvent.Retire(id, Err(WorkerDied))]
      ensures forall x: nat :: x in old(live) <==> x in live || x == id
      ensures |live| < |old(live)| && Repr() <= old(Repr())
    {
      hide Valid, Streams;
      id :| id in live;
      assert live.Keys == (live.Keys - {id}) + {id};
      Retire(id, Err(WorkerDied));
      assert live.Keys == old(live.Keys) - {id};
    }

    lemma LiveIsTracked()
      requires Valid()
      ensures forall id: nat :: id in live.Keys <==> Track(trace, id).Live?
    {
    }

    lemma RepliesAreReports()
      requires Valid()
      ensures replies == Reports(trace)
    {
    }

    /** The channel disconnected: flush and answer everybody still live, in whatever order. */
    method Drain() returns (ghost closing: seq<nat>)
      requires Valid()
      modifies Repr()
      ensures Valid() && trace == old(trace) + Closing(closing) && live == map[]
      ensures forall id: nat :: id in closing <==> Track(old(trace), id).Live?
    {
      closing := [];
      ghost var before := trace;
      ClosingNobody(before);
      ghost var waiting := live.Keys;
      hide Valid, Carries, Track, Streams, Closing;
      LiveIsTracked();
      while live != map[]
        invariant Valid() && trace == before + Closing(closing) && Repr() <= old(Repr())
        invariant forall id: nat :: id in waiting <==> id in live || id in closing
        decreases |live|
      {
        var id := CloseOne();
        ClosingOneMore(before, closing, id);
        closing := closing + [id];
      }
    }
  }

  lemma ClosingNobody(before: seq<EmissionEvent>)
    ensures before + Closing([]) == before
  {
  }

  lemma ClosingOneMore(before: seq<EmissionEvent>, closing: seq<nat>, id: nat)
    ensures before + Closing(closing + [id]) == (before + Closing(closing)) + [Retire(id, Err(WorkerDied))]
  {
  }

  /** The emission thread, from its start to the disconnection of the channel, which may come after
      any number of events. */
  method Run(events: seq<EmissionEvent>) returns (replies: seq<Report>, ghost closing: seq<nat>)
    ensures replies == Reports(events + Closing(closing))
    ensures forall id: nat :: id in closing <==> Track(events, id).Live?
    ensures AdmittedOnce(events) ==> forall id: nat :: ReportsFor(replies, id) == Owed(events, id)
  {
    hide Emission.Valid, Track, Reports, ReportsFor, Owed, AdmittedOnce;
    var emission := new Emission();
    for i := 0 to |events|
      invariant emission.Valid() && fresh(emission.Repr()) && emission.trace == events[..i]
    {
      emission.Handle(events[i]);
      assert events[..i + 1] == events[..i] + [events[i]];
    }
    assert events[..|events|] == events;
    closing := emission.Drain();
    emission.RepliesAreReports();
    replies := emission.replies;
    if AdmittedOnce(events) {
      forall id: nat
        ensures ReportsFor(replies, id) == Owed(events, id)
      {
        EveryCallerAnswered(events, closing, id);
      }
    }
  }

  /** What a job's caller is owed once the channel is gone: nothing if it was never admitted, otherwise
      one reply, the first sent for it or `WorkerDied`, after the text of everything sent before it. */
  function Owed(events: seq<EmissionEvent>, id: nat): seq<Report> {
    var d := Track(events, id);
    if d.Unknown? then []
    else [Report(id, d.ticket, LossyDecode(d.sent), if d.Done? then d.reply else Err(WorkerDied))]
  }

  /** Exactly one reply per admitted job, text first: the first reply sent for it if there was one,
      `WorkerDied` if the worker was gone before that; and everything its stream carried is the lossy
      decoding of exactly the bytes sent for it before that reply. */
  lemma EveryCallerAnswered(events: seq<EmissionEvent>, closing: seq<nat>, id: nat)
    requires AdmittedOnce(events) && forall x: nat :: x in closing <==> Track(events, x).Live?
    ensures ReportsFor(Reports(events + Closing(closing)), id) == Owed(events, id)
  {
    forall i, j | 0 <= i < j < |events + Closing(closing)| && (events + Closing(closing))[i].Admitted? && (events + Closing(closing))[j].Admitted?
      ensures (events + Closing(closing))[i].id != (events + Closing(closing))[j].id
    {
      assert j < |events|;
      assert events[i].id != events[j].id;
    }
    ReportedOnce(events + Closing(closing), id);
    ClosingAnswers(events, closing, id);
  }
}
