/** What the worker tells the emission thread, and what a job's caller is owed by a trace of it. */
module Events {
  import opened Errors

  type Byte = b: int | 0 <= b < 256

  /** The caller's one-shot completion channel. */
  type Ticket = nat

  datatype FinishReason = Stop | Length | Aborted

  datatype Reply = Ok(reason: FinishReason, generated: nat) | Err(error: InferenceError)

  datatype EmissionEvent =
    | Admitted(id: nat, ticket: Ticket)
    | Tokens(batch: seq<(nat, seq<Byte>)>)
    | Retire(id: nat, reply: Reply)

  /** Where one job stands: not admitted, streaming, or answered once and for all. */
  datatype Delivery =
    | Unknown
    | Live(ticket: Ticket, sent: seq<Byte>)
    | Done(ticket: Ticket, sent: seq<Byte>, reply: Reply)

  /** The bytes a round's batch carries for one job, in order. */
  function BatchBytes(batch: seq<(nat, seq<Byte>)>, id: nat): seq<Byte> {
    if batch == [] then []
    else
      var last := |batch| - 1;
      BatchBytes(batch[..last], id) + if batch[last].0 == id then batch[last].1 else []
  }

  function Apply(d: Delivery, event: EmissionEvent, id: nat): Delivery {
    match event
    case Admitted(i, ticket) => if i == id then Live(ticket, []) else d
    case Tokens(batch) => if d.Live? then Live(d.ticket, d.sent + BatchBytes(batch, id)) else d
    case Retire(i, reply) => if i == id && d.Live? then Done(d.ticket, d.sent, reply) else d
  }

  /** A job's standing after a whole trace. */
  function Track(events: seq<EmissionEvent>, id: nat): Delivery {
    if events == [] then Unknown
    else Apply(Track(events[..|events| - 1], id), events[|events| - 1], id)
  }

  lemma TrackAppend(events: seq<EmissionEvent>, event: EmissionEvent, id: nat)
    ensures Track(events + [event], id) == Apply(Track(events, id), event, id)
  {
    assert (events + [event])[..|events|] == events;
  }

  /** Ids are given out once... */
  ghost predicate AdmittedOnce(events: seq<EmissionEvent>) {
    forall i, j :: 0 <= i < j < |events| && events[i].Admitted? && events[j].Admitted? ==> events[i].id != events[j].id
  }

  /** ...and in order: the first `count` of them so far. */
  ghost predicate Numbered(events: seq<EmissionEvent>, count: nat) {
    AdmittedOnce(events) && forall i :: 0 <= i < |events| && events[i].Admitted? ==> events[i].id < count
  }

  ghost predicate NoAdmissions(events: seq<EmissionEvent>) {
    forall i :: 0 <= i < |events| ==> !events[i].Admitted?
  }

  lemma NumberedAppend(events: seq<EmissionEvent>, more: seq<EmissionEvent>, count: nat)
    requires Numbered(events, count) && NoAdmissions(more)
    ensures Numbered(events + more, count)
  {
  }

  lemma NumberedAdmit(events: seq<EmissionEvent>, count: nat, ticket: Ticket)
    requires Numbered(events, count)
    ensures Numbered(events + [Admitted(count, ticket)], count + 1)
  {
  }
}
