/** The one-shot completion both engine bindings keep per started channel
    (LiveModule.cpp and LiveModuleProxy.cpp): a single callback slot that
    whichever of the stop and the engine's completion comes first empties
    and posts, and whose emptiness tells the second of the two to delete
    the record. */
module Handshake {
  import opened Common

  /** The record of one started channel, as far as the callback goes: its
      slot still holds the callback, or the callback has been posted and the
      slot emptied, or the record has been deleted. */
  datatype Stage = Pending(cb: CallbackId) | Spent | Gone

  /** The stage of a record whose slot is `slot`. */
  function StageOf(slot: Option<CallbackId>): (s: Stage)
    ensures s.Pending? <==> slot.Some?
    ensures s.Pending? ==> s.cb == slot.value
    ensures !s.Gone?
  {
    if slot.Some? then Pending(slot.value) else Spent
  }

  /** The stage of entry k of a binding's table, read through `slot`, the
      record's callback slot; an entry no longer in the table has been
      deleted. */
  function StageIn<K(==), R>(table: map<K, R>, k: K, slot: R -> Option<CallbackId>): (s: Stage)
    ensures s.Gone? <==> k !in table
    ensures k in table ==> s == StageOf(slot(table[k]))
  {
    if k !in table then Gone else StageOf(slot(table[k]))
  }

  /** The two events a record sees: the caller's stop, which answers with
      `operation_aborted` and an empty URL, and the engine's completion. */
  datatype Event = Stop | Completion(ec: ErrorCode, url: string)

  /** The (ec, url) an event hands the callback. */
  function Report(e: Event): (ErrorCode, string)
  {
    match e
    case Stop => (OperationAborted, "")
    case Completion(ec, url) => (ec, url)
  }

  /** One event on a record: a pending callback is posted with the event's
      (ec, url) and the slot emptied; a record whose slot is already empty is
      deleted. A deleted record sees no further event, so that case only
      closes the definition. Returns the new stage and the posts made: no
      event leaves a callback pending, and one is posted exactly when one
      was pending. */
  function Step(s: Stage, e: Event): (r: (Stage, seq<Post>))
    ensures !r.0.Pending?
    ensures |r.1| <= 1 && (r.1 != [] <==> s.Pending?)
    ensures s.Pending? ==> r.1[0].callback == s.cb
  {
    match s
    case Pending(cb) => (Spent, [Post(cb, Report(e).0, Report(e).1)])
    case Spent => (Gone, [])
    case Gone => (Gone, [])
  }

  /** Whichever event comes first, a pending callback is posted exactly once,
      with the first event's (ec, url), and the second event deletes the
      record; this holds for a stop followed by the completion and for the
      completion followed by a stop. */
  lemma OneShot(cb: CallbackId, e1: Event, e2: Event)
    ensures var (s1, ps1) := Step(Pending(cb), e1);
      var (s2, ps2) := Step(s1, e2);
      && ps1 + ps2 == [Post(cb, Report(e1).0, Report(e1).1)]
      && s1 == Spent && s2 == Gone
  {
    var (s1, ps1) := Step(Pending(cb), e1);
    assert ps1 + [] == ps1;
  }
}
