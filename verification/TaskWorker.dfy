/** A worker handling one delivery: claim, run the handler, record, publish, mark, acknowledge. */
module TaskWorker {
  import opened Wrappers
  import opened TaskTables
  import opened Database
  import opened Protocol

  // ---------- What a delivery leads to ----------

  /** A recorded result is replayed as the very event that was recorded, by whichever worker gets
      the message again; nobody can record another one, and once it is marked the delivery is
      merely acknowledged. */
  lemma ReplayRepeatsEvent(t: Tables, m: TaskMessage, e: Event, w: string, at: Time, expiresAt: Time)
    requires e == EventOf(m, e.id, e.outcome) && RecordResult(t, e).Ok? && ClaimAttempt(t, m, w, at, expiresAt).Ok?
    ensures var t' := RecordResult(t, e).value;
            && ClaimAttempt(t', m, w, at, expiresAt) == Ok((ResultAvailable, t'))
            && EventFromResult(m, t'.attempts[m.attempt]) == Ok(e)
            && (forall f: Event :: f.attempt == m.attempt ==> RecordResult(t', f).Err?)
            && MarkCompleted(t', m.attempt).Ok?
            && ClaimAttempt(MarkCompleted(t', m.attempt).value, m, w, at, expiresAt)
               == Ok((AlreadyCompleted, MarkCompleted(t', m.attempt).value))
  {
  }

  /** How far a delivery has come. */
  datatype Progress = Progress(rows: Tables, published: seq<Event>, acknowledged: bool)

  function Start(t: Tables): Progress { Progress(t, [], false) }

  // The actions of a delivery are 0 claim, 1 record or read the result, 2 publish, 3 mark and
  // 4 acknowledge.

  function Alone(): Others { (i, t) => t }

  // Publication, marking and acknowledgement of an event, cut off before action `life`.
  function Publish(t: Tables, e: Event, life: nat, others: Others): Progress {
    if life <= 2 then Start(t)
    else if life == 3 then Progress(others(2, t), [e], false)
    else
      var found := others(3, others(2, t));
      match MarkCompleted(found, e.attempt)
      case Err(_) => Progress(found, [e], false)
      case Ok(marked) => if life == 4 then Progress(marked, [e], false) else Progress(others(4, marked), [e], true)
  }

  // The handling of a granted claim.
  function Execute(claimed: Tables, e: Event, life: nat, others: Others): Progress {
    if life <= 1 then Start(claimed)
    else
      match RecordResult(others(1, claimed), e)
      case Err(_) => Start(others(1, claimed))
      case Ok(recorded) => Publish(recorded, e, life, others)
  }

  // The result a worker reads in order to replay it.
  function StoredEvent(t: Tables, m: TaskMessage): Result<Event, StoreError> {
    if m.attempt in t.attempts then EventFromResult(m, t.attempts[m.attempt]) else Err(AttemptNotFound)
  }

  function Replay(t: Tables, m: TaskMessage, life: nat, others: Others): Progress {
    if life <= 1 then Start(t)
    else
      match StoredEvent(others(1, t), m)
      case Err(_) => Start(others(1, t))
      case Ok(stored) => Publish(others(1, t), stored, life, others)
  }

  /** One delivery among other processes, cut off before action `life`. */
  function Handle(t: Tables, m: TaskMessage, worker: string, at: Time, lease: Time, e: Event, life: nat, others: Others): Progress {
    if life == 0 then Start(t)
    else
      match ClaimAttempt(t, m, worker, at, at + lease)
      case Err(_) => Start(t)
      case Ok((ClaimGranted, claimed)) => Execute(claimed, e, life, others)
      case Ok((ResultAvailable, _)) => Replay(t, m, life, others)
      case Ok((_, _)) => if life == 1 then Start(t) else Progress(others(1, t), [], true)
  }

  class Processor {
    const worker: string
    const lease: Time
    // Everything the completion stream was given by this worker.
    var completions: seq<Event>
    // Deliveries acknowledged.
    var acknowledged: nat

    constructor (worker: string, lease: Time)
      ensures this.worker == worker && this.lease == lease && completions == [] && acknowledged == 0
    {
      this.worker, this.lease, completions, acknowledged := worker, lease, [], 0;
    }

    // The other processes act.
    method Await(db: Session, others: Others, i: nat)
      modifies db`tasks, db`attempts, db`dispatches
      ensures db.Rows() == others(i, old(db.Rows()))
    {
      var t := others(i, Tables(db.tasks, db.attempts, db.dispatches));
      db.tasks, db.attempts, db.dispatches := t.tasks, t.attempts, t.dispatches;
    }

    /** Nothing is marked or acknowledged before it is published, and nothing is acknowledged unless
        the worker itself has found the result recorded and marked it. */
    method PublishCompleteAndAck(db: Session, e: Event, life: nat, others: Others)
      modifies db`tasks, db`attempts, db`dispatches, this
      ensures life <= 2 ==> db.Rows() == old(db.Rows()) && completions == old(completions)
      ensures life >= 3 ==> completions == old(completions) + [e]
      ensures var found := others(3, others(2, old(db.Rows())));
              acknowledged == old(acknowledged)
                + if life >= 5 && e.attempt in found.attempts && found.attempts[e.attempt].status.ResultRecorded? then 1 else 0
      ensures var p := Publish(old(db.Rows()), e, life, others);
              && db.Rows() == p.rows && completions == old(completions) + p.published
              && acknowledged == old(acknowledged) + (if p.acknowledged then 1 else 0)
    {
      if life <= 2 {
        return;
      }
      Await(db, others, 2);
      completions := completions + [e];
      if life == 3 {
        return;
      }
      Await(db, others, 3);
      var marked := db.MarkCompleted(e.attempt);
      if marked.Err? || life == 4 {
        return;
      }
      Await(db, others, 4);
      acknowledged := acknowledged + 1;
    }

    /** Handles one delivery. `e` is the event made from what the handler returns or raises, the
        other processes act before every action, and this one dies before action `life` unless it
        is done before. */
    method Process(db: Session, m: TaskMessage, at: Time, e: Event, life: nat, others: Others)
      requires e == EventOf(m, e.id, e.outcome)
      modifies db`tasks, db`attempts, db`dispatches, this
      ensures var p := Handle(old(db.Rows()), m, worker, at, lease, e, life, others);
              && db.Rows() == p.rows && completions == old(completions) + p.published
              && acknowledged == old(acknowledged) + (if p.acknowledged then 1 else 0)
    {
      hide Publish, EventFromResult, TaskTables.MarkCompleted, TaskTables.RecordResult;
      if life == 0 {
        return;
      }
      var claim := db.ClaimAttempt(m, worker, at, at + lease);
      if claim.Err? || life == 1 {
        return;
      }
      Await(db, others, 1);
      match claim.value {
        case ClaimGranted =>
          var recorded := db.RecordResult(e);
          if recorded.Ok? {
            PublishCompleteAndAck(db, e, life, others);
          }
        case ResultAvailable =>
          var stored := StoredEvent(Tables(db.tasks, db.attempts, db.dispatches), m);
          if stored.Ok? {
            PublishCompleteAndAck(db, stored.value, life, others);
          }
        case _ => acknowledged := acknowledged + 1;
      }
    }
  }

  // ---------- Acknowledgement among other processes ----------

  // What a delivery finds when it comes to record or to read a result, and what it publishes.
  function ToPublish(t: Tables, m: TaskMessage, worker: string, at: Time, lease: Time, e: Event, others: Others): Option<(Event, Tables)> {
    match ClaimAttempt(t, m, worker, at, at + lease)
    case Ok((ClaimGranted, claimed)) =>
      (match RecordResult(others(1, claimed), e) case Ok(recorded) => Some((e, recorded)) case Err(_) => None)
    case Ok((ResultAvailable, _)) =>
      (match StoredEvent(others(1, t), m) case Ok(stored) => Some((stored, others(1, t))) case Err(_) => None)
    case _ => None
  }

  /** Whatever other processes do, a delivery publishes exactly the event it has recorded or read, and
      it is acknowledged exactly when it has nothing to do, or when it lives and its worker is the one
      that marks the result: nobody has marked it or noted its failure before. */
  lemma AcknowledgedIff(t: Tables, m: TaskMessage, worker: string, at: Time, lease: Time, e: Event, life: nat, others: Others)
    requires ClaimAttempt(t, m, worker, at, at + lease).Ok?
    ensures var p := Handle(t, m, worker, at, lease, e, life, others);
            var outcome := ClaimAttempt(t, m, worker, at, at + lease).value.0;
            var g := ToPublish(t, m, worker, at, lease, e, others);
            && p.published == (if life >= 3 && g.Some? then [g.value.0] else [])
            && (p.acknowledged <==>
                  || (life >= 2 && (outcome.AlreadyCompleted? || outcome.CurrentlyClaimed?))
                  || (life >= 5 && g.Some? && MarkCompleted(others(3, others(2, g.value.1)), g.value.0.attempt).Ok?))
  {
  }

  /** Another worker that replays the result and marks it first keeps the one that recorded it from
      acknowledging, be it a success or a failure. */
  lemma MarkedFirst(t: Tables, m: TaskMessage, worker: string, at: Time, lease: Time, e: Event, life: nat)
    requires e == EventOf(m, e.id, e.outcome)
    requires ClaimAttempt(t, m, worker, at, at + lease).Ok? && ClaimAttempt(t, m, worker, at, at + lease).value.0.ClaimGranted?
    ensures var p := Handle(t, m, worker, at, lease, e, life, MarksBefore(m.attempt));
            && !p.acknowledged && (life >= 3 ==> p.published == [e])
            && (life >= 4 ==> m.attempt in p.rows.attempts && p.rows.attempts[m.attempt].status.Done?)
  {
    var others := MarksBefore(m.attempt);
    var claimed := ClaimAttempt(t, m, worker, at, at + lease).value.1;
    assert others(1, claimed) == claimed;
    var recorded := RecordResult(claimed, e).value;
    assert others(2, recorded) == recorded;
    assert others(3, recorded) == MarkCompleted(recorded, m.attempt).value;
    AcknowledgedIff(t, m, worker, at, lease, e, life, others);
  }

  // Another worker marks the attempt, if it can, just before this one comes to do so.
  function MarksBefore(attempt: Uuid): Others {
    (i, u) => if i == 3 && MarkCompleted(u, attempt).Ok? then MarkCompleted(u, attempt).value else u
  }

  // ---------- The orchestrator takes note ----------

  /** What the orchestrator makes of a published event in the task tables. */
  function Noted(t: Tables, e: Event, max: int, retryAt: Time, next: Uuid): Tables {
    match e.outcome
    case Succeeded(_) => (match RecordSuccess(t, e.task, e.attempt, e.id) case Ok((_, t')) => t' case Err(_) => t)
    case Errored(error) =>
      match RecordFailure(t, e.task, e.attempt, e.id, error, max, retryAt, next) case Ok((_, t')) => t' case Err(_) => t
  }

  /** The orchestrator takes note of the event after its publication and before its marking, or
      between its marking and the acknowledgement, or both. */
  function Notes(e: Event, early: bool, late: bool, max: int, retryAt: Time, next: Uuid): Others {
    (i, t) => if (i == 3 && early) || (i == 4 && late) then Noted(t, e, max, retryAt, next) else t
  }

  // The event is a failure that the orchestrator does not know.
  predicate FailureToNote(t: Tables, e: Event) {
    e.outcome.Errored? && e.attempt in t.attempts && t.attempts[e.attempt].failureEvent.None? && !FailureKnown(t, e.id)
  }

  // The row holds the outcome of the event.
  predicate HoldsEvent(t: Tables, e: Event) {
    && e.attempt in t.attempts && e.task in t.tasks && t.attempts[e.attempt].task == e.task
    && (t.attempts[e.attempt].status.ResultRecorded? || t.attempts[e.attempt].status.Done?)
    && t.attempts[e.attempt].completionEvent == Some(e.id)
    && t.attempts[e.attempt].errorMessage == MessageOf(e.outcome) && t.attempts[e.attempt].errorKind == KindOf(e.outcome)
  }

  /** Noting an event whose outcome the row holds: a failure that is news marks the attempt failed,
      anything else changes nothing. */
  lemma NotingMeans(t: Tables, e: Event, max: int, retryAt: Time, next: Uuid)
    requires HoldsEvent(t, e) && max >= 1 && next !in t.attempts
    ensures var t' := Noted(t, e, max, retryAt, next);
            && (!FailureToNote(t, e) ==> t' == t)
            && (FailureToNote(t, e) ==>
                  && e.attempt in t'.attempts
                  && t'.attempts[e.attempt] == t.attempts[e.attempt].(status := Broken, failureEvent := Some(e.id))
                  && e.task in t'.tasks && t'.tasks[e.task].execution == t.tasks[e.task].execution
                  && t'.tasks[e.task].node == t.tasks[e.task].node)
  {
  }

  // ---------- What an acknowledgement means ----------

  // Marking leaves everything the orchestrator looks at as it is.
  lemma MarkedHolds(t: Tables, e: Event)
    requires HoldsEvent(t, e) && t.attempts[e.attempt].status.ResultRecorded?
    ensures MarkCompleted(t, e.attempt).Ok?
    ensures var t' := MarkCompleted(t, e.attempt).value;
            && HoldsEvent(t', e) && t'.attempts[e.attempt].status.Done?
            && (FailureToNote(t', e) <==> FailureToNote(t, e)) && t'.attempts.Keys == t.attempts.Keys
  {
    var t' := MarkCompleted(t, e.attempt).value;
    SameFailures(t, t', e.id);
  }

  lemma SameFailures(t: Tables, t': Tables, id: Uuid)
    requires t'.attempts.Keys == t.attempts.Keys
    requires forall a :: a in t.attempts ==> t'.attempts[a].failureEvent == t.attempts[a].failureEvent
    ensures FailureKnown(t', id) <==> FailureKnown(t, id)
  {
    if a :| a in t.attempts && t.attempts[a].failureEvent == Some(id) {
      assert t'.attempts[a].failureEvent == Some(id);
    }
    if a :| a in t'.attempts && t'.attempts[a].failureEvent == Some(id) {
      assert t.attempts[a].failureEvent == Some(id);
    }
  }

  /** The publication of a recorded event, with the orchestrator noting it at any point: it is
      acknowledged exactly unless the process dies or a failure is noted before it is marked, and the
      acknowledged attempt is completed exactly unless a failure is noted after it was marked. */
  lemma PublicationAmidNotes(t: Tables, e: Event, life: nat, early: bool, late: bool, max: int, retryAt: Time, next: Uuid)
    requires HoldsEvent(t, e) && t.attempts[e.attempt].status.ResultRecorded? && max >= 1 && next !in t.attempts && life >= 2
    ensures var p := Publish(t, e, life, Notes(e, early, late, max, retryAt, next));
            && p.published == (if life >= 3 then [e] else [])
            && (p.acknowledged <==> life >= 5 && !(early && FailureToNote(t, e)))
            && e.attempt in p.rows.attempts && p.rows.attempts[e.attempt].completionEvent == Some(e.id)
            && (p.acknowledged ==> (p.rows.attempts[e.attempt].status.Done? <==> !(late && FailureToNote(t, e))))
            && (life >= 5 && !p.acknowledged ==> p.rows.attempts[e.attempt].status.Broken?)
  {
    hide Noted, HoldsEvent, FailureToNote;
    assert e.attempt in t.attempts && t.attempts[e.attempt].completionEvent == Some(e.id) by {
      HoldsItsEvent(t, e);
    }
    NotingMeans(t, e, max, retryAt, next);
    MarkedHolds(t, e);
    var marked := MarkCompleted(t, e.attempt).value;
    HoldsItsEvent(marked, e);
    NotingMeans(marked, e, max, retryAt, next);
  }

  lemma HoldsItsEvent(t: Tables, e: Event)
    requires HoldsEvent(t, e)
    ensures e.attempt in t.attempts && t.attempts[e.attempt].completionEvent == Some(e.id)
  {
  }

  predicate Claimable(a: AttemptRow, at: Time) { !a.status.Done? && !a.status.ResultRecorded? && !HeldAt(a, at) }

  /** The event a delivery gets to publish: its own when the claim is granted, the stored one when a
      result is recorded, and none otherwise. */
  function EventToPublish(t: Tables, m: TaskMessage, at: Time, e: Event): Option<Event> {
    if m.attempt !in t.attempts then None
    else
      var a := t.attempts[m.attempt];
      if Claimable(a, at) then Some(e)
      else if a.status.ResultRecorded? && EventFromResult(m, a).Ok? then Some(EventFromResult(m, a).value)
      else None
  }

  /** What a delivery publishes and when it is acknowledged, with the orchestrator noting the event
      at any point. A delivery that has nothing to publish is acknowledged at once, unless a result is
      recorded that cannot be replayed; it leaves the row as it is. A delivery with an event publishes
      it, and is acknowledged exactly unless it dies or its failure is noted before it is marked. An
      acknowledged delivery leaves a completed attempt exactly unless another worker held the claim or
      its failure was noted between marking and acknowledgement. */
  lemma AcknowledgementMeans(t: Tables, m: TaskMessage, worker: string, at: Time, lease: Time, e: Event, life: nat,
                             early: bool, late: bool, max: int, retryAt: Time, next: Uuid)
    requires e == EventOf(m, e.id, e.outcome) && ClaimAttempt(t, m, worker, at, at + lease).Ok? && max >= 1 && next !in t.attempts
    ensures var a, g := t.attempts[m.attempt], EventToPublish(t, m, at, e);
            var p := Handle(t, m, worker, at, lease, e, life, if g.Some? then Notes(g.value, early, late, max, retryAt, next) else Alone());
            && m.attempt in p.rows.attempts
            && (g.None? ==>
                  && p.published == [] && p.rows == t
                  && (p.acknowledged <==> life >= 2 && !a.status.ResultRecorded?))
            && (g.Some? ==>
                  && p.published == (if life >= 3 then [g.value] else [])
                  && (p.acknowledged <==> life >= 5 && !(early && FailureToNote(t, g.value)))
                  && (life >= 2 ==> p.rows.attempts[m.attempt].completionEvent == Some(g.value.id)))
            && (p.acknowledged ==>
                  (p.rows.attempts[m.attempt].status.Done? <==>
                     a.status.Done? || (g.Some? && !(late && FailureToNote(t, g.value)))))
  {
    var a, g := t.attempts[m.attempt], EventToPublish(t, m, at, e);
    if g.Some? {
      if Claimable(a, at) {
        GrantedAmidNotes(t, m, worker, at, lease, e, life, early, late, max, retryAt, next);
      } else {
        ReplayedAmidNotes(t, m, worker, at, lease, e, life, early, late, max, retryAt, next);
      }
    }
  }

  lemma RecordedHolds(t: Tables, m: TaskMessage, worker: string, at: Time, expiresAt: Time, e: Event)
    requires e == EventOf(m, e.id, e.outcome) && ClaimAttempt(t, m, worker, at, expiresAt).Ok? && Claimable(t.attempts[m.attempt], at)
    ensures ClaimAttempt(t, m, worker, at, expiresAt).value.0.ClaimGranted?
    ensures var claimed := ClaimAttempt(t, m, worker, at, expiresAt).value.1;
            && RecordResult(claimed, e).Ok?
            && var recorded := RecordResult(claimed, e).value;
            && HoldsEvent(recorded, e) && recorded.attempts[m.attempt].status.ResultRecorded?
            && (FailureToNote(recorded, e) <==> FailureToNote(t, e)) && recorded.attempts.Keys == t.attempts.Keys
  {
    var claimed := ClaimAttempt(t, m, worker, at, expiresAt).value.1;
    SameFailures(t, RecordResult(claimed, e).value, e.id);
  }

  lemma GrantedAmidNotes(t: Tables, m: TaskMessage, worker: string, at: Time, lease: Time, e: Event, life: nat,
                         early: bool, late: bool, max: int, retryAt: Time, next: Uuid)
    requires e == EventOf(m, e.id, e.outcome) && ClaimAttempt(t, m, worker, at, at + lease).Ok? && max >= 1 && next !in t.attempts
    requires Claimable(t.attempts[m.attempt], at)
    ensures var p := Handle(t, m, worker, at, lease, e, life, Notes(e, early, late, max, retryAt, next));
            && m.attempt in p.rows.attempts
            && p.published == (if life >= 3 then [e] else [])
            && (p.acknowledged <==> life >= 5 && !(early && FailureToNote(t, e)))
            && (life >= 2 ==> p.rows.attempts[m.attempt].completionEvent == Some(e.id))
            && (p.acknowledged ==> (p.rows.attempts[m.attempt].status.Done? <==> !(late && FailureToNote(t, e))))
  {
    RecordedHolds(t, m, worker, at, at + lease, e);
    if life >= 2 {
      hide Publish, HoldsEvent, FailureToNote, Noted;
      var claimed := ClaimAttempt(t, m, worker, at, at + lease).value.1;
      PublicationAmidNotes(RecordResult(claimed, e).value, e, life, early, late, max, retryAt, next);
    }
  }

  lemma ReplayedAmidNotes(t: Tables, m: TaskMessage, worker: string, at: Time, lease: Time, e: Event, life: nat,
                          early: bool, late: bool, max: int, retryAt: Time, next: Uuid)
    requires ClaimAttempt(t, m, worker, at, at + lease).Ok? && max >= 1 && next !in t.attempts
    requires t.attempts[m.attempt].status.ResultRecorded? && EventFromResult(m, t.attempts[m.attempt]).Ok?
    ensures var g := EventFromResult(m, t.attempts[m.attempt]).value;
            var p := Handle(t, m, worker, at, lease, e, life, Notes(g, early, late, max, retryAt, next));
            && m.attempt in p.rows.attempts
            && p.published == (if life >= 3 then [g] else [])
            && (p.acknowledged <==> life >= 5 && !(early && FailureToNote(t, g)))
            && p.rows.attempts[m.attempt].completionEvent == Some(g.id)
            && (p.acknowledged ==> (p.rows.attempts[m.attempt].status.Done? <==> !(late && FailureToNote(t, g))))
  {
    var g := EventFromResult(m, t.attempts[m.attempt]).value;
    assert HoldsEvent(t, g);
    if life >= 2 {
      hide Publish, HoldsEvent, FailureToNote, Noted;
      PublicationAmidNotes(t, g, life, early, late, max, retryAt, next);
    }
  }

  /** A delivery that is acknowledged without a result: another worker holds the claim. */
  lemma AcknowledgedWithoutResult() returns (t: Tables, m: TaskMessage, e: Event)
    ensures e == EventOf(m, e.id, e.outcome) && m.attempt in t.attempts && t.attempts[m.attempt].status.Claimed?
    ensures Handle(t, m, "second", 1.0, 20.0, e, 5, Alone()) == Progress(t, [], true)
  {
    var task := TaskId(0, "a");
    var row := NewAttempt(task, 1, Claimed).(claimedBy := Some("first"), claimExpiresAt := Some(20.0));
    t := Tables(map[task := TaskRow(0, "a", "h", map[], map[], TaskRunning, None)], map[1 := row], map[]);
    m := TaskMessage(task, 1, 1, 0, "a", "h", map[], map[]);
    e := EventOf(m, 2, Errored(TaskError("", "")));
    assert HeldAt(t.attempts[m.attempt], 1.0);
    assert ClaimAttempt(t, m, "second", 1.0, 1.0 + 20.0) == Ok((CurrentlyClaimed, t));
  }

  // A claim whose holder died before recording lapses.
  lemma UnrecordedIsClaimable(t: Tables, m: TaskMessage, w1: string, w2: string, at1: Time, at2: Time, lease1: Time, lease2: Time)
    requires ClaimAttempt(t, m, w1, at1, at1 + lease1).Ok? && ClaimAttempt(t, m, w1, at1, at1 + lease1).value.0.ClaimGranted?
    requires lease1 > 0.0 && at2 >= at1 + lease1
    ensures ClaimAttempt(t, m, w2, at2, at2 + lease2).Ok? && ClaimAttempt(t, m, w2, at2, at2 + lease2).value.0.ClaimGranted?
    ensures var claimed := ClaimAttempt(t, m, w1, at1, at1 + lease1).value.1;
            && ClaimAttempt(claimed, m, w2, at2, at2 + lease2).Ok?
            && ClaimAttempt(claimed, m, w2, at2, at2 + lease2).value.0.ClaimGranted?
  {
  }

  lemma GrantedFinishes(t: Tables, m: TaskMessage, w: string, at: Time, lease: Time, e: Event, life: nat)
    requires ClaimAttempt(t, m, w, at, at + lease).Ok? && ClaimAttempt(t, m, w, at, at + lease).value.0.ClaimGranted?
    requires e == EventOf(m, e.id, e.outcome) && life >= 2
    ensures var p := Handle(t, m, w, at, lease, e, life, Alone());
            && m.attempt in p.rows.attempts && EventFromResult(m, p.rows.attempts[m.attempt]) == Ok(e)
            && p.rows.attempts[m.attempt].status == (if life >= 4 then Done else ResultRecorded)
            && p.rows.attempts[m.attempt].task == m.task && p.rows.tasks == t.tasks
            && p.published == (if life >= 3 then [e] else []) && p.acknowledged == (life >= 5)
  {
  }

  // ---------- Deliveries that die and come again ----------

  predicate AllSame(events: seq<Event>) {
    forall i, j :: 0 <= i < |events| && 0 <= j < |events| ==> events[i] == events[j]
  }

  /** The orchestrator takes note of a published failure that it does not know. */
  predicate FailureTaken(t: Tables, e: Event, life: nat, noted: bool) {
    noted && life >= 3 && FailureToNote(t, e)
  }

  // The rows the second worker finds.
  function Between(t: Tables, m: TaskMessage, worker: string, at: Time, lease: Time, e: Event, life: nat, noted: bool, max: int,
                   retryAt: Time, next: Uuid): Tables {
    var first := Handle(t, m, worker, at, lease, e, life, Alone());
    if noted && life >= 3 then Noted(first.rows, e, max, retryAt, next) else first.rows
  }

  lemma NotedFailure(t: Tables, m: TaskMessage, w: string, at: Time, lease: Time, e: Event, life: nat, max: int, retryAt: Time, next: Uuid)
    requires e == EventOf(m, e.id, e.outcome) && life >= 3 && max >= 1 && next !in t.attempts
    requires ClaimAttempt(t, m, w, at, at + lease).Ok? && ClaimAttempt(t, m, w, at, at + lease).value.0.ClaimGranted?
    ensures var first := Handle(t, m, w, at, lease, e, life, Alone());
            var rows := Noted(first.rows, e, max, retryAt, next);
            && m.attempt in first.rows.attempts && m.attempt in rows.attempts
            && (!FailureTaken(t, e, life, true) ==> rows == first.rows)
            && (FailureTaken(t, e, life, true) ==>
                  && rows.attempts[m.attempt] == first.rows.attempts[m.attempt].(status := Broken, failureEvent := Some(e.id))
                  && m.task in rows.tasks && rows.tasks[m.task].execution == m.execution && rows.tasks[m.task].node == m.node)
  {
    var first := Handle(t, m, w, at, lease, e, life, Alone()).rows;
    GrantedFinishes(t, m, w, at, lease, e, life);
    GrantedKeepsOthers(t, m, w, at, lease, e, life);
    assert FailureKnown(first, e.id) <==> FailureKnown(t, e.id) by {
      if a :| a in t.attempts && t.attempts[a].failureEvent == Some(e.id) {
        assert first.attempts[a].failureEvent == Some(e.id);
      }
      if a :| a in first.attempts && first.attempts[a].failureEvent == Some(e.id) {
        assert t.attempts[a].failureEvent == Some(e.id);
      }
    }
  }

  lemma GrantedKeepsOthers(t: Tables, m: TaskMessage, w: string, at: Time, lease: Time, e: Event, life: nat)
    requires ClaimAttempt(t, m, w, at, at + lease).Ok? && ClaimAttempt(t, m, w, at, at + lease).value.0.ClaimGranted?
    requires e == EventOf(m, e.id, e.outcome) && life >= 2
    ensures var rows := Handle(t, m, w, at, lease, e, life, Alone()).rows;
            && rows.attempts.Keys == t.attempts.Keys
            && (forall a :: a in t.attempts ==> rows.attempts[a].failureEvent == t.attempts[a].failureEvent)
            && rows.attempts[m.attempt].claimedBy == Some(w) && rows.attempts[m.attempt].completionEvent == Some(e.id)
            && rows.attempts[m.attempt].claimExpiresAt == (if life >= 4 then None else Some(at + lease))
            && m.task in t.tasks && t.tasks[m.task].execution == m.execution && t.tasks[m.task].node == m.node
  {
  }

  /** Wherever a worker dies, and whether or not the orchestrator takes note of what it published,
      the redelivery to another worker that finishes is acknowledged. Both workers together publish
      one and the same event, unless the first died between publishing a failure and marking it and
      that failure was noted before the second claim: then the second worker runs the attempt again
      and publishes its own event. If the failure was noted after it was marked, the second worker
      publishes nothing. */
  lemma RedeliveryCompletes(t: Tables, m: TaskMessage, w1: string, w2: string, at1: Time, at2: Time, lease1: Time, lease2: Time,
                            e: Event, f: Event, life1: nat, life2: nat, noted: bool, max: int, retryAt: Time, next: Uuid)
    requires e == EventOf(m, e.id, e.outcome) && f == EventOf(m, f.id, f.outcome) && e != f
    requires ClaimAttempt(t, m, w1, at1, at1 + lease1).Ok? && ClaimAttempt(t, m, w1, at1, at1 + lease1).value.0.ClaimGranted?
    requires lease1 > 0.0 && at2 >= at1 + lease1 && life2 >= 5 && max >= 1 && next !in t.attempts
    ensures var first := Handle(t, m, w1, at1, lease1, e, life1, Alone());
            var between := Between(t, m, w1, at1, lease1, e, life1, noted, max, retryAt, next);
            var second := Handle(between, m, w2, at2, lease2, f, life2, Alone());
            var published := first.published + second.published;
            var taken := FailureTaken(t, e, life1, noted);
            && second.acknowledged && published != [] && m.attempt in second.rows.attempts
            && (AllSame(published) <==> !(taken && life1 == 3))
            && (taken && life1 == 3 ==> published == [e, f])
            && (taken && life1 >= 4 ==> published == [e] && second.rows == between)
            && (!(taken && life1 >= 4) ==>
                  && second.rows.attempts[m.attempt].status.Done?
                  && EventFromResult(m, second.rows.attempts[m.attempt]) == Ok(if life1 >= 2 && !taken then e else f))
  {
    hide Handle, Noted, ClaimAttempt, EventFromResult;
    var first := Handle(t, m, w1, at1, lease1, e, life1, Alone());
    var between := Between(t, m, w1, at1, lease1, e, life1, noted, max, retryAt, next);
    var second := Handle(between, m, w2, at2, lease2, f, life2, Alone());
    if life1 <= 1 {
      DiesEarly(t, m, w1, w2, at1, at2, lease1, lease2, e, life1);
      GrantedFinishes(first.rows, m, w2, at2, lease2, f, life2);
    } else {
      GrantedFinishes(t, m, w1, at1, lease1, e, life1);
      GrantedKeepsOthers(t, m, w1, at1, lease1, e, life1);
      if life1 >= 3 {
        NotedFailure(t, m, w1, at1, lease1, e, life1, max, retryAt, next);
      }
      SecondDelivery(between, m, w2, at2, lease2, f, life2, t, w1, at1, lease1, e, life1);
    }
    SameEvents(first.published + second.published, e, f);
  }

  lemma SameEvents(published: seq<Event>, e: Event, f: Event)
    requires e != f && (published == [e] || published == [f] || published == [e, e] || published == [e, f])
    ensures AllSame(published) <==> published != [e, f]
  {
    assert published == [e, f] ==> published[0] != published[1];
  }

  lemma DiesEarly(t: Tables, m: TaskMessage, w1: string, w2: string, at1: Time, at2: Time, lease1: Time, lease2: Time, e: Event, life: nat)
    requires ClaimAttempt(t, m, w1, at1, at1 + lease1).Ok? && ClaimAttempt(t, m, w1, at1, at1 + lease1).value.0.ClaimGranted?
    requires lease1 > 0.0 && at2 >= at1 + lease1 && life <= 1
    ensures var first := Handle(t, m, w1, at1, lease1, e, life, Alone());
            && first.published == []
            && ClaimAttempt(first.rows, m, w2, at2, at2 + lease2).Ok?
            && ClaimAttempt(first.rows, m, w2, at2, at2 + lease2).value.0.ClaimGranted?
  {
    UnrecordedIsClaimable(t, m, w1, w2, at1, at2, lease1, lease2);
  }

  // The second delivery, by what the first has left behind.
  lemma SecondDelivery(rows: Tables, m: TaskMessage, w: string, at: Time, lease: Time, f: Event, life: nat,
                       t: Tables, w1: string, at1: Time, lease1: Time, e: Event, life1: nat)
    requires f == EventOf(m, f.id, f.outcome) && life >= 5 && life1 >= 2 && at >= at1 + lease1
    requires m.attempt in rows.attempts && rows.attempts[m.attempt].task == m.task
    requires m.task in rows.tasks && rows.tasks[m.task].execution == m.execution && rows.tasks[m.task].node == m.node
    requires var a := rows.attempts[m.attempt];
             && a.claimedBy == Some(w1) && a.claimExpiresAt == (if life1 >= 4 then None else Some(at1 + lease1))
             && (a.status.Broken? || (a.status == (if life1 >= 4 then Done else ResultRecorded) && EventFromResult(m, a) == Ok(e)))
    ensures var a, second := rows.attempts[m.attempt], Handle(rows, m, w, at, lease, f, life, Alone());
            && second.acknowledged && m.attempt in second.rows.attempts
            && (a.status.Broken? && life1 < 4 ==>
                  && second.published == [f] && second.rows.attempts[m.attempt].status.Done?
                  && EventFromResult(m, second.rows.attempts[m.attempt]) == Ok(f))
            && (a.status.Broken? && life1 >= 4 ==> second.published == [] && second.rows == rows)
            && (!a.status.Broken? ==>
                  && second.published == (if life1 >= 4 then [] else [e]) && second.rows.attempts[m.attempt].status.Done?
                  && EventFromResult(m, second.rows.attempts[m.attempt]) == Ok(e))
  {
    var a := rows.attempts[m.attempt];
    if a.status.Broken? && life1 < 4 {
      assert ClaimAttempt(rows, m, w, at, at + lease).value.0.ClaimGranted?;
      GrantedFinishes(rows, m, w, at, lease, f, life);
    } else if a.status.ResultRecorded? {
      assert Handle(rows, m, w, at, lease, f, life, Alone()) == Publish(rows, e, life, Alone());
    }
  }

  // ---------- A failed attempt may still succeed ----------

  /** An attempt whose failure the orchestrator has taken note of can be claimed and run again, and
      may then store a success: the row keeps the failure event beside the event of the success,
      so a copy of the failure may still be published after it. */
  lemma FailedAttemptMaySucceed(t: Tables, m: TaskMessage, w1: string, w2: string, at1: Time, at2: Time, lease1: Time, lease2: Time,
                                f: Event, e: Event, max: int, retryAt: Time, next: Uuid)
    requires f == EventOf(m, f.id, f.outcome) && f.outcome.Errored? && e == EventOf(m, e.id, e.outcome) && e.outcome.Succeeded?
    requires ClaimAttempt(t, m, w1, at1, at1 + lease1).Ok? && ClaimAttempt(t, m, w1, at1, at1 + lease1).value.0.ClaimGranted?
    requires t.attempts[m.attempt].failureEvent.None? && !FailureKnown(t, f.id) && next != m.attempt && max >= 1
    requires at2 >= at1 + lease1
    ensures var reported := RecordResult(ClaimAttempt(t, m, w1, at1, at1 + lease1).value.1, f);
            && reported.Ok?
            && var noted := RecordFailure(reported.value, m.task, m.attempt, f.id, f.outcome.error, max, retryAt, next);
            && noted.Ok? && !noted.value.0.Duplicate?
            && var again := ClaimAttempt(noted.value.1, m, w2, at2, at2 + lease2);
            && again.Ok? && again.value.0.ClaimGranted?
            && RecordResult(again.value.1, e).Ok?
            && var row := RecordResult(again.value.1, e).value.attempts[m.attempt];
            && row.failureEvent == Some(f.id) && row.completionEvent == Some(e.id) && EventFromResult(m, row) == Ok(e)
  {
    var claimed := ClaimAttempt(t, m, w1, at1, at1 + lease1).value.1;
    var reported := RecordResult(claimed, f).value;
    assert !FailureKnown(reported, f.id) by {
      forall a | a in reported.attempts ensures reported.attempts[a].failureEvent != Some(f.id) {
        assert reported.attempts[a].failureEvent == t.attempts[a].failureEvent;
      }
    }
    assert FailureIsNews(reported.attempts[m.attempt], f.id);
  }
}
