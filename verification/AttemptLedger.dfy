/** What the two repositories keep true of the task tables, however the transactions of
    workers and orchestrators interleave. `rec` is the history of events ever recorded. */
module AttemptLedger {
  import opened Wrappers
  import opened TaskTables

  // ---------- The invariant ----------

  /** Which columns are filled in, by status of the attempt. */
  predicate StatusShape(a: AttemptRow) {
    match a.status
    case Started | Scheduled | Queued =>
      a.completionEvent.None? && a.failureEvent.None? && a.claimedBy.None? && a.claimExpiresAt.None?
    case Claimed =>
      a.claimedBy.Some? && a.claimExpiresAt.Some? && (a.completionEvent.Some? ==> a.failureEvent.Some?)
    case ResultRecorded =>
      a.claimedBy.Some? && a.claimExpiresAt.Some? && a.completionEvent.Some?
    case Done =>
      a.claimedBy.Some? && a.claimExpiresAt.None? && a.completionEvent.Some?
    case Broken =>
      a.claimedBy.Some? && a.completionEvent.Some? && a.failureEvent.Some?
  }

  /** The outcome a row holds in its result and error columns. */
  function RowOutcome(a: AttemptRow): Outcome {
    if a.errorMessage.Some? && a.errorKind.Some?
    then Errored(TaskError(a.errorMessage.value, a.errorKind.value)) else Succeeded(a.result)
  }

  /** The event whose outcome a row holds. */
  function RowEvent(id: Uuid, a: AttemptRow): Event
    requires a.completionEvent.Some?
  {
    Event(a.completionEvent.value, a.task, id, a.number, a.task.execution, a.task.node, RowOutcome(a))
  }

  ghost predicate RowOk(t: Tables, rec: set<Event>, id: Uuid)
    requires id in t.attempts
  {
    var a := t.attempts[id];
    && a.task in t.tasks
    && StatusShape(a)
    && (a.errorMessage.Some? <==> a.errorKind.Some?)
    && (a.completionEvent.Some? ==> RowEvent(id, a) in rec)
    && (a.failureEvent.Some? ==> exists e :: e in rec && e.id == a.failureEvent.value && e.attempt == id && e.outcome.Errored?)
  }

  ghost predicate EventOk(t: Tables, e: Event) {
    && e.attempt in t.attempts
    && var a := t.attempts[e.attempt];
    && e.task == a.task && e.number == a.number && e.execution == a.task.execution && e.node == a.task.node
    && a.completionEvent.Some?
    && (a.failureEvent.None? ==> a.completionEvent == Some(e.id))
    // A recorded success is final.
    && (e.outcome.Succeeded? ==> a.completionEvent == Some(e.id) && (a.status.ResultRecorded? || a.status.Done?))
  }

  ghost predicate Coherent(t: Tables, rec: set<Event>) {
    && (forall k :: k in t.tasks ==> t.tasks[k].execution == k.execution && t.tasks[k].node == k.node)
    && (forall id :: id in t.attempts ==> RowOk(t, rec, id))
    && (forall e :: e in rec ==> EventOk(t, e))
    && (forall e, f :: e in rec && f in rec && e.id == f.id ==> e == f)
  }

  // Attempt number i + 1 of task k. Every attempt but the last has failed, and the last
  // one has not unless the limit is reached.
  ghost predicate Link(t: Tables, max: int, links: seq<Uuid>, k: TaskId, i: int)
    requires 0 <= i < |links|
  {
    && links[i] in t.attempts
    && var a := t.attempts[links[i]];
    && a.task == k && a.number == i + 1
    && (i + 1 < |links| ==> a.failureEvent.Some?)
    && (i + 1 == |links| && i + 1 < max ==> a.failureEvent.None?)
  }

  ghost predicate Listed(t: Tables, chain: map<TaskId, seq<Uuid>>, id: Uuid)
    requires id in t.attempts
  {
    var a := t.attempts[id];
    a.task in chain && 1 <= a.number <= |chain[a.task]| && chain[a.task][a.number - 1] == id
  }

  /** `chain[k]` lists the attempts of task k in the order of their numbers. */
  ghost predicate Chain(t: Tables, max: int, chain: map<TaskId, seq<Uuid>>) {
    && chain.Keys == t.tasks.Keys
    && (forall k :: k in chain ==> 1 <= |chain[k]| <= max)
    && (forall k, i {:trigger Link(t, max, chain[k], k, i)} ::
          k in chain && 0 <= i < |chain[k]| ==> Link(t, max, chain[k], k, i))
    && (forall id {:trigger Listed(t, chain, id)} :: id in t.attempts ==> Listed(t, chain, id))
  }

  ghost predicate Chained(t: Tables, max: int) {
    exists chain :: Chain(t, max, chain)
  }

  // A retry has a dispatch row, which waits as long as the attempt is scheduled.
  ghost predicate RetryRows(t: Tables) {
    && (forall id :: id in t.attempts && t.attempts[id].number > 1 ==> id in t.dispatches)
    && (forall id :: id in t.attempts && t.attempts[id].status.Scheduled? ==>
          id in t.dispatches && !t.dispatches[id].published)
  }

  ghost predicate Ledger(t: Tables, rec: set<Event>, max: int) {
    Coherent(t, rec) && Chained(t, max) && RetryRows(t)
  }

  // ---------- Changes of one row that leave the chain alone ----------

  /** The tables differ in one attempt row, which keeps its identity and its failure event. */
  predicate Touched(t: Tables, t': Tables, id: Uuid) {
    && id in t.attempts && t'.attempts.Keys == t.attempts.Keys && t'.tasks.Keys == t.tasks.Keys
    && (forall k :: k in t.tasks ==> t'.tasks[k].execution == t.tasks[k].execution && t'.tasks[k].node == t.tasks[k].node)
    && (forall other :: other in t.attempts && other != id ==> t'.attempts[other] == t.attempts[other])
    && t'.attempts[id].task == t.attempts[id].task && t'.attempts[id].number == t.attempts[id].number
  }

  lemma TouchedKeepsChain(t: Tables, t': Tables, id: Uuid, max: int)
    requires Touched(t, t', id) && t'.attempts[id].failureEvent == t.attempts[id].failureEvent
    requires Chained(t, max)
    ensures Chained(t', max)
  {
    hide Link, Listed;
    var chain :| Chain(t, max, chain);
    forall k, i | k in chain && 0 <= i < |chain[k]| ensures Link(t', max, chain[k], k, i) {
      TouchedKeepsLink(t, t', id, max, chain[k], k, i);
    }
    forall other | other in t'.attempts ensures Listed(t', chain, other) {
      TouchedKeepsListed(t, t', id, chain, other);
    }
    assert Chain(t', max, chain);
  }

  lemma TouchedKeepsLink(t: Tables, t': Tables, id: Uuid, max: int, links: seq<Uuid>, k: TaskId, i: nat)
    requires Touched(t, t', id) && t'.attempts[id].failureEvent == t.attempts[id].failureEvent
    requires i < |links| && Link(t, max, links, k, i)
    ensures Link(t', max, links, k, i)
  {
  }

  lemma TouchedKeepsListed(t: Tables, t': Tables, id: Uuid, chain: map<TaskId, seq<Uuid>>, other: Uuid)
    requires Touched(t, t', id) && other in t.attempts && Listed(t, chain, other)
    ensures Listed(t', chain, other)
  {
  }

  lemma TouchedKeepsCoherent(t: Tables, t': Tables, rec: set<Event>, rec': set<Event>, id: Uuid)
    requires Touched(t, t', id) && Coherent(t, rec) && rec <= rec'
    requires RowOk(t', rec', id)
    requires forall e :: e in rec' && (e !in rec || e.attempt == id) ==> EventOk(t', e)
    requires forall e, f :: e in rec' && f in rec' && e.id == f.id ==> e == f
    ensures Coherent(t', rec')
  {
    forall other | other in t'.attempts ensures RowOk(t', rec', other) {
      if other != id {
        assert RowOk(t, rec, other);
      }
    }
    forall e | e in rec' ensures EventOk(t', e) {
      if e in rec {
        assert EventOk(t, e);
      }
    }
  }

  lemma TouchedKeepsLedger(t: Tables, t': Tables, rec: set<Event>, rec': set<Event>, max: int, id: Uuid)
    requires Touched(t, t', id) && Ledger(t, rec, max) && rec <= rec'
    requires t'.attempts[id].failureEvent == t.attempts[id].failureEvent
    requires t'.dispatches == t.dispatches && !t'.attempts[id].status.Scheduled?
    requires RowOk(t', rec', id)
    requires forall e :: e in rec' && (e !in rec || e.attempt == id) ==> EventOk(t', e)
    requires forall e, f :: e in rec' && f in rec' && e.id == f.id ==> e == f
    ensures Ledger(t', rec', max)
  {
    hide Chained, Chain, RowOk, EventOk;
    TouchedKeepsCoherent(t, t', rec, rec', id);
    TouchedKeepsChain(t, t', id, max);
  }

  // ---------- The worker's transactions ----------

  lemma ClaimKeepsLedger(t: Tables, rec: set<Event>, max: int, m: TaskMessage, worker: Worker, at: Time, expiresAt: Time)
    requires Ledger(t, rec, max)
    requires ClaimAttempt(t, m, worker, at, expiresAt).Ok?
    ensures Ledger(ClaimAttempt(t, m, worker, at, expiresAt).value.1, rec, max)
  {
    hide Chained, RetryRows;
    var t' := ClaimAttempt(t, m, worker, at, expiresAt).value.1;
    if t' != t {
      assert RowOk(t, rec, m.attempt);
      forall e | e in rec && e.attempt == m.attempt ensures EventOk(t', e) {
        assert EventOk(t, e);
      }
      TouchedKeepsLedger(t, t', rec, rec, max, m.attempt);
    }
  }

  lemma RenewKeepsLedger(t: Tables, rec: set<Event>, max: int, id: Uuid, worker: Worker, expiresAt: Time)
    requires Ledger(t, rec, max)
    ensures Ledger(RenewClaim(t, id, worker, expiresAt).1, rec, max)
  {
    hide Chained, RetryRows;
    var t' := RenewClaim(t, id, worker, expiresAt).1;
    if t' != t {
      assert RowOk(t, rec, id);
      forall e | e in rec && e.attempt == id ensures EventOk(t', e) {
        assert EventOk(t, e);
      }
      TouchedKeepsLedger(t, t', rec, rec, max, id);
    }
  }

  lemma MarkCompletedKeepsLedger(t: Tables, rec: set<Event>, max: int, id: Uuid)
    requires Ledger(t, rec, max) && MarkCompleted(t, id).Ok?
    ensures Ledger(MarkCompleted(t, id).value, rec, max)
  {
    hide Chained, RetryRows;
    var t' := MarkCompleted(t, id).value;
    assert RowOk(t, rec, id);
    forall e | e in rec && e.attempt == id ensures EventOk(t', e) {
      assert EventOk(t, e);
    }
    TouchedKeepsLedger(t, t', rec, rec, max, id);
  }

  lemma RecordResultKeepsLedger(t: Tables, rec: set<Event>, max: int, e: Event)
    requires Ledger(t, rec, max) && RecordResult(t, e).Ok?
    requires forall f :: f in rec ==> f.id != e.id
    requires e.task == t.attempts[e.attempt].task && e.number == t.attempts[e.attempt].number
    requires e.execution == e.task.execution && e.node == e.task.node
    ensures Ledger(RecordResult(t, e).value, rec + {e}, max)
  {
    hide Chained, RetryRows;
    var t', id := RecordResult(t, e).value, e.attempt;
    assert RowOk(t, rec, id);
    assert RowEvent(id, t'.attempts[id]) == e;
    assert RowOk(t', rec + {e}, id);
    forall f | f in rec + {e} && (f !in rec || f.attempt == id) ensures EventOk(t', f) {
      if f in rec {
        assert EventOk(t, f);
      }
    }
    hide RowOk, EventOk;
    TouchedKeepsLedger(t, t', rec, rec + {e}, max, id);
  }

  // ---------- The orchestrator's transactions ----------

  /** The success of an attempt is never news to the orchestrator: the worker has recorded it. */
  lemma SuccessIsNeverNews(t: Tables, rec: set<Event>, e: Event)
    requires Coherent(t, rec) && e in rec && e.outcome.Succeeded?
    ensures RecordSuccess(t, e.task, e.attempt, e.id) == Ok((false, t))
  {
    assert EventOk(t, e);
    assert RowOk(t, rec, e.attempt);
  }

  /** A failure is news exactly when the attempt has no failure event yet. */
  lemma FailureNews(t: Tables, rec: set<Event>, e: Event)
    requires Coherent(t, rec) && e in rec && e.outcome.Errored?
    ensures e.attempt in t.attempts && e.task in t.tasks && Belongs(t, e.task, e.attempt)
    ensures t.attempts[e.attempt].failureEvent.None? <==>
            !FailureKnown(t, e.id) && FailureIsNews(t.attempts[e.attempt], e.id)
    ensures t.attempts[e.attempt].failureEvent.None? ==> RowEvent(e.attempt, t.attempts[e.attempt]) == e
  {
    assert EventOk(t, e);
    assert RowOk(t, rec, e.attempt);
    if id :| id in t.attempts && t.attempts[id].failureEvent == Some(e.id) {
      assert RowOk(t, rec, id);
      assert id == e.attempt;
    }
  }

  lemma MarkBrokenKeepsCoherent(t: Tables, rec: set<Event>, e: Event)
    requires Coherent(t, rec) && e in rec && e.outcome.Errored?
    requires e.attempt in t.attempts && t.attempts[e.attempt].failureEvent.None?
    ensures Coherent(MarkBroken(t, e.attempt, e.id, e.outcome.error), rec)
  {
    FailureNews(t, rec, e);
    var t', id := MarkBroken(t, e.attempt, e.id, e.outcome.error), e.attempt;
    assert RowOk(t, rec, id);
    assert RowEvent(id, t'.attempts[id]) == e;
    forall f | f in rec && f.attempt == id ensures EventOk(t', f) {
      assert EventOk(t, f);
    }
    TouchedKeepsCoherent(t, t', rec, rec, id);
  }

  // The status and the final error of a logical task play no part in the invariant.
  lemma TaskStatusIsFree(t: Tables, t': Tables, rec: set<Event>)
    requires Coherent(t, rec)
    requires t'.attempts == t.attempts && t'.tasks.Keys == t.tasks.Keys
    requires forall k :: k in t.tasks ==> t'.tasks[k].execution == t.tasks[k].execution && t'.tasks[k].node == t.tasks[k].node
    ensures Coherent(t', rec)
  {
    forall id | id in t'.attempts ensures RowOk(t', rec, id) {
      assert RowOk(t, rec, id);
    }
    forall e | e in rec ensures EventOk(t', e) {
      assert EventOk(t, e);
    }
  }

  lemma NewAttemptKeepsCoherent(t: Tables, t': Tables, rec: set<Event>, next: Uuid, number: nat, status: AttemptStatus, task: TaskId)
    requires Coherent(t, rec) && next !in t.attempts && task in t.tasks
    requires status.Started? || status.Scheduled?
    requires t'.tasks == t.tasks && t'.attempts == t.attempts[next := NewAttempt(task, number, status)]
    ensures Coherent(t', rec)
  {
    forall id | id in t'.attempts ensures RowOk(t', rec, id) {
      if id != next {
        assert RowOk(t, rec, id);
      }
    }
    forall e | e in rec ensures EventOk(t', e) {
      assert EventOk(t, e);
    }
  }

  lemma AfterRetryCoherent(t: Tables, rec: set<Event>, e: Event, next: Uuid, retryAt: Time)
    requires Coherent(t, rec) && e in rec && e.outcome.Errored? && next !in t.attempts
    requires e.attempt in t.attempts && t.attempts[e.attempt].failureEvent.None? && e.task in t.tasks
    ensures Coherent(AfterRetry(t, e.task, e.attempt, e.id, e.outcome.error, next, retryAt), rec)
  {
    hide Coherent;
    var t' := AfterRetry(t, e.task, e.attempt, e.id, e.outcome.error, next, retryAt);
    var broken := MarkBroken(t, e.attempt, e.id, e.outcome.error);
    MarkBrokenKeepsCoherent(t, rec, e);
    var noted := broken.(tasks := t'.tasks);
    TaskStatusIsFree(broken, noted, rec);
    NewAttemptKeepsCoherent(noted, t', rec, next, t.attempts[e.attempt].number + 1, Scheduled, e.task);
  }

  lemma AfterRetryChained(t: Tables, max: int, task: TaskId, id: Uuid, event: Uuid, error: TaskError, next: Uuid, retryAt: Time)
    requires Chained(t, max) && Belongs(t, task, id) && task in t.tasks && next !in t.attempts
    requires t.attempts[id].failureEvent.None? && t.attempts[id].number < max
    ensures Chained(AfterRetry(t, task, id, event, error, next, retryAt), max)
  {
    var t' := AfterRetry(t, task, id, event, error, next, retryAt);
    var chain :| Chain(t, max, chain);
    assert Listed(t, chain, id);
    var n := t.attempts[id].number;
    assert Link(t, max, chain[task], task, n - 1);
    assert n == |chain[task]|;
    var chain' := chain[task := chain[task] + [next]];
    assert chain'[task] == chain[task] + [next];
    forall k, i | k in chain' && 0 <= i < |chain'[k]| ensures Link(t', max, chain'[k], k, i) {
      if k != task || i < n {
        assert Link(t, max, chain[k], k, i);
        assert chain'[k][i] == chain[k][i];
      }
    }
    forall other | other in t'.attempts ensures Listed(t', chain', other) {
      if other != next {
        assert Listed(t, chain, other);
      }
    }
    assert Chain(t', max, chain');
  }

  lemma AfterExhaustedChained(t: Tables, max: int, task: TaskId, id: Uuid, event: Uuid, error: TaskError)
    requires Chained(t, max) && Belongs(t, task, id) && task in t.tasks
    requires t.attempts[id].number >= max
    ensures Chained(AfterExhausted(t, task, id, event, error), max)
  {
    var t' := AfterExhausted(t, task, id, event, error);
    var chain :| Chain(t, max, chain);
    assert Listed(t, chain, id);
    forall k, i | k in chain && 0 <= i < |chain[k]| ensures Link(t', max, chain[k], k, i) {
      assert Link(t, max, chain[k], k, i);
    }
    forall other | other in t'.attempts ensures Listed(t', chain, other) {
      assert Listed(t, chain, other);
    }
    assert Chain(t', max, chain);
  }

  lemma RecordFailureKeepsLedger(t: Tables, rec: set<Event>, max: int, e: Event, retryAt: Time, next: Uuid)
    requires Ledger(t, rec, max) && e in rec && e.outcome.Errored? && max >= 1 && next !in t.attempts
    ensures RecordFailure(t, e.task, e.attempt, e.id, e.outcome.error, max, retryAt, next).Ok?
    ensures Ledger(RecordFailure(t, e.task, e.attempt, e.id, e.outcome.error, max, retryAt, next).value.1, rec, max)
  {
    hide Coherent, Chained;
    FailureNews(t, rec, e);
    var error := e.outcome.error;
    if t.attempts[e.attempt].failureEvent.None? {
      if t.attempts[e.attempt].number >= max {
        AfterExhaustedChained(t, max, e.task, e.attempt, e.id, error);
        MarkBrokenKeepsCoherent(t, rec, e);
        TaskStatusIsFree(MarkBroken(t, e.attempt, e.id, error), AfterExhausted(t, e.task, e.attempt, e.id, error), rec);
      } else {
        AfterRetryChained(t, max, e.task, e.attempt, e.id, error, next, retryAt);
        AfterRetryCoherent(t, rec, e, next, retryAt);
      }
    }
  }

  lemma RegisterKeepsLedger(t: Tables, rec: set<Event>, max: int, task: TaskId, row: TaskRow, attempt: Uuid)
    requires Ledger(t, rec, max) && task !in t.tasks && attempt !in t.attempts && max >= 1
    requires row.execution == task.execution && row.node == task.node
    ensures RegisterInitialTask(t, task, row, attempt)
            == (attempt, t.(tasks := t.tasks[task := row], attempts := t.attempts[attempt := NewAttempt(task, 1, Started)]))
    ensures Ledger(RegisterInitialTask(t, task, row, attempt).1, rec, max)
  {
    var t' := t.(tasks := t.tasks[task := row], attempts := t.attempts[attempt := NewAttempt(task, 1, Started)]);
    NoAttemptsYet(t, rec, task);
    RegisterKeepsCoherent(t, rec, task, row, attempt);
    RegisterKeepsChained(t, max, task, row, attempt);
  }

  lemma NoAttemptsYet(t: Tables, rec: set<Event>, task: TaskId)
    requires Coherent(t, rec) && task !in t.tasks
    ensures forall id :: id in t.attempts ==> t.attempts[id].task != task
  {
    forall id | id in t.attempts ensures t.attempts[id].task != task {
      assert RowOk(t, rec, id);
    }
  }

  lemma RegisterKeepsCoherent(t: Tables, rec: set<Event>, task: TaskId, row: TaskRow, attempt: Uuid)
    requires Coherent(t, rec) && task !in t.tasks && attempt !in t.attempts
    requires row.execution == task.execution && row.node == task.node
    ensures Coherent(t.(tasks := t.tasks[task := row], attempts := t.attempts[attempt := NewAttempt(task, 1, Started)]), rec)
  {
    var noted := t.(tasks := t.tasks[task := row]);
    forall id | id in noted.attempts ensures RowOk(noted, rec, id) {
      assert RowOk(t, rec, id);
    }
    forall e | e in rec ensures EventOk(noted, e) {
      assert EventOk(t, e);
    }
    NewAttemptKeepsCoherent(noted, noted.(attempts := t.attempts[attempt := NewAttempt(task, 1, Started)]), rec, attempt, 1, Started, task);
  }

  lemma RegisterKeepsChained(t: Tables, max: int, task: TaskId, row: TaskRow, attempt: Uuid)
    requires Chained(t, max) && task !in t.tasks && attempt !in t.attempts && max >= 1
    ensures Chained(t.(tasks := t.tasks[task := row], attempts := t.attempts[attempt := NewAttempt(task, 1, Started)]), max)
  {
    var t' := t.(tasks := t.tasks[task := row], attempts := t.attempts[attempt := NewAttempt(task, 1, Started)]);
    var chain :| Chain(t, max, chain);
    var chain' := chain[task := [attempt]];
    forall k, i | k in chain' && 0 <= i < |chain'[k]| ensures Link(t', max, chain'[k], k, i) {
      if k != task {
        assert Link(t, max, chain[k], k, i);
      }
    }
    forall id | id in t'.attempts ensures Listed(t', chain', id) {
      if id != attempt {
        assert Listed(t, chain, id);
      }
    }
    assert Chain(t', max, chain');
  }

  lemma MarkRetryPublishedKeepsLedger(t: Tables, rec: set<Event>, max: int, id: Uuid)
    requires Ledger(t, rec, max)
    ensures Ledger(MarkRetryPublished(t, id).1, rec, max)
  {
    var t' := MarkRetryPublished(t, id).1;
    if t' != t {
      var waiting := t.(dispatches := t'.dispatches);
      TaskStatusIsFree(t, waiting, rec);
      ChainIgnoresDispatches(t, waiting, max);
      if t'.attempts != t.attempts {
        MarkQueuedKeeps(waiting, t', rec, max, id);
      }
    }
  }

  lemma ChainIgnoresDispatches(t: Tables, t': Tables, max: int)
    requires Chained(t, max) && t'.tasks.Keys == t.tasks.Keys && t'.attempts == t.attempts
    ensures Chained(t', max)
  {
    var chain :| Chain(t, max, chain);
    forall k, i | k in chain && 0 <= i < |chain[k]| ensures Link(t', max, chain[k], k, i) {
      assert Link(t, max, chain[k], k, i);
    }
    forall id | id in t'.attempts ensures Listed(t', chain, id) {
      assert Listed(t, chain, id);
    }
    assert Chain(t', max, chain);
  }

  lemma MarkQueuedKeeps(t: Tables, t': Tables, rec: set<Event>, max: int, id: Uuid)
    requires Coherent(t, rec) && Chained(t, max)
    requires id in t.attempts && t.attempts[id].status.Scheduled?
    requires t' == t.(attempts := t.attempts[id := t.attempts[id].(status := Queued)])
    ensures Coherent(t', rec) && Chained(t', max)
  {
    assert RowOk(t, rec, id);
    forall e | e in rec ensures e.attempt != id {
      assert EventOk(t, e);
    }
    TouchedKeepsCoherent(t, t', rec, rec, id);
    TouchedKeepsChain(t, t', id, max);
  }

  // ---------- What the transactions promise their callers ----------

  ghost predicate KeepsLedger(t: Tables, t': Tables) {
    forall rec, max :: Ledger(t, rec, max) ==> Ledger(t', rec, max)
  }

  // The event reports on the attempt it names.
  ghost predicate Reports(t: Tables, e: Event) {
    && e.attempt in t.attempts && e.task == t.attempts[e.attempt].task && e.number == t.attempts[e.attempt].number
    && e.execution == e.task.execution && e.node == e.task.node
  }

  ghost predicate ExtendsLedger(t: Tables, t': Tables, e: Event) {
    forall rec, max :: (Ledger(t, rec, max) && Reports(t, e) && forall f: Event :: f in rec ==> f.id != e.id) ==> Ledger(t', rec + {e}, max)
  }

  /** Nobody is granted the attempt before that time. */
  ghost predicate HeldUntil(t: Tables, attempt: Uuid, expiresAt: Time) {
    forall m: TaskMessage, w, at, e ::
      (m.attempt == attempt && at < expiresAt && ClaimAttempt(t, m, w, at, e).Ok?) ==> ClaimAttempt(t, m, w, at, e) == Ok((CurrentlyClaimed, t))
  }

  lemma ClaimPromises(t: Tables, m: TaskMessage, worker: Worker, at: Time, expiresAt: Time)
    requires ClaimAttempt(t, m, worker, at, expiresAt).Ok?
    ensures var (outcome, t') := ClaimAttempt(t, m, worker, at, expiresAt).value;
            && KeepsLedger(t, t') && (outcome.ClaimGranted? ==> HeldUntil(t', m.attempt, expiresAt))
  {
    hide Ledger;
    forall rec, max | Ledger(t, rec, max) ensures Ledger(ClaimAttempt(t, m, worker, at, expiresAt).value.1, rec, max) {
      ClaimKeepsLedger(t, rec, max, m, worker, at, expiresAt);
    }
  }

  lemma RenewPromises(t: Tables, attempt: Uuid, worker: Worker, expiresAt: Time)
    ensures var (renewed, t') := RenewClaim(t, attempt, worker, expiresAt);
            KeepsLedger(t, t') && (renewed ==> HeldUntil(t', attempt, expiresAt))
  {
    hide Ledger;
    forall rec, max | Ledger(t, rec, max) ensures Ledger(RenewClaim(t, attempt, worker, expiresAt).1, rec, max) {
      RenewKeepsLedger(t, rec, max, attempt, worker, expiresAt);
    }
  }

  lemma RecordPromises(t: Tables, e: Event)
    requires RecordResult(t, e).Ok?
    ensures ExtendsLedger(t, RecordResult(t, e).value, e)
  {
    hide Ledger;
    forall rec, max | Ledger(t, rec, max) && Reports(t, e) && forall f: Event :: f in rec ==> f.id != e.id
      ensures Ledger(RecordResult(t, e).value, rec + {e}, max)
    {
      RecordResultKeepsLedger(t, rec, max, e);
    }
  }

  lemma MarkPromises(t: Tables, attempt: Uuid)
    ensures MarkCompleted(t, attempt).Ok? ==> KeepsLedger(t, MarkCompleted(t, attempt).value)
    ensures KeepsLedger(t, MarkRetryPublished(t, attempt).1)
  {
    hide Ledger;
    if MarkCompleted(t, attempt).Ok? {
      forall rec, max | Ledger(t, rec, max) ensures Ledger(MarkCompleted(t, attempt).value, rec, max) {
        MarkCompletedKeepsLedger(t, rec, max, attempt);
      }
    }
    forall rec, max | Ledger(t, rec, max) ensures Ledger(MarkRetryPublished(t, attempt).1, rec, max) {
      MarkRetryPublishedKeepsLedger(t, rec, max, attempt);
    }
  }

  /** The event that a success reports, in a ledger that holds it. */
  ghost predicate ReportedSuccess(t: Tables, task: TaskId, attempt: Uuid, event: Uuid, rec: set<Event>, max: int, e: Event) {
    Ledger(t, rec, max) && e in rec && e.outcome.Succeeded? && e.task == task && e.attempt == attempt && e.id == event
  }

  lemma SuccessPromises(t: Tables, task: TaskId, attempt: Uuid, event: Uuid)
    ensures (exists rec, max, e :: ReportedSuccess(t, task, attempt, event, rec, max, e)) ==>
              RecordSuccess(t, task, attempt, event) == Ok((false, t))
  {
    hide RecordSuccess;
    if rec, max, e :| ReportedSuccess(t, task, attempt, event, rec, max, e) {
      SuccessIsNeverNews(t, rec, e);
    }
  }

  ghost predicate ReportedFailure(t: Tables, task: TaskId, attempt: Uuid, event: Uuid, error: TaskError, rec: set<Event>, max: int, e: Event) {
    Ledger(t, rec, max) && e in rec && e.outcome == Errored(error) && e.task == task && e.attempt == attempt && e.id == event
  }

  lemma FailurePromises(t: Tables, task: TaskId, attempt: Uuid, event: Uuid, error: TaskError, max: int, retryAt: Time, next: Uuid)
    requires max >= 1 && next !in t.attempts
    ensures forall rec, e :: ReportedFailure(t, task, attempt, event, error, rec, max, e) ==>
              && var r := RecordFailure(t, task, attempt, event, error, max, retryAt, next);
              && r.Ok? && Ledger(r.value.1, rec, max)
              && attempt in t.attempts && (r.value.0.Duplicate? <==> t.attempts[attempt].failureEvent.Some?)
  {
    hide Ledger, FailureKnown, FailureIsNews, AfterRetry, AfterExhausted;
    forall rec, e | ReportedFailure(t, task, attempt, event, error, rec, max, e)
      ensures var r := RecordFailure(t, task, attempt, event, error, max, retryAt, next);
              && r.Ok? && Ledger(r.value.1, rec, max)
              && attempt in t.attempts && (r.value.0.Duplicate? <==> t.attempts[attempt].failureEvent.Some?)
    {
      RecordFailureKeepsLedger(t, rec, max, e, retryAt, next);
      LedgerIsCoherent(t, rec, max);
      FailureNews(t, rec, e);
    }
  }

  lemma LedgerIsCoherent(t: Tables, rec: set<Event>, max: int)
    requires Ledger(t, rec, max)
    ensures Coherent(t, rec)
  {
  }

  /** Taking note of the same failure again changes nothing, whatever else differs. */
  lemma FailureIsNotedOnce(t: Tables, task: TaskId, attempt: Uuid, event: Uuid, error: TaskError, max: int, retryAt: Time, next: Uuid,
                           max': int, retryAt': Time, next': Uuid)
    requires RecordFailure(t, task, attempt, event, error, max, retryAt, next).Ok? && task in t.tasks && next != attempt && max' >= 1
    ensures var t' := RecordFailure(t, task, attempt, event, error, max, retryAt, next).value.1;
            RecordFailure(t', task, attempt, event, error, max', retryAt', next') == Ok((Duplicate, t'))
  {
    var (decision, t') := RecordFailure(t, task, attempt, event, error, max, retryAt, next).value;
    if !decision.Duplicate? {
      assert t'.attempts[attempt].failureEvent == Some(event);
    }
  }

  lemma EmptyLedger(max: int)
    ensures Ledger(Tables(map[], map[], map[]), {}, max)
  {
    var none: map<TaskId, seq<Uuid>> := map[];
    assert Chain(Tables(map[], map[], map[]), max, none);
  }
}
