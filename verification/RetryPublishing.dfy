/** The loop that puts due retries on the task stream, and what is left when it dies on the way,
    with other processes at work all the time. */
module RetryPublishing {
  import opened Wrappers
  import opened TaskTables
  import opened Database

  /** Everything the task stream was ever given. */
  class TaskStream {
    var messages: seq<TaskMessage>
  }

  /** The list lists the due retries, each once. */
  ghost predicate Lists(due: seq<TaskMessage>, t: Tables, at: Time) {
    && (forall i, j :: 0 <= i < j < |due| ==> due[i].attempt != due[j].attempt)
    && (forall i :: 0 <= i < |due| ==> DueRetry(t, due[i].attempt, at) && due[i] == MessageFor(t, due[i].attempt))
    && (forall a :: DueRetry(t, a, at) ==> exists i :: 0 <= i < |due| && due[i].attempt == a)
  }

  // Action 2 * k of the loop sends retry k, and action 2 * k + 1 marks it.

  // The rows the loop finds when it comes to mark retry k.
  function Found(t: Tables, due: seq<TaskMessage>, k: nat, others: Others): Tables
    requires k < |due|
    decreases k, 1
  {
    others(2 * k + 1, others(2 * k, MarkAmid(t, due, k, others)))
  }

  /** The rows once the first k retries are sent and marked. */
  function MarkAmid(t: Tables, due: seq<TaskMessage>, k: nat, others: Others): Tables
    requires k <= |due|
    decreases k, 0
  {
    if k == 0 then t else MarkRetryPublished(Found(t, due, k - 1, others), due[k - 1].attempt).1
  }

  function Marks(t: Tables, due: seq<TaskMessage>, k: nat, others: Others): nat
    requires k <= |due|
  {
    if k == 0 then 0
    else Marks(t, due, k - 1, others) + if MarkRetryPublished(Found(t, due, k - 1, others), due[k - 1].attempt).0 then 1 else 0
  }

  lemma BeginAmid(t: Tables, due: seq<TaskMessage>, others: Others)
    ensures MarkAmid(t, due, 0, others) == t && Marks(t, due, 0, others) == 0
  {
  }

  lemma StepAmid(t: Tables, due: seq<TaskMessage>, k: nat, others: Others)
    requires k < |due|
    ensures var (marked, rows) := MarkRetryPublished(others(2 * k + 1, others(2 * k, MarkAmid(t, due, k, others))), due[k].attempt);
            && MarkAmid(t, due, k + 1, others) == rows
            && Marks(t, due, k + 1, others) == Marks(t, due, k, others) + if marked then 1 else 0
  {
  }

  // No other process makes this retry stop being due.
  ghost predicate LeavesDue(others: Others, a: Uuid, at: Time) {
    forall i, t :: DueRetry(t, a, at) ==> DueRetry(others(i, t), a, at)
  }

  predicate Marked(t: Tables, a: Uuid) { a in t.dispatches && t.dispatches[a].published }

  // No other process takes the mark off a retry.
  ghost predicate KeepsMarks(others: Others) {
    forall i, t, a :: Marked(t, a) ==> Marked(others(i, t), a)
  }

  lemma MarkOther(t: Tables, a: Uuid, b: Uuid, at: Time)
    requires a != b && DueRetry(t, a, at)
    ensures DueRetry(MarkRetryPublished(t, b).1, a, at)
  {
  }

  /** A retry that the loop has not marked is due as before, unless some other process has seen to it. */
  lemma {:induction false} UnmarkedStaysDue(t: Tables, due: seq<TaskMessage>, at: Time, k: nat, others: Others, a: Uuid)
    requires k <= |due| && DueRetry(t, a, at) && LeavesDue(others, a, at)
    requires forall i :: 0 <= i < k ==> due[i].attempt != a
    ensures DueRetry(MarkAmid(t, due, k, others), a, at)
  {
    hide DueRetry, MarkRetryPublished;
    if k > 0 {
      UnmarkedStaysDue(t, due, at, k - 1, others, a);
      var u := MarkAmid(t, due, k - 1, others);
      assert DueRetry(others(2 * (k - 1), u), a, at);
      assert DueRetry(others(2 * (k - 1) + 1, others(2 * (k - 1), u)), a, at);
      MarkOther(Found(t, due, k - 1, others), a, due[k - 1].attempt, at);
    }
  }

  /** Whatever prefix was sent and whatever shorter prefix was marked: every due retry has been sent
      by the loop, is still due, or was seen to by another process. */
  lemma DyingLosesNothing(t: Tables, due: seq<TaskMessage>, at: Time, sent: nat, marked: nat, others: Others, a: Uuid)
    requires Lists(due, t, at) && marked <= sent <= |due| && DueRetry(t, a, at) && LeavesDue(others, a, at)
    ensures MessageFor(t, a) in due[..sent] || DueRetry(MarkAmid(t, due, marked, others), a, at)
  {
    hide MarkAmid;
    var i :| 0 <= i < |due| && due[i].attempt == a;
    if i < sent {
      assert due[..sent][i] == MessageFor(t, a);
    } else {
      UnmarkedStaysDue(t, due, at, marked, others, a);
    }
  }

  lemma MarkedIsPublished(t: Tables, a: Uuid)
    ensures var t' := MarkRetryPublished(t, a).1;
            && (a in t.dispatches ==> Marked(t', a)) && forall b :: Marked(t, b) ==> Marked(t', b)
  {
  }

  lemma {:induction false} MarkedStaysMarked(t: Tables, due: seq<TaskMessage>, k: nat, others: Others, i: nat)
    requires i < k <= |due| && KeepsMarks(others)
    requires due[i].attempt in Found(t, due, i, others).dispatches
    ensures Marked(MarkAmid(t, due, k, others), due[i].attempt)
    decreases k
  {
    hide MarkRetryPublished;
    MarkedIsPublished(Found(t, due, k - 1, others), due[k - 1].attempt);
    if i < k - 1 {
      MarkedStaysMarked(t, due, k - 1, others, i);
      var u, a := MarkAmid(t, due, k - 1, others), due[i].attempt;
      assert Marked(others(2 * (k - 1), u), a);
      assert Marked(Found(t, due, k - 1, others), a);
    }
  }

  /** After the whole loop no listed retry is due at any time, provided its row is still there when
      the loop comes to mark it and no process takes marks off. */
  lemma ListedAreDone(t: Tables, due: seq<TaskMessage>, others: Others, i: nat, at: Time)
    requires i < |due| && KeepsMarks(others) && due[i].attempt in Found(t, due, i, others).dispatches
    ensures !DueRetry(MarkAmid(t, due, |due|, others), due[i].attempt, at)
  {
    hide MarkAmid, Found;
    MarkedStaysMarked(t, due, |due|, others, i);
  }

  /** Sends each retry and marks it, each on its own, while other processes act before every action;
      the loop dies before action `life` unless it ends first. What it has sent is a prefix of the
      list, what it has marked that prefix or all but its last. */
  method PublishDueRetries(db: Session, stream: TaskStream, due: seq<TaskMessage>, life: nat, others: Others) returns (r: Option<nat>)
    modifies db`tasks, db`attempts, db`dispatches, stream
    ensures life < 2 * |due| ==> r == None && stream.messages == old(stream.messages) + due[..(life + 1) / 2]
    ensures life < 2 * |due| && life % 2 == 0 ==> db.Rows() == MarkAmid(old(db.Rows()), due, life / 2, others)
    ensures life < 2 * |due| && life % 2 == 1 ==> db.Rows() == others(life - 1, MarkAmid(old(db.Rows()), due, life / 2, others))
    ensures life >= 2 * |due| ==>
              && r == Some(Marks(old(db.Rows()), due, |due|, others))
              && stream.messages == old(stream.messages) + due && db.Rows() == MarkAmid(old(db.Rows()), due, |due|, others)
  {
    hide MarkRetryPublished, MarkAmid, Marks, Found, DueRetry;
    ghost var t := db.Rows();
    var published := 0;
    BeginAmid(t, due, others);
    for k := 0 to |due|
      invariant published == Marks(t, due, k, others) && 2 * k <= life
      invariant stream.messages == old(stream.messages) + due[..k]
      invariant db.Rows() == MarkAmid(t, due, k, others)
    {
      StepAmid(t, due, k, others);
      if life == 2 * k {
        assert life / 2 == k && (life + 1) / 2 == k;
        return None;
      }
      var seen := others(2 * k, Tables(db.tasks, db.attempts, db.dispatches));
      db.tasks, db.attempts, db.dispatches := seen.tasks, seen.attempts, seen.dispatches;
      stream.messages := stream.messages + [due[k]];
      assert due[..k + 1] == due[..k] + [due[k]];
      if life == 2 * k + 1 {
        assert life / 2 == k && (life + 1) / 2 == k + 1;
        return None;
      }
      var found := others(2 * k + 1, Tables(db.tasks, db.attempts, db.dispatches));
      db.tasks, db.attempts, db.dispatches := found.tasks, found.attempts, found.dispatches;
      var marked := db.MarkRetryPublished(due[k].attempt);
      if marked {
        published := published + 1;
      }
    }
    assert due[..|due|] == due;
    return Some(published);
  }
}
