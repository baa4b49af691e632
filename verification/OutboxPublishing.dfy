/** Publication and cleanup of the transactional outbox, with failures of Redis and crashes of the
    publisher at any point. */
module OutboxPublishing {
  import opened Wrappers
  import opened JsonValues
  import opened Graphs
  import opened TaskTables

  type Key = Uuid

  datatype Message = Message(kind: string, target: string, aggregate: Option<Key>, payload: Json)

  datatype Row = Row(message: Message, createdAt: Time, publishedAt: Option<Time>, attempts: nat, lastError: Option<string>)

  type Table = map<Key, Row>

  /** What a stream was given. */
  datatype Delivery = Delivery(stream: string, key: Key, message: Message)

  const WORKFLOW_EVENTS := "workflow.events"
  const BATCH_LIMIT: nat := 100

  predicate Waiting(r: Row) { r.publishedAt.None? }

  function StreamOf(m: Message): string {
    if m.target == "" then WORKFLOW_EVENTS else m.target
  }

  function DeliveryOf(k: Key, r: Row): Delivery { Delivery(StreamOf(r.message), k, r.message) }

  // ---------- The environment ----------

  /** How a call to Redis ends: accepted, failed with an error, or never returning because the
      process dies. In the last two cases the stream may nevertheless have stored the message. */
  datatype Answer = Accepted | Failed(error: string, stored: bool) | Died(stored: bool)

  /** All that a publication does not decide itself; `commits` is false when the process dies
      before its commit takes effect. */
  datatype World = World(answers: seq<Answer>, clock: seq<Time>, commits: bool)

  // ---------- The queries ----------

  /** The oldest pending rows that no other publisher has locked, in the order of their creation. */
  ghost predicate Selected(t: Table, locked: set<Key>, batch: seq<Key>) {
    && NoDuplicates(batch) && |batch| <= BATCH_LIMIT
    && (forall i :: 0 <= i < |batch| ==> batch[i] in t && batch[i] !in locked && Waiting(t[batch[i]]))
    && (forall i, j :: 0 <= i < j < |batch| ==> t[batch[i]].createdAt <= t[batch[j]].createdAt)
    && (forall k :: k in t && k !in locked && Waiting(t[k]) && k !in batch ==>
          |batch| == BATCH_LIMIT && forall i :: 0 <= i < |batch| ==> t[batch[i]].createdAt <= t[k].createdAt)
  }

  predicate Expired(r: Row, cutoff: Time) { r.publishedAt.Some? && r.publishedAt.value <= cutoff }

  ghost predicate SelectedForCleanup(t: Table, locked: set<Key>, cutoff: Time, limit: int, batch: seq<Key>) {
    && NoDuplicates(batch) && |batch| <= limit
    && (forall i :: 0 <= i < |batch| ==> batch[i] in t && batch[i] !in locked && Expired(t[batch[i]], cutoff))
    && (forall k :: k in t && k !in locked && Expired(t[k], cutoff) && k !in batch ==> |batch| == limit)
  }

  // ---------- What publication does ----------

  predicate AnswersFit(world: World, batch: seq<Key>) {
    |world.answers| == |world.clock| == |batch|
  }

  /** The first `sent` calls were accepted, and the next one, if there is one, was not. */
  predicate StopsAt(world: World, sent: nat) {
    && sent <= |world.answers|
    && (forall i :: 0 <= i < sent ==> world.answers[i].Accepted?)
    && (sent < |world.answers| ==> !world.answers[sent].Accepted?)
  }

  predicate StoredAfterAll(a: Answer) { (a.Failed? || a.Died?) && a.stored }

  // How many messages of the batch have reached their streams.
  function Reached(world: World, sent: nat): nat
    requires sent <= |world.answers|
  {
    if sent < |world.answers| && StoredAfterAll(world.answers[sent]) then sent + 1 else sent
  }

  predicate Commits(world: World, sent: nat)
    requires sent <= |world.answers|
  {
    world.commits && (sent < |world.answers| ==> !world.answers[sent].Died?)
  }

  function MarkedPublished(r: Row, at: Time): Row {
    r.(publishedAt := Some(at), attempts := r.attempts + 1, lastError := None)
  }

  function MarkedFailed(r: Row, error: string): Row {
    r.(attempts := r.attempts + 1, lastError := Some(error))
  }

  /** The accepted rows are published, the failing one has its error, all others are untouched. */
  ghost predicate Marked(t: Table, t': Table, batch: seq<Key>, world: World, sent: nat)
    requires AnswersFit(world, batch) && sent <= |batch|
  {
    && t'.Keys == t.Keys
    && (forall i :: 0 <= i < |batch| ==> batch[i] in t)
    && (forall i :: 0 <= i < sent ==> t'[batch[i]] == MarkedPublished(t[batch[i]], world.clock[i]))
    && (sent < |batch| && world.answers[sent].Failed? ==>
          t'[batch[sent]] == MarkedFailed(t[batch[sent]], world.answers[sent].error))
    && (sent < |batch| && !world.answers[sent].Failed? ==> t'[batch[sent]] == t[batch[sent]])
    && (forall i :: sent < i < |batch| ==> t'[batch[i]] == t[batch[i]])
    && (forall k :: k in t && k !in batch ==> t'[k] == t[k])
  }

  ghost predicate SentInOrder(t: Table, batch: seq<Key>, reached: nat, more: seq<Delivery>)
    requires reached <= |batch|
  {
    && |more| == reached && (forall i :: 0 <= i < |batch| ==> batch[i] in t)
    && (forall i :: 0 <= i < reached ==> more[i] == DeliveryOf(batch[i], t[batch[i]]))
  }

  // The outcome of a call, whatever became of it.
  ghost predicate Publication(t: Table, t': Table, more: seq<Delivery>, batch: seq<Key>, world: World, sent: nat) {
    && AnswersFit(world, batch) && StopsAt(world, sent)
    && SentInOrder(t, batch, Reached(world, sent), more)
    && (if Commits(world, sent) then Marked(t, t', batch, world, sent) else t' == t)
  }

  /** Streams are only appended to. */
  predicate Extends(streams: seq<Delivery>, streams': seq<Delivery>) {
    |streams'| >= |streams| && streams'[..|streams|] == streams
  }

  // ---------- Progress through a batch ----------

  ghost predicate Prefixed(t: Table, t': Table, batch: seq<Key>, world: World, i: nat)
    requires AnswersFit(world, batch) && i <= |batch|
  {
    && NoDuplicates(batch) && t'.Keys == t.Keys
    && (forall j :: 0 <= j < |batch| ==> batch[j] in t)
    && (forall j :: 0 <= j < i ==> t'[batch[j]] == MarkedPublished(t[batch[j]], world.clock[j]))
    && (forall j :: i <= j < |batch| ==> t'[batch[j]] == t[batch[j]])
    && (forall k :: k in t && k !in batch ==> t'[k] == t[k])
  }

  lemma PrefixedKeys(t: Table, t': Table, batch: seq<Key>, world: World, i: nat)
    requires AnswersFit(world, batch) && i < |batch| && Prefixed(t, t', batch, world, i)
    ensures batch[i] in t && batch[i] in t' && t'[batch[i]] == t[batch[i]]
    ensures forall j :: 0 <= j < |batch| ==> batch[j] in t
  {
  }

  lemma PrefixStep(t: Table, t': Table, batch: seq<Key>, world: World, i: nat)
    requires AnswersFit(world, batch) && i < |batch| && Prefixed(t, t', batch, world, i) && batch[i] in t'
    ensures Prefixed(t, t'[batch[i] := MarkedPublished(t'[batch[i]], world.clock[i])], batch, world, i + 1)
  {
  }

  lemma PrefixFails(t: Table, t': Table, batch: seq<Key>, world: World, i: nat)
    requires AnswersFit(world, batch) && i < |batch| && Prefixed(t, t', batch, world, i) && batch[i] in t'
    requires world.answers[i].Failed?
    ensures Marked(t, t'[batch[i] := MarkedFailed(t'[batch[i]], world.answers[i].error)], batch, world, i)
  {
  }

  lemma PrefixEnds(t: Table, t': Table, batch: seq<Key>, world: World)
    requires AnswersFit(world, batch) && Prefixed(t, t', batch, world, |batch|)
    ensures Marked(t, t', batch, world, |batch|)
  {
  }

  lemma SelectedRows(t: Table, locked: set<Key>, batch: seq<Key>)
    requires Selected(t, locked, batch)
    ensures NoDuplicates(batch) && forall i :: 0 <= i < |batch| ==> batch[i] in t
  {
  }

  lemma NothingSent(t: Table, batch: seq<Key>, streams: seq<Delivery>, world: World)
    requires AnswersFit(world, batch) && NoDuplicates(batch) && forall i :: 0 <= i < |batch| ==> batch[i] in t
    ensures Extends(streams, streams) && SentInOrder(t, batch, 0, streams[|streams|..])
    ensures Prefixed(t, t, batch, world, 0)
  {
  }

  lemma SendOne(t: Table, batch: seq<Key>, i: nat, before: seq<Delivery>, streams: seq<Delivery>, row: Row)
    requires i < |batch| && Extends(before, streams) && SentInOrder(t, batch, i, streams[|before|..])
    requires batch[i] in t && row == t[batch[i]]
    ensures var streams' := streams + [DeliveryOf(batch[i], row)];
            Extends(before, streams') && SentInOrder(t, batch, i + 1, streams'[|before|..])
  {
    var streams' := streams + [DeliveryOf(batch[i], row)];
    assert streams'[|before|..] == streams[|before|..] + [DeliveryOf(batch[i], row)];
  }

  datatype Ended = Count(published: nat) | Raised(error: string) | Crashed

  datatype CleanupResult = Deleted(count: nat) | NegativeRetention | EmptyBatch

  class Publisher {
    var rows: Table
    // Everything the streams were ever given.
    var streams: seq<Delivery>

    /** One call on the rows its query has returned. */
    method PublishPending(batch: seq<Key>, world: World, ghost locked: set<Key>) returns (r: Ended, ghost sent: nat)
      requires Selected(rows, locked, batch) && AnswersFit(world, batch)
      modifies this
      ensures Extends(old(streams), streams)
      ensures Publication(old(rows), rows, streams[|old(streams)|..], batch, world, sent)
      ensures r == if !Commits(world, sent) then Crashed
                   else if sent < |batch| then Raised(world.answers[sent].error) else Count(|batch|)
    {
      hide Selected, Marked, Prefixed, SentInOrder;
      var saved := rows;
      ghost var before := streams;
      sent := 0;
      SelectedRows(rows, locked, batch);
      NothingSent(saved, batch, before, world);
      for i := 0 to |batch|
        invariant sent == i && forall j :: 0 <= j < i ==> world.answers[j].Accepted?
        invariant Extends(before, streams) && SentInOrder(saved, batch, i, streams[|before|..])
        invariant Prefixed(saved, rows, batch, world, i)
      {
        PrefixedKeys(saved, rows, batch, world, i);
        var row := rows[batch[i]];
        SendOne(saved, batch, i, before, streams, row);
        match world.answers[i] {
          case Accepted =>
            streams := streams + [DeliveryOf(batch[i], row)];
            PrefixStep(saved, rows, batch, world, i);
            rows := rows[batch[i] := MarkedPublished(row, world.clock[i])];
            sent := sent + 1;
          case Failed(error, stored) =>
            if stored {
              streams := streams + [DeliveryOf(batch[i], row)];
            }
            PrefixFails(saved, rows, batch, world, i);
            rows := rows[batch[i] := MarkedFailed(row, error)];
            if world.commits {
              return Raised(error), sent;
            }
            rows := saved;
            return Crashed, sent;
          case Died(stored) =>
            if stored {
              streams := streams + [DeliveryOf(batch[i], row)];
            }
            rows := saved;
            return Crashed, sent;
        }
      }
      PrefixEnds(saved, rows, batch, world);
      if world.commits {
        return Count(|batch|), sent;
      }
      rows := saved;
      return Crashed, sent;
    }

    /** Deletes published rows past their retention. */
    method CleanupPublished(retention: Time, limit: int, now: Time, batch: seq<Key>, ghost locked: set<Key>) returns (r: CleanupResult)
      requires SelectedForCleanup(rows, locked, now - retention, limit, batch)
               || retention < 0.0 || limit < 1
      modifies this`rows
      ensures retention < 0.0 ==> r == NegativeRetention && rows == old(rows)
      ensures retention >= 0.0 && limit < 1 ==> r == EmptyBatch && rows == old(rows)
      ensures retention >= 0.0 && limit >= 1 ==> r == Deleted(|batch|) && Cleaned(old(rows), rows, now - retention)
      ensures retention >= 0.0 && limit >= 1 ==> forall k :: k in old(rows) ==> (k !in rows <==> k in batch)
    {
      if retention < 0.0 {
        return NegativeRetention;
      }
      if limit < 1 {
        return EmptyBatch;
      }
      if batch == [] {
        return Deleted(0);
      }
      rows := map k | k in rows && k !in batch :: rows[k];
      return Deleted(|batch|);
    }
  }

  // ---------- What cleanup does ----------

  ghost predicate Cleaned(t: Table, t': Table, cutoff: Time) {
    && t'.Keys <= t.Keys
    && (forall k :: k in t' ==> t'[k] == t[k])
    && (forall k :: k in t && k !in t' ==> Expired(t[k], cutoff))
  }

  // ---------- Histories ----------

  /** The table, the streams, and every message that was ever written to the outbox. */
  datatype State = State(rows: Table, streams: seq<Delivery>, written: map<Key, Message>)

  datatype Operation =
    | Add(key: Key, row: Row)
    | Publish(batch: seq<Key>, world: World, sent: nat, locked: set<Key>)
    | Cleanup(cutoff: Time)

  ghost predicate Happens(s: State, op: Operation, s': State) {
    match op
    case Add(key, row) =>
      && key !in s.written && Waiting(row)
      && s' == s.(rows := s.rows[key := row], written := s.written[key := row.message])
    case Publish(batch, world, sent, locked) =>
      && Selected(s.rows, locked, batch) && s'.written == s.written
      && Extends(s.streams, s'.streams)
      && Publication(s.rows, s'.rows, s'.streams[|s.streams|..], batch, world, sent)
    case Cleanup(cutoff) =>
      Cleaned(s.rows, s'.rows, cutoff) && s'.streams == s.streams && s'.written == s.written
  }

  ghost predicate IsHistory(states: seq<State>, ops: seq<Operation>) {
    && |states| == |ops| + 1 && states[0] == State(map[], [], map[])
    && forall i, j :: 0 <= i < |ops| && 0 <= j < |states| && j == i + 1 ==> Happens(states[i], ops[i], states[j])
  }

  /** The stream its row names has been given the message. */
  ghost predicate Sent(streams: seq<Delivery>, k: Key, m: Message) {
    Delivery(StreamOf(m), k, m) in streams
  }

  /** Rows keep their messages; whatever is not waiting in the table any more was sent, and only
      what was written is sent. */
  ghost predicate Accounted(s: State) {
    && s.rows.Keys <= s.written.Keys
    && (forall k :: k in s.rows ==> s.rows[k].message == s.written[k])
    && (forall k :: k in s.written ==> (k in s.rows && Waiting(s.rows[k])) || Sent(s.streams, k, s.written[k]))
    && (forall i :: 0 <= i < |s.streams| ==>
          s.streams[i].key in s.written && s.streams[i] == Delivery(StreamOf(s.streams[i].message), s.streams[i].key, s.written[s.streams[i].key]))
  }

  lemma SentStays(streams: seq<Delivery>, streams': seq<Delivery>, k: Key, m: Message)
    requires Extends(streams, streams') && Sent(streams, k, m)
    ensures Sent(streams', k, m)
  {
    assert streams' == streams + streams'[|streams|..];
  }

  lemma MarkedRow(t: Table, t': Table, batch: seq<Key>, world: World, sent: nat, k: Key)
    requires AnswersFit(world, batch) && sent <= |batch| && Marked(t, t', batch, world, sent) && k in t
    ensures k in t' && t'[k].message == t[k].message && t'[k].createdAt == t[k].createdAt && t'[k].attempts >= t[k].attempts
    ensures !Waiting(t'[k]) ==> !Waiting(t[k]) || k in batch[..sent]
  {
    if k in batch {
      var i :| 0 <= i < |batch| && batch[i] == k;
      if i < sent {
        assert batch[..sent][i] == k;
      }
    }
  }

  lemma PublishKeepsAccounts(s: State, s': State, batch: seq<Key>, world: World, sent: nat, locked: set<Key>)
    requires Accounted(s) && Happens(s, Publish(batch, world, sent, locked), s')
    ensures Accounted(s')
  {
    var more := s'.streams[|s.streams|..];
    assert s'.streams == s.streams + more;
    forall k | k in s.rows ensures k in s'.rows && s'.rows[k].message == s.rows[k].message {
      if s'.rows != s.rows {
        MarkedRow(s.rows, s'.rows, batch, world, sent, k);
      }
    }
    forall k | k in s'.written ensures (k in s'.rows && Waiting(s'.rows[k])) || Sent(s'.streams, k, s'.written[k]) {
      if Sent(s.streams, k, s.written[k]) {
        SentStays(s.streams, s'.streams, k, s.written[k]);
      } else if s'.rows != s.rows {
        MarkedRow(s.rows, s'.rows, batch, world, sent, k);
        if k in batch[..sent] {
          var i :| 0 <= i < sent && batch[i] == k;
          assert more[i] == DeliveryOf(k, s.rows[k]);
        }
      }
    }
  }

  lemma OperationKeepsAccounts(s: State, op: Operation, s': State)
    requires Accounted(s) && Happens(s, op, s')
    ensures Accounted(s')
  {
    if op.Publish? {
      PublishKeepsAccounts(s, s', op.batch, op.world, op.sent, op.locked);
    }
  }

  /** Over any history of writes, publications, failures, crashes and cleanups nothing is lost:
      a message that was ever written waits in the table or has reached its stream, and so has
      every row marked published and every row cleaned up. Nothing else is ever sent. */
  lemma {:induction false} NothingIsLost(states: seq<State>, ops: seq<Operation>, i: nat)
    requires IsHistory(states, ops) && i < |states|
    ensures Accounted(states[i])
    decreases i
  {
    hide Happens, Accounted;
    if i == 0 {
      EmptyAccounts();
    } else {
      NothingIsLost(states, ops, i - 1);
      assert Happens(states[i - 1], ops[i - 1], states[i]);
      OperationKeepsAccounts(states[i - 1], ops[i - 1], states[i]);
    }
  }

  lemma EmptyAccounts()
    ensures Accounted(State(map[], [], map[]))
  {
  }

  // ---------- One operation ----------

  /** A publication touches no row beyond the accepted prefix and the failing row; the failing row
      keeps waiting, with only its attempts and error changed; published rows are not touched. */
  lemma PublicationIsConfined(t: Table, t': Table, more: seq<Delivery>, batch: seq<Key>, world: World, sent: nat, locked: set<Key>, k: Key)
    requires Selected(t, locked, batch) && Publication(t, t', more, batch, world, sent) && k in t
    ensures k in t'
    ensures k in batch[..sent] || (sent < |batch| && k == batch[sent] && world.answers[sent].Failed?) || t'[k] == t[k]
    ensures k !in batch[..sent] ==> t'[k] == t[k].(attempts := t'[k].attempts, lastError := t'[k].lastError)
    ensures !Waiting(t[k]) || k in locked ==> t'[k] == t[k]
  {
    if Commits(world, sent) {
      MarkedRow(t, t', batch, world, sent, k);
      if k in batch {
        var i :| 0 <= i < |batch| && batch[i] == k;
        if i < sent {
          assert batch[..sent][i] == k;
        }
      }
    }
  }

  /** A publication that meets no failure empties the outbox, up to locked rows and its limit. */
  lemma QuietPublicationDrains(t: Table, t': Table, more: seq<Delivery>, batch: seq<Key>, world: World, locked: set<Key>, k: Key)
    requires Selected(t, locked, batch) && Publication(t, t', more, batch, world, |batch|) && world.commits
    requires |batch| < BATCH_LIMIT && k in t' && Waiting(t'[k])
    ensures k in locked
  {
    assert forall i :: 0 <= i < |batch| ==> !Waiting(t'[batch[i]]);
  }

  // ---------- Exactly once ----------

  /** No message reaches a stream twice, nor while it waits. */
  ghost predicate ExactlyOnce(s: State) {
    && (forall i, j :: 0 <= i < j < |s.streams| ==> s.streams[i].key != s.streams[j].key)
    && (forall i :: 0 <= i < |s.streams| && s.streams[i].key in s.rows ==> !Waiting(s.rows[s.streams[i].key]))
  }

  /** A publication whose commit covers what has reached the streams: it commits and the failing
      message, if there is one, was not stored, or it does not commit and nothing was stored. */
  ghost predicate Clean(op: Operation) {
    op.Publish? ==>
      && op.sent <= |op.world.answers|
      && Reached(op.world, op.sent) == if Commits(op.world, op.sent) then op.sent else 0
  }

  lemma CleanPublication(s: State, s': State, batch: seq<Key>, world: World, sent: nat, locked: set<Key>)
    requires Accounted(s) && ExactlyOnce(s) && Happens(s, Publish(batch, world, sent, locked), s')
    requires Clean(Publish(batch, world, sent, locked))
    ensures ExactlyOnce(s')
  {
    CleanDeliveries(s, s', batch, world, sent, locked);
    SettledStaySettled(s, s', batch, world, sent, locked);
    assert s'.streams == s.streams + s'.streams[|s.streams|..];
    hide Publication, Selected, Accounted, ExactlyOnce;
    JoinedOnce(s, s', s'.streams[|s.streams|..]);
  }

  lemma SettledStaySettled(s: State, s': State, batch: seq<Key>, world: World, sent: nat, locked: set<Key>)
    requires ExactlyOnce(s) && Happens(s, Publish(batch, world, sent, locked), s') && s'.rows.Keys == s.rows.Keys
    ensures forall i :: 0 <= i < |s.streams| && s.streams[i].key in s'.rows ==> !Waiting(s'.rows[s.streams[i].key])
  {
    hide Publication, Selected;
    forall i | 0 <= i < |s.streams| && s.streams[i].key in s'.rows ensures !Waiting(s'.rows[s.streams[i].key]) {
      PublicationIsConfined(s.rows, s'.rows, s'.streams[|s.streams|..], batch, world, sent, locked, s.streams[i].key);
    }
  }

  lemma JoinedOnce(s: State, s': State, more: seq<Delivery>)
    requires ExactlyOnce(s) && s'.streams == s.streams + more && s'.rows.Keys == s.rows.Keys
    requires forall i :: 0 <= i < |s.streams| && s.streams[i].key in s'.rows ==> !Waiting(s'.rows[s.streams[i].key])
    requires forall i :: 0 <= i < |more| ==>
               && more[i].key in s.rows && Waiting(s.rows[more[i].key]) && more[i].key in s'.rows && !Waiting(s'.rows[more[i].key])
    requires forall i, j :: 0 <= i < j < |more| ==> more[i].key != more[j].key
    ensures ExactlyOnce(s')
  {
    forall i, j | 0 <= i < j < |s'.streams| ensures s'.streams[i].key != s'.streams[j].key {
      if i < |s.streams| <= j {
        assert s'.streams[j] == more[j - |s.streams|];
      }
    }
  }

  // What a clean publication has sent waited before and does not wait any more.
  lemma CleanDeliveries(s: State, s': State, batch: seq<Key>, world: World, sent: nat, locked: set<Key>)
    requires Happens(s, Publish(batch, world, sent, locked), s') && Clean(Publish(batch, world, sent, locked))
    ensures s'.rows.Keys == s.rows.Keys
    ensures var more := s'.streams[|s.streams|..];
            && (forall i :: 0 <= i < |more| ==>
                  && more[i].key in s.rows && Waiting(s.rows[more[i].key])
                  && more[i].key in s'.rows && !Waiting(s'.rows[more[i].key]))
            && (forall i, j :: 0 <= i < j < |more| ==> more[i].key != more[j].key)
  {
    var more := s'.streams[|s.streams|..];
    forall i | 0 <= i < |more| ensures more[i].key == batch[i] {
    }
  }

  lemma CleanKeepsExactlyOnce(s: State, op: Operation, s': State)
    requires Accounted(s) && ExactlyOnce(s) && Happens(s, op, s') && Clean(op)
    ensures ExactlyOnce(s')
  {
    if op.Publish? {
      CleanPublication(s, s', op.batch, op.world, op.sent, op.locked);
    }
  }

  // The key has reached a stream while its row waits, or has reached streams twice.
  ghost predicate Spoiled(s: State, k: Key) {
    || (k in s.rows && Waiting(s.rows[k]) && exists i :: 0 <= i < |s.streams| && s.streams[i].key == k)
    || (exists i, j :: 0 <= i < j < |s.streams| && s.streams[i].key == k && s.streams[j].key == k)
  }

  lemma SpoiledIff(s: State)
    ensures ExactlyOnce(s) <==> forall k :: !Spoiled(s, k)
  {
    if !ExactlyOnce(s) {
      if i, j :| 0 <= i < j < |s.streams| && s.streams[i].key == s.streams[j].key {
        assert Spoiled(s, s.streams[i].key);
      } else {
        var i :| 0 <= i < |s.streams| && s.streams[i].key in s.rows && Waiting(s.rows[s.streams[i].key]);
        assert Spoiled(s, s.streams[i].key);
      }
    }
  }

  // A message that was stored without a commit that says so waits and has been sent.
  lemma UncleanSpoils(s: State, op: Operation, s': State)
    requires Happens(s, op, s') && !Clean(op)
    ensures exists k :: Spoiled(s', k)
  {
    var at := if Commits(op.world, op.sent) then op.sent else 0;
    var more := s'.streams[|s.streams|..];
    assert s'.streams[|s.streams| + at] == more[at];
    assert more[at] == DeliveryOf(op.batch[at], s.rows[op.batch[at]]);
    assert Spoiled(s', op.batch[at]);
  }

  lemma SpoiledStays(s: State, op: Operation, s': State, k: Key)
    requires Accounted(s) && Happens(s, op, s') && Spoiled(s, k)
    ensures Spoiled(s', k)
  {
    hide Publication, Selected;
    StreamsGrow(s, op, s');
    if i, j :| 0 <= i < j < |s.streams| && s.streams[i].key == k && s.streams[j].key == k {
      assert s'.streams[i].key == k && s'.streams[j].key == k;
    } else {
      var i :| 0 <= i < |s.streams| && s.streams[i].key == k;
      assert s'.streams[i].key == k && k in s.written;
      if op.Publish? {
        WaitsOrIsSentAgain(s, op, s', k);
      }
    }
  }

  lemma StreamsGrow(s: State, op: Operation, s': State)
    requires Happens(s, op, s')
    ensures |s.streams| <= |s'.streams| && forall i :: 0 <= i < |s.streams| ==> s'.streams[i] == s.streams[i]
  {
    assert Extends(s.streams, s'.streams);
    forall i | 0 <= i < |s.streams| ensures s'.streams[i] == s.streams[i] {
      assert s'.streams[..|s.streams|][i] == s.streams[i];
    }
  }

  lemma WaitsOrIsSentAgain(s: State, op: Operation, s': State, k: Key)
    requires op.Publish? && Happens(s, op, s') && k in s.rows && Waiting(s.rows[k])
    ensures k in s'.rows
    ensures Waiting(s'.rows[k]) || exists j :: |s.streams| <= j < |s'.streams| && s'.streams[j].key == k
  {
    if s'.rows != s.rows {
      MarkedRow(s.rows, s'.rows, op.batch, op.world, op.sent, k);
      if !Waiting(s'.rows[k]) {
        var b :| 0 <= b < op.sent && op.batch[b] == k;
        var more := s'.streams[|s.streams|..];
        assert s'.streams[|s.streams| + b] == more[b];
      }
    }
  }

  lemma StepDecides(s: State, op: Operation, s': State)
    requires Accounted(s) && Happens(s, op, s')
    ensures ExactlyOnce(s') <==> ExactlyOnce(s) && Clean(op)
  {
    hide Accounted, Happens, ExactlyOnce, Spoiled, Clean;
    SpoiledIff(s);
    SpoiledIff(s');
    if !ExactlyOnce(s) {
      var k :| Spoiled(s, k);
      SpoiledStays(s, op, s', k);
    } else if Clean(op) {
      CleanKeepsExactlyOnce(s, op, s');
    } else {
      UncleanSpoils(s, op, s');
    }
  }

  lemma NothingSpoiledYet()
    ensures ExactlyOnce(State(map[], [], map[]))
  {
  }

  /** Every message is sent at most once, and never while it still waits, exactly when every
      publication so far was clean. A refusal by Redis that stored nothing is clean, and so is a
      crash before the first message; a crash after one, or an error for a message that was stored
      all the same, is not. */
  lemma {:induction false} ExactlyOnceIffClean(states: seq<State>, ops: seq<Operation>, i: nat)
    requires IsHistory(states, ops) && i < |states|
    ensures ExactlyOnce(states[i]) <==> forall j :: 0 <= j < i ==> Clean(ops[j])
    decreases i
  {
    hide Happens, Accounted, ExactlyOnce, Clean;
    if i == 0 {
      NothingSpoiledYet();
    } else {
      ExactlyOnceIffClean(states, ops, i - 1);
      NothingIsLost(states, ops, i - 1);
      assert Happens(states[i - 1], ops[i - 1], states[i]);
      StepDecides(states[i - 1], ops[i - 1], states[i]);
    }
  }

  /** A history that sends a message twice: the publisher dies once the stream has stored it, and
      the next publisher sends it again. This can happen to any message. */
  lemma MayBeSentTwice(key: Key, row: Row) returns (states: seq<State>, ops: seq<Operation>)
    requires Waiting(row)
    ensures IsHistory(states, ops) && |ops| == 3
    ensures states[3].streams == [DeliveryOf(key, row), DeliveryOf(key, row)]
  {
    var dies, works := World([Died(true)], [0.0], true), World([Accepted], [0.0], true);
    var d := DeliveryOf(key, row);
    var written := map[key := row.message];
    ops := [Add(key, row), Publish([key], dies, 0, {}), Publish([key], works, 1, {})];
    var s0, s1 := State(map[], [], map[]), State(map[key := row], [], written);
    var s2, s3 := State(map[key := row], [d], written), State(map[key := MarkedPublished(row, 0.0)], [d, d], written);
    states := [s0, s1, s2, s3];
    assert s2.streams[|s1.streams|..] == [d] && s3.streams[|s2.streams|..] == [d];
    assert Happens(s0, ops[0], s1);
    assert Happens(s1, ops[1], s2);
    assert Happens(s2, ops[2], s3);
  }

  // ---------- Where messages go, and what rows say ----------

  /** The delivery is of this message, on the stream its row names, or on the event stream if it names
      none. */
  predicate OnItsStream(d: Delivery, k: Key, m: Message) {
    d.key == k && d.message == m && d.stream == (if m.target == "" then "workflow.events" else m.target)
  }

  /** In every history what was sent was written, and was sent to the stream its message names. */
  lemma SentToItsStream(states: seq<State>, ops: seq<Operation>, i: nat, d: Delivery)
    requires IsHistory(states, ops) && i < |states| && d in states[i].streams
    ensures d.key in states[i].written && OnItsStream(d, d.key, states[i].written[d.key])
  {
    NothingIsLost(states, ops, i);
    var j :| 0 <= j < |states[i].streams| && states[i].streams[j] == d;
  }

  /** In every history a message that was ever written waits unpublished, or was sent to its stream. */
  lemma WaitsOrArrived(states: seq<State>, ops: seq<Operation>, i: nat, k: Key)
    requires IsHistory(states, ops) && i < |states| && k in states[i].written
    ensures (k in states[i].rows && states[i].rows[k].message == states[i].written[k] && states[i].rows[k].publishedAt.None?)
            || exists d :: d in states[i].streams && OnItsStream(d, k, states[i].written[k])
  {
    hide IsHistory;
    NothingIsLost(states, ops, i);
    var s, m := states[i], states[i].written[k];
    if Sent(s.streams, k, m) {
      assert OnItsStream(Delivery(StreamOf(m), k, m), k, m);
    }
  }

  /** A publication commits unless the process dies: then no row changes. Otherwise the rows it has sent have a publication time, one attempt more and no
      error; the row Redis refused has one attempt more and the error, and waits on; nothing else of a
      row changes. */
  lemma PublicationMarks(t: Table, t': Table, more: seq<Delivery>, batch: seq<Key>, world: World, sent: nat, locked: set<Key>)
    requires Selected(t, locked, batch) && Publication(t, t', more, batch, world, sent)
    ensures !world.commits || (sent < |batch| && world.answers[sent].Died?) ==> t' == t
    ensures world.commits && (sent < |batch| ==> !world.answers[sent].Died?) ==> forall i :: 0 <= i < sent ==>
              && batch[i] in t && batch[i] in t'
              && t'[batch[i]] == Row(t[batch[i]].message, t[batch[i]].createdAt, Some(world.clock[i]), t[batch[i]].attempts + 1, None)
    ensures world.commits && sent < |batch| && !world.answers[sent].Died? ==>
              && batch[sent] in t && batch[sent] in t' && world.answers[sent].Failed?
              && t'[batch[sent]] == Row(t[batch[sent]].message, t[batch[sent]].createdAt, None, t[batch[sent]].attempts + 1, Some(world.answers[sent].error))
  {
  }

  /** One publication sends in the order in which the rows were created. */
  lemma SentOldestFirst(t: Table, t': Table, more: seq<Delivery>, batch: seq<Key>, world: World, sent: nat, locked: set<Key>, i: nat, j: nat)
    requires Selected(t, locked, batch) && Publication(t, t', more, batch, world, sent) && i < j < |more|
    ensures more[i].key in t && more[j].key in t && t[more[i].key].createdAt <= t[more[j].key].createdAt && more[i].key != more[j].key
    ensures t[more[i].key].publishedAt.None? && more[i].message == t[more[i].key].message && more[i].key !in locked
  {
  }

  /** A batch holds at most a hundred rows, and fewer only if no other row waits unlocked; older rows go
      first. */
  lemma BatchesOfAHundred(t: Table, locked: set<Key>, batch: seq<Key>, k: Key)
    requires Selected(t, locked, batch) && k in t && t[k].publishedAt.None? && k !in locked && k !in batch
    ensures |batch| == 100 && forall i :: 0 <= i < |batch| ==> batch[i] in t && t[batch[i]].createdAt <= t[k].createdAt
  {
  }

  /** Cleanup deletes published rows up to the cutoff and nothing else, and fewer than its limit only if
      no other such row is unlocked. */
  lemma CleanupMeans(t: Table, t': Table, locked: set<Key>, cutoff: Time, limit: int, batch: seq<Key>, k: Key)
    requires SelectedForCleanup(t, locked, cutoff, limit, batch) && k in t && t' == (map n | n in t && n !in batch :: t[n])
    ensures k !in t' ==> t[k].publishedAt.Some? && t[k].publishedAt.value <= cutoff && k !in locked
    ensures |batch| < limit && k !in locked && t[k].publishedAt.Some? && t[k].publishedAt.value <= cutoff ==> k !in t'
    ensures k in t' ==> t'[k] == t[k]
  {
  }
}
