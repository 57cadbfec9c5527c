/** The transactional outbox: gapless sequences, per-aggregate versions, a 30-day
    retention window, snapshot watermarks and cursor-driven delivery. */
module DomainEvents {
  import opened Wrappers

  type Uuid = nat

  // Instants and durations are integers counting microseconds.
  const EVENT_RETENTION: int := 30 * 24 * 60 * 60 * 1_000_000
  const PAGE_LIMIT: nat := 100

  datatype Stream = MetadataStream | CacheStream | CredentialStream | CatalogStream | NotificationStream

  datatype AggregateKey = AggregateKey(stream: Stream, aggregate: Uuid)

  datatype Event = Event(id: Uuid, sequence: nat, key: AggregateKey, streamVersion: nat,
                         kind: string, payload: string, occurredAt: int, expiresAt: int)

  /** The three tables: the retained events, the global sequence (0 while its row is
      missing) and the version reached by each aggregate. */
  datatype Log = Log(rows: seq<Event>, sequence: nat, versions: map<AggregateKey, nat>)

  datatype CursorProblem = EventCursorUnavailable

  // ---------------------------------------------------------------- queries

  /** Rows after a sequence number that are still inside the retention window. */
  function Select(rows: seq<Event>, after: nat, now: int): seq<Event> {
    if rows == [] then []
    else (if Selected(rows[0], after, now) then [rows[0]] else []) + Select(rows[1..], after, now)
  }

  predicate Selected(e: Event, after: nat, now: int) {
    e.sequence > after && e.expiresAt > now
  }

  function Take<T>(s: seq<T>, n: nat): seq<T> {
    if |s| <= n then s else s[..n]
  }

  function Retained(rows: seq<Event>, now: int): seq<Event> {
    if rows == [] then []
    else (if rows[0].expiresAt <= now then [] else [rows[0]]) + Retained(rows[1..], now)
  }

  /** The sequence a cursor stands for: the cursor's event must still be unexpired. */
  function CursorSequence(rows: seq<Event>, now: int, cursor: Option<Uuid>): Result<nat, CursorProblem> {
    match cursor
    case None => Ok(0)
    case Some(id) =>
      if exists i :: 0 <= i < |rows| && rows[i].id == id && rows[i].expiresAt > now
      then Ok(SequenceOf(rows, now, id)) else Err(EventCursorUnavailable)
  }

  function SequenceOf(rows: seq<Event>, now: int, id: Uuid): nat
    requires exists i :: 0 <= i < |rows| && rows[i].id == id && rows[i].expiresAt > now
  {
    if rows[0].id == id && rows[0].expiresAt > now then rows[0].sequence
    else
      assert exists i :: 0 <= i < |rows[1..]| && rows[1..][i].id == id && rows[1..][i].expiresAt > now by {
        var i :| 0 <= i < |rows| && rows[i].id == id && rows[i].expiresAt > now;
        assert rows[1..][i - 1] == rows[i];
      }
      SequenceOf(rows[1..], now, id)
  }

  function Page(rows: seq<Event>, now: int, cursor: Option<Uuid>, limit: nat): Result<seq<Event>, CursorProblem> {
    match CursorSequence(rows, now, cursor)
    case Ok(after) => Ok(Take(Select(rows, after, now), limit))
    case Err(problem) => Err(problem)
  }

  /** The snapshot's version and the handle of the event carrying it, when one is still readable. */
  function Watermark(log: Log, now: int): (nat, Option<Uuid>) {
    (log.sequence, NewestId(log.rows, log.sequence, now))
  }

  function NewestId(rows: seq<Event>, sequence: nat, now: int): Option<Uuid> {
    if rows == [] then None
    else if rows[0].sequence == sequence && rows[0].expiresAt > now then Some(rows[0].id)
    else NewestId(rows[1..], sequence, now)
  }

  function VersionAfter(log: Log, key: AggregateKey): nat {
    if key in log.versions then log.versions[key] + 1 else 1
  }

  function NewEvent(log: Log, now: int, key: AggregateKey, kind: string, payload: string, id: Uuid): Event {
    Event(id, log.sequence + 1, key, VersionAfter(log, key), kind, payload, now, now + EVENT_RETENTION)
  }

  function Appended(log: Log, e: Event): Log {
    Log(log.rows + [e], e.sequence, log.versions[e.key := e.streamVersion])
  }

  // -------------------------------------- the unexpired rows are a suffix of the table

  /** Append order: sequences increase, expiry never decreases, ids are distinct. */
  ghost predicate Ordered(rows: seq<Event>) {
    && (forall i, j :: 0 <= i < j < |rows| ==> rows[i].sequence < rows[j].sequence)
    && (forall i, j :: 0 <= i < j < |rows| ==> rows[i].expiresAt <= rows[j].expiresAt)
    && (forall i, j :: 0 <= i < j < |rows| ==> rows[i].id != rows[j].id)
  }

  ghost function FirstSelected(rows: seq<Event>, after: nat, now: int): (k: nat)
    ensures k <= |rows|
    ensures forall i :: 0 <= i < k ==> !Selected(rows[i], after, now)
    ensures k < |rows| ==> Selected(rows[k], after, now)
  {
    if rows == [] || Selected(rows[0], after, now) then 0 else 1 + FirstSelected(rows[1..], after, now)
  }

  lemma {:induction false} SelectIsSuffix(rows: seq<Event>, after: nat, now: int)
    requires Ordered(rows)
    ensures var k := FirstSelected(rows, after, now);
            && Select(rows, after, now) == rows[k..]
            && forall i :: k <= i < |rows| ==> Selected(rows[i], after, now)
  {
    if rows != [] {
      OrderedTail(rows);
      if Selected(rows[0], after, now) {
        SelectedUpward(rows, after, now);
        SelectEverything(rows, after, now);
      } else {
        SelectIsSuffix(rows[1..], after, now);
      }
    }
  }

  lemma SelectedUpward(rows: seq<Event>, after: nat, now: int)
    requires Ordered(rows) && rows != [] && Selected(rows[0], after, now)
    ensures forall i :: 0 <= i < |rows| ==> Selected(rows[i], after, now)
  {
  }

  lemma {:induction false} SelectEverything(rows: seq<Event>, after: nat, now: int)
    requires forall i :: 0 <= i < |rows| ==> Selected(rows[i], after, now)
    ensures Select(rows, after, now) == rows
  {
    if rows != [] {
      SelectEverything(rows[1..], after, now);
    }
  }

  lemma OrderedTail(rows: seq<Event>)
    requires Ordered(rows) && rows != []
    ensures Ordered(rows[1..])
  {
  }

  /** A row that is still unexpired is found by its own handle. */
  lemma {:induction false} CursorAt(rows: seq<Event>, now: int, i: nat)
    requires Ordered(rows) && i < |rows| && rows[i].expiresAt > now
    ensures CursorSequence(rows, now, Some(rows[i].id)) == Ok(rows[i].sequence)
  {
    SequenceOfRow(rows, now, i);
  }

  lemma {:induction false} SequenceOfRow(rows: seq<Event>, now: int, i: nat)
    requires Ordered(rows) && i < |rows| && rows[i].expiresAt > now
    ensures SequenceOf(rows, now, rows[i].id) == rows[i].sequence
  {
    if i > 0 {
      OrderedTail(rows);
      SequenceOfRow(rows[1..], now, i - 1);
    }
  }

  /** What follows an unexpired row is exactly the rest of the table. */
  lemma SelectAfterRow(rows: seq<Event>, i: nat, now: int)
    requires Ordered(rows) && i < |rows| && rows[i].expiresAt > now
    ensures Select(rows, rows[i].sequence, now) == rows[i + 1..]
  {
    SelectIsSuffix(rows, rows[i].sequence, now);
    assert !Selected(rows[i], rows[i].sequence, now);
    assert i + 1 < |rows| ==> Selected(rows[i + 1], rows[i].sequence, now);
  }

  function LastId(sent: seq<Event>, start: Option<Uuid>): Option<Uuid> {
    if sent == [] then start else Some(sent[|sent| - 1].id)
  }

  /** The drain loop's progress: what was sent is a prefix of everything behind the start. */
  ghost predicate Draining(rows: seq<Event>, now: int, start: Option<Uuid>, sent: seq<Event>, cursor: Option<Uuid>) {
    var from := CursorSequence(rows, now, start);
    && cursor == LastId(sent, start)
    && (from.Err? ==> sent == [])
    && (from.Ok? ==> sent <= Select(rows, from.value, now) && |sent| <= |rows|)
  }

  /** One page: it fails exactly when the start was unreadable, it moves the drain on, and a
      short page means that nothing is left. */
  lemma DrainPage(rows: seq<Event>, now: int, start: Option<Uuid>, sent: seq<Event>, cursor: Option<Uuid>)
    requires Ordered(rows) && Draining(rows, now, start, sent, cursor)
    ensures var from := CursorSequence(rows, now, start);
            var page := Page(rows, now, cursor, PAGE_LIMIT);
            && (page.Err? <==> from.Err?)
            && (page.Ok? ==>
                  && Draining(rows, now, start, sent + page.value, LastId(sent + page.value, start))
                  && (|page.value| < PAGE_LIMIT ==> sent + page.value == Select(rows, from.value, now)))
  {
    var from := CursorSequence(rows, now, start);
    if from.Ok? {
      PageBehind(rows, now, start, sent, cursor);
      PrefixTake(Select(rows, from.value, now), sent, PAGE_LIMIT);
      SelectAtMost(rows, from.value, now);
    }
  }

  lemma PageBehind(rows: seq<Event>, now: int, start: Option<Uuid>, sent: seq<Event>, cursor: Option<Uuid>)
    requires Ordered(rows) && Draining(rows, now, start, sent, cursor)
    requires CursorSequence(rows, now, start).Ok?
    ensures var all := Select(rows, CursorSequence(rows, now, start).value, now);
            Page(rows, now, cursor, PAGE_LIMIT) == Ok(Take(all[|sent|..], PAGE_LIMIT))
  {
    var after := CursorSequence(rows, now, start).value;
    var all, k := Select(rows, after, now), FirstSelected(rows, after, now);
    SelectIsSuffix(rows, after, now);
    if sent == [] {
      assert all[|sent|..] == all;
    } else {
      var i := k + |sent| - 1;
      assert sent[|sent| - 1] == all[|sent| - 1] == rows[i];
      CursorAt(rows, now, i);
      SelectAfterRow(rows, i, now);
      assert all[|sent|..] == rows[i + 1..];
    }
  }

  lemma SelectAtMost(rows: seq<Event>, after: nat, now: int)
    ensures |Select(rows, after, now)| <= |rows|
  {
  }

  lemma PrefixTake<T>(all: seq<T>, done: seq<T>, n: nat)
    requires done <= all
    ensures var t := Take(all[|done|..], n);
            && done + t <= all
            && (|t| < n ==> done + t == all)
  {
  }

  // ------------------------------------------------- what a page is

  /** Some unexpired event has this id. */
  predicate Readable(rows: seq<Event>, now: int, id: Uuid) {
    exists i :: 0 <= i < |rows| && rows[i].id == id && rows[i].expiresAt > now
  }

  /** From row k on, every row is unexpired, and none before it still counts. */
  ghost predicate UnexpiredFrom(rows: seq<Event>, now: int, k: nat) {
    && k <= |rows|
    && (forall i :: 0 <= i < k ==> rows[i].expiresAt <= now || rows[i].sequence == 0)
    && (forall i :: k <= i < |rows| ==> rows[i].expiresAt > now && rows[i].sequence > 0)
  }

  /** The page starts right behind the cursor's row, or at the first unexpired row without a cursor,
      and runs on without a gap over unexpired rows. */
  ghost predicate PageFrom(rows: seq<Event>, now: int, cursor: Option<Uuid>, limit: nat, page: seq<Event>, k: nat) {
    && k <= |rows| && page == Take(rows[k..], limit)
    && (forall i :: k <= i < |rows| ==> rows[i].expiresAt > now)
    && (cursor == None ==> UnexpiredFrom(rows, now, k))
    && (cursor.Some? ==> k > 0 && rows[k - 1].id == cursor.value && rows[k - 1].expiresAt > now)
  }

  /** A page fails exactly on a cursor that names no unexpired event; otherwise it is the next rows
      behind the cursor, of which the cursor's own is the last one left out. */
  lemma {:induction false} PageMeaning(rows: seq<Event>, now: int, cursor: Option<Uuid>, limit: nat)
    requires Ordered(rows)
    ensures Page(rows, now, cursor, limit).Err? <==> cursor.Some? && !Readable(rows, now, cursor.value)
    ensures Page(rows, now, cursor, limit).Ok? ==>
              exists k :: PageFrom(rows, now, cursor, limit, Page(rows, now, cursor, limit).value, k)
  {
    if cursor == None {
      SelectIsSuffix(rows, 0, now);
      assert PageFrom(rows, now, cursor, limit, Page(rows, now, cursor, limit).value, FirstSelected(rows, 0, now));
    } else if Readable(rows, now, cursor.value) {
      var i :| 0 <= i < |rows| && rows[i].id == cursor.value && rows[i].expiresAt > now;
      CursorAt(rows, now, i);
      SelectAfterRow(rows, i, now);
      assert PageFrom(rows, now, cursor, limit, Page(rows, now, cursor, limit).value, i + 1);
    }
  }

  /** An appended event carries what it was given, becomes the watermark, and can be read by its own id
      for exactly thirty days. */
  lemma AppendedIsReadable(log: Log, now: int, key: AggregateKey, kind: string, payload: string, id: Uuid, later: int)
    requires forall e :: e in log.rows ==> e.id != id && e.sequence <= log.sequence
    ensures var e := NewEvent(log, now, key, kind, payload, id);
            var log' := Appended(log, e);
            && e.key == key && e.kind == kind && e.payload == payload && e.occurredAt == now
            && log'.rows == log.rows + [e] && log'.sequence == log.sequence + 1
            && (forall k :: k != key ==> VersionAfter(log', k) == VersionAfter(log, k))
            && VersionAfter(log', key) == VersionAfter(log, key) + 1
            && (Readable(log'.rows, later, id) <==> later < now + 30 * 24 * 3_600 * 1_000_000)
            && Watermark(log', later) == (log.sequence + 1, if later < now + 30 * 24 * 3_600 * 1_000_000 then Some(id) else None)
  {
    var e := NewEvent(log, now, key, kind, payload, id);
    var rows := log.rows + [e];
    assert rows[|log.rows|] == e;
    assert forall i :: 0 <= i < |log.rows| ==> rows[i] == log.rows[i] && log.rows[i] in log.rows;
    NewestIsLast(log.rows, e, later);
  }

  lemma {:induction false} NewestIsLast(rows: seq<Event>, e: Event, now: int)
    requires forall r :: r in rows ==> r.sequence < e.sequence
    ensures NewestId(rows + [e], e.sequence, now) == if e.expiresAt > now then Some(e.id) else None
  {
    if rows != [] {
      assert rows[0] in rows && (rows + [e])[1..] == rows[1..] + [e];
      NewestIsLast(rows[1..], e, now);
    }
  }

  // ------------------------------------------------- the store and its writers

  class EventStore {
    var rows: seq<Event>
    var sequence: nat
    var versions: map<AggregateKey, nat>

    ghost function Contents(): Log
      reads this
    {
      Log(rows, sequence, versions)
    }

    constructor ()
      ensures Contents() == Log([], 0, map[])
    {
      rows, sequence, versions := [], 0, map[];
    }

    /** `acceptable` is the outcome of the event-type and redaction checks, which are foreign
        calls. A refused append rolls back: the sequence does not move. */
    method Append(now: int, key: AggregateKey, kind: string, payload: string, id: Uuid, acceptable: bool)
      returns (event: Option<Event>)
      modifies this
      ensures !acceptable ==> event == None && Contents() == old(Contents())
      ensures acceptable ==>
                && event == Some(NewEvent(old(Contents()), now, key, kind, payload, id))
                && Contents() == Appended(old(Contents()), event.value)
    {
      if !acceptable {
        return None;
      }
      sequence := sequence + 1;
      var version;
      if key !in versions {
        version := 1;
      } else {
        version := versions[key] + 1;
      }
      versions := versions[key := version];
      var e := Event(id, sequence, key, version, kind, payload, now, now + EVENT_RETENTION);
      rows := rows + [e];
      return Some(e);
    }

    method PruneExpired(now: int) returns (removed: nat)
      modifies this`rows
      ensures rows == Retained(old(rows), now)
      ensures removed == |old(rows)| - |rows|
    {
      ghost var before := rows;
      var kept := [];
      removed := 0;
      for i := 0 to |rows|
        invariant rows == before
        invariant kept + Retained(rows[i..], now) == Retained(before, now)
        invariant removed == i - |kept|
      {
        assert rows[i..][1..] == rows[i + 1..];
        if rows[i].expiresAt <= now {
          removed := removed + 1;
        } else {
          kept := kept + [rows[i]];
        }
      }
      rows := kept;
    }

    /** Rows come back in the order of the table, which every reachable store keeps ordered by
        sequence (see `LogInv`); that is the query's ORDER BY. */
    method ReadAfter(now: int, cursor: Option<Uuid>, limit: nat) returns (page: Result<seq<Event>, CursorProblem>)
      requires 1 <= limit <= PAGE_LIMIT
      ensures page == Page(rows, now, cursor, limit)
      ensures page.Err? <==> cursor.Some? && !Readable(rows, now, cursor.value)
      ensures Ordered(rows) && page.Ok? ==>
                |page.value| <= limit && exists k :: PageFrom(rows, now, cursor, limit, page.value, k)
    {
      if Ordered(rows) {
        PageMeaning(rows, now, cursor, limit);
      }
      var after := CursorSequence(rows, now, cursor);
      if after.Err? {
        return Err(after.error);
      }
      page := Ok(Take(Select(rows, after.value, now), limit));
    }

    static method SendEach(events: seq<Event>, sentBefore: seq<Event>, cursorBefore: Option<Uuid>, ghost start: Option<Uuid>)
      returns (sent: seq<Event>, cursor: Option<Uuid>)
      requires cursorBefore == LastId(sentBefore, start)
      ensures sent == sentBefore + events && cursor == LastId(sent, start)
    {
      sent, cursor := sentBefore, cursorBefore;
      for i := 0 to |events|
        invariant sent == sentBefore + events[..i]
        invariant cursor == LastId(sent, start)
      {
        sent := sent + [events[i]];
        cursor := Some(events[i].id);
      }
    }

    /** The web socket's drain loop, run to its end at one instant: pages of 100 rows add up to
        every unexpired row behind the cursor, and the cursor moves to the last one sent. */
    method SendAvailable(now: int, start: Option<Uuid>)
      returns (outcome: Result<Option<Uuid>, CursorProblem>, sent: seq<Event>)
      requires Ordered(rows)
      ensures outcome.Err? <==> CursorSequence(rows, now, start).Err?
      ensures outcome.Err? ==> sent == []
      ensures outcome.Ok? ==>
                && sent == Select(rows, CursorSequence(rows, now, start).value, now)
                && outcome.value == LastId(sent, start)
    {
      sent := [];
      var cursor := start;
      while true
        invariant Draining(rows, now, start, sent, cursor)
        decreases |rows| - |sent|
      {
        DrainPage(rows, now, start, sent, cursor);
        var page := ReadAfter(now, cursor, PAGE_LIMIT);
        if page.Err? {
          return Err(page.error), [];
        }
        var events := page.value;
        sent, cursor := SendEach(events, sent, cursor, start);
        if |events| < PAGE_LIMIT {
          return Ok(cursor), sent;
        }
      }
    }
  }
}
