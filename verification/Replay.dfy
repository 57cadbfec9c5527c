/** Runs of the event store with one subscriber: a client takes a snapshot, opens a web socket
    at the snapshot's cursor and polls, while other transactions append, prune and the clock
    moves between any two of its page reads. */
module EventReplay {
  import opened Wrappers
  import opened DomainEvents

  /** `history` is every event ever committed; it only exists to state what delivery means. */
  datatype World = World(log: Log, history: seq<Event>, now: int, session: Session)

  datatype Session = Session(cursor: Option<Uuid>, delivered: seq<Event>, closed: bool)

  datatype Action =
    | Append(key: AggregateKey, kind: string, payload: string, id: Uuid)
    | Prune
    | Tick(elapsed: int)
    | Poll

  /** Event ids are fresh and the clock does not run backwards. */
  ghost predicate Allowed(w: World, a: Action) {
    match a
    case Append(_, _, _, id) => forall e :: e in w.history ==> e.id != id
    case Tick(elapsed) => elapsed >= 0
    case _ => true
  }

  function Step(w: World, a: Action): World {
    match a
    case Append(key, kind, payload, id) =>
      var e := NewEvent(w.log, w.now, key, kind, payload, id);
      w.(log := Appended(w.log, e), history := w.history + [e])
    case Prune => w.(log := w.log.(rows := Retained(w.log.rows, w.now)))
    case Tick(elapsed) => w.(now := w.now + elapsed)
    case Poll => w.(session := Polled(w))
  }

  /** One page read by the subscriber; an unreadable cursor closes the connection for good. */
  function Polled(w: World): Session {
    if w.session.closed then w.session
    else
      match Page(w.log.rows, w.now, w.session.cursor, PAGE_LIMIT)
      case Err(_) => w.session.(closed := true)
      case Ok(events) =>
        Session(LastId(events, w.session.cursor), w.session.delivered + events, false)
  }

  function Run(w: World, actions: seq<Action>): World
    decreases |actions|
  {
    if actions == [] then w else Run(Step(w, actions[0]), actions[1..])
  }

  ghost predicate AllowedRun(w: World, actions: seq<Action>)
    decreases |actions|
  {
    actions == [] || (Allowed(w, actions[0]) && AllowedRun(Step(w, actions[0]), actions[1..]))
  }

  function Empty(now: int): World {
    World(Log([], 0, map[]), [], now, Session(None, [], true))
  }

  /** The client takes a snapshot and connects with the cursor it was given. */
  function Connected(w: World): World {
    w.(session := Session(Watermark(w.log, w.now).1, [], false))
  }

  // ------------------------------------------------------------- the store's invariant

  ghost predicate HistoryInv(history: seq<Event>, now: int) {
    && (forall i :: 0 <= i < |history| ==> history[i].sequence == i + 1)
    && (forall i :: 0 <= i < |history| ==> history[i].expiresAt == history[i].occurredAt + EVENT_RETENTION)
    && (forall i :: 0 <= i < |history| ==> history[i].occurredAt <= now)
    && (forall i, j :: 0 <= i < j < |history| ==> history[i].occurredAt <= history[j].occurredAt)
    && (forall i, j :: 0 <= i < j < |history| ==> history[i].id != history[j].id)
  }

  /** How many events an aggregate has had. */
  function Count(history: seq<Event>, key: AggregateKey): nat {
    if history == [] then 0
    else Count(history[..|history| - 1], key) + (if history[|history| - 1].key == key then 1 else 0)
  }

  /** An event's version is its rank among the events of its aggregate. */
  ghost predicate Versioned(history: seq<Event>, i: int)
    requires 0 <= i < |history|
  {
    history[i].streamVersion == Count(history[..i + 1], history[i].key)
  }

  ghost predicate VersionsInv(history: seq<Event>, versions: map<AggregateKey, nat>) {
    && (forall i :: 0 <= i < |history| ==> Versioned(history, i))
    && (forall key :: (key in versions <==> Count(history, key) > 0))
    && (forall key :: key in versions ==> versions[key] == Count(history, key))
  }

  function Pruned(w: World): int {
    |w.history| - |w.log.rows|
  }

  /** The table is the history without a prefix of expired events. */
  ghost predicate TableInv(w: World) {
    && 0 <= Pruned(w)
    && w.log.rows == w.history[Pruned(w)..]
    && (forall i :: 0 <= i < Pruned(w) ==> w.history[i].expiresAt <= w.now)
    && w.log.sequence == |w.history|
  }

  ghost predicate LogInv(w: World) {
    HistoryInv(w.history, w.now) && VersionsInv(w.history, w.log.versions) && TableInv(w)
  }

  lemma SuffixOrdered(history: seq<Event>, now: int, p: nat)
    requires HistoryInv(history, now) && p <= |history|
    ensures Ordered(history[p..])
  {
  }

  lemma {:induction false} RetainedIsSelect(rows: seq<Event>, now: int)
    requires forall i :: 0 <= i < |rows| ==> rows[i].sequence > 0
    ensures Retained(rows, now) == Select(rows, 0, now)
  {
    if rows != [] {
      RetainedIsSelect(rows[1..], now);
    }
  }

  /** The unexpired part of the table, and so of the history, is a suffix. */
  lemma UnexpiredSuffix(w: World) returns (k: nat)
    requires LogInv(w)
    ensures Pruned(w) <= k <= |w.history|
    ensures Select(w.log.rows, 0, w.now) == w.history[k..]
    ensures forall i :: 0 <= i < k ==> w.history[i].expiresAt <= w.now
    ensures forall i :: k <= i < |w.history| ==> w.history[i].expiresAt > w.now
  {
    k := SelectFromHistory(w.history, w.now, Pruned(w));
  }

  lemma SelectFromHistory(history: seq<Event>, now: int, p: nat) returns (k: nat)
    requires HistoryInv(history, now) && p <= |history|
    requires forall i :: 0 <= i < p ==> history[i].expiresAt <= now
    ensures p <= k <= |history|
    ensures Select(history[p..], 0, now) == history[k..]
    ensures forall i :: 0 <= i < k ==> history[i].expiresAt <= now
    ensures forall i :: k <= i < |history| ==> history[i].expiresAt > now
  {
    var rows := history[p..];
    SuffixOrdered(history, now, p);
    SelectIsSuffix(rows, 0, now);
    var f := FirstSelected(rows, 0, now);
    k := p + f;
    assert f > 0 ==> !Selected(rows[f - 1], 0, now);
    ExpirySplits(history, now, k);
  }

  lemma ExpirySplits(history: seq<Event>, now: int, k: nat)
    requires HistoryInv(history, now) && k <= |history|
    requires k > 0 ==> history[k - 1].expiresAt <= now
    requires k < |history| ==> history[k].expiresAt > now
    ensures forall i :: 0 <= i < k ==> history[i].expiresAt <= now
    ensures forall i :: k <= i < |history| ==> history[i].expiresAt > now
  {
  }

  lemma PruneKeepsTable(w: World)
    requires LogInv(w)
    ensures TableInv(Step(w, Prune))
  {
    var k := UnexpiredSuffix(w);
    RetainedIsSelect(w.log.rows, w.now);
  }

  lemma AppendKeepsVersions(w: World, a: Action)
    requires LogInv(w) && a.Append?
    ensures VersionsInv(Step(w, a).history, Step(w, a).log.versions)
  {
    var h, h' := w.history, Step(w, a).history;
    var e := h'[|h|];
    assert h'[..|h|] == h;
    assert forall key :: Count(h', key) == Count(h, key) + (if e.key == key then 1 else 0);
    forall i | 0 <= i < |h'| ensures Versioned(h', i) {
      if i < |h| {
        assert Versioned(h, i);
        assert h'[..i + 1] == h[..i + 1];
      } else {
        assert h'[..i + 1] == h';
      }
    }
  }

  lemma AppendKeepsTable(w: World, a: Action)
    requires LogInv(w) && a.Append?
    ensures TableInv(Step(w, a))
  {
    var w' := Step(w, a);
    assert w'.log.rows == w'.history[Pruned(w)..];
  }

  lemma StepKeepsLogInv(w: World, a: Action)
    requires LogInv(w) && Allowed(w, a)
    ensures LogInv(Step(w, a))
  {
    match a
    case Append(_, _, _, _) =>
      AppendKeepsVersions(w, a);
      AppendKeepsTable(w, a);
    case Prune => PruneKeepsTable(w);
    case Tick(_) =>
    case Poll =>
  }

  /** Pruning after any time has passed leaves exactly the events of the history whose window is still
      open at that instant, in their order. */
  lemma PruneKeepsTheWindow(w: World, elapsed: nat)
    requires LogInv(w)
    ensures var w' := Step(Step(w, Tick(elapsed)), Prune);
            && w'.history == w.history && w'.session == w.session
            && exists k: nat ::
                 && k <= |w.history| && w'.log == w.log.(rows := w.history[k..])
                 && (forall i :: 0 <= i < k ==> w.history[i].expiresAt <= w.now + elapsed)
                 && (forall i :: k <= i < |w.history| ==> w.history[i].expiresAt > w.now + elapsed)
  {
    var later := Step(w, Tick(elapsed));
    StepKeepsLogInv(w, Tick(elapsed));
    var k := UnexpiredSuffix(later);
    RetainedIsSelect(later.log.rows, later.now);
    hide LogInv;
    assert Step(later, Prune).log.rows == w.history[k..];
  }

  lemma {:induction false} RunKeepsLogInv(w: World, actions: seq<Action>)
    requires LogInv(w) && AllowedRun(w, actions)
    ensures LogInv(Run(w, actions))
    decreases |actions|
  {
    if actions != [] {
      StepKeepsLogInv(w, actions[0]);
      RunKeepsLogInv(Step(w, actions[0]), actions[1..]);
    }
  }

  lemma EmptyIsSound(now: int)
    ensures LogInv(Empty(now))
  {
  }

  // ---------------------------------------------------------------- what was delivered

  /** Position in the history of the first event delivered. */
  function Start(version: nat, delivered: seq<Event>): int {
    if delivered == [] then version else delivered[0].sequence - 1
  }

  /** Delivery since a snapshot at `version` is one gapless stretch of the history. It begins
      right behind the snapshot, except that a client whose snapshot had no cursor may start
      behind events that had already expired. */
  ghost predicate Faithful(w: World, version: nat, anchored: bool) {
    var delivered := w.session.delivered;
    var s := Start(version, delivered);
    && version <= s && s + |delivered| <= |w.history|
    && delivered == w.history[s..s + |delivered|]
    && (anchored ==> s == version)
    && (forall i :: version <= i < s ==> w.history[i].expiresAt <= w.now)
  }

  ghost predicate CursorInv(w: World, version: nat, anchored: bool) {
    var delivered := w.session.delivered;
    if delivered != [] then w.session.cursor == Some(delivered[|delivered| - 1].id)
    else if anchored then 1 <= version <= |w.history| && w.session.cursor == Some(w.history[version - 1].id)
    else w.session.cursor == None && version <= |w.history|
         && forall i :: 0 <= i < version ==> w.history[i].expiresAt <= w.now
  }

  /** The history position just behind the cursor. */
  function Next(w: World, version: nat): int {
    Start(version, w.session.delivered) + |w.session.delivered|
  }

  /** The snapshot's cursor is missing exactly when the whole history had expired. */
  lemma {:induction false} WatermarkMeaning(w: World)
    requires LogInv(w)
    ensures var (version, last) := Watermark(w.log, w.now);
            && version == |w.history|
            && (last == None <==> forall i :: 0 <= i < |w.history| ==> w.history[i].expiresAt <= w.now)
            && (last != None ==> version >= 1 && last == Some(w.history[version - 1].id))
  {
    NewestIdOfSuffix(w.log.rows, w.log.sequence, w.now);
    var n := |w.history|;
    if n > 0 {
      assert forall i :: 0 <= i < n ==> w.history[i].expiresAt <= w.history[n - 1].expiresAt;
      if w.log.rows != [] {
        assert w.log.rows[|w.log.rows| - 1] == w.history[n - 1];
      }
    }
  }

  lemma {:induction false} NewestIdOfSuffix(rows: seq<Event>, sequence: nat, now: int)
    requires forall i :: 0 <= i < |rows| ==> rows[i].sequence == sequence - |rows| + 1 + i
    ensures NewestId(rows, sequence, now) ==
            if rows != [] && rows[|rows| - 1].expiresAt > now then Some(rows[|rows| - 1].id) else None
  {
    if |rows| > 1 {
      NewestIdOfSuffix(rows[1..], sequence, now);
    }
  }

  /** A page read with a cursor returns the stretch of history right behind it, or fails exactly
      when the cursor's event has expired. */
  lemma AnchoredPage(w: World, n: nat)
    requires LogInv(w) && 1 <= n <= |w.history|
    ensures var page := Page(w.log.rows, w.now, Some(w.history[n - 1].id), PAGE_LIMIT);
            && (page.Err? <==> w.history[n - 1].expiresAt <= w.now)
            && (page.Ok? ==> page.value == Take(w.history[n..], PAGE_LIMIT))
  {
    var rows, p := w.log.rows, Pruned(w);
    SuffixOrdered(w.history, w.now, p);
    if w.history[n - 1].expiresAt > w.now {
      assert rows[n - 1 - p] == w.history[n - 1];
      CursorAt(rows, w.now, n - 1 - p);
      SelectAfterRow(rows, n - 1 - p, w.now);
      assert rows[n - p..] == w.history[n..];
    } else {
      forall i | 0 <= i < |rows| && rows[i].id == w.history[n - 1].id ensures rows[i].expiresAt <= w.now {
        assert rows[i] == w.history[p + i];
      }
    }
  }

  // ----------------------------------------------------------------- delivery is exact

  lemma Stretch(history: seq<Event>, s: nat, n: nat, limit: nat)
    requires s <= n <= |history|
    ensures var more := Take(history[n..], limit);
            && n + |more| <= |history|
            && more == history[n..n + |more|]
            && history[s..n] + more == history[s..n + |more|]
  {
    var more := Take(history[n..], limit);
    var end := n + |more|;
    assert more == history[n..end];
    forall i | 0 <= i < end - s ensures (history[s..n] + history[n..end])[i] == history[s..end][i] {
    }
  }

  ghost predicate Numbered(history: seq<Event>) {
    forall i :: 0 <= i < |history| ==> history[i].sequence == i + 1
  }

  /** Taking the next stretch keeps delivery faithful. */
  lemma Advance(w: World, version: nat, anchored: bool)
    requires Numbered(w.history) && Faithful(w, version, anchored) && CursorInv(w, version, anchored)
    requires w.session.delivered != [] || anchored
    ensures var more := Take(w.history[Next(w, version)..], PAGE_LIMIT);
            var w' := w.(session := Session(LastId(more, w.session.cursor), w.session.delivered + more, false));
            Faithful(w', version, anchored) && CursorInv(w', version, anchored)
  {
    var s, n := Start(version, w.session.delivered), Next(w, version);
    Stretch(w.history, s, n, PAGE_LIMIT);
    var more := Take(w.history[n..], PAGE_LIMIT);
    var delivered' := w.session.delivered + more;
    assert delivered' == w.history[s..n + |more|];
    assert delivered' != [] ==> delivered'[0] == w.history[s];
    assert delivered' != [] ==> delivered'[|delivered'| - 1] == w.history[n + |more| - 1];
  }

  lemma CursorEvent(w: World, version: nat, anchored: bool)
    requires Faithful(w, version, anchored) && CursorInv(w, version, anchored)
    requires w.session.delivered != [] || anchored
    ensures 1 <= Next(w, version) <= |w.history|
    ensures w.session.cursor == Some(w.history[Next(w, version) - 1].id)
  {
  }

  lemma PollAtCursor(w: World, n: nat)
    requires LogInv(w) && 1 <= n <= |w.history|
    requires !w.session.closed && w.session.cursor == Some(w.history[n - 1].id)
    ensures Polled(w) ==
            if w.history[n - 1].expiresAt <= w.now then w.session.(closed := true)
            else var more := Take(w.history[n..], PAGE_LIMIT);
                 Session(LastId(more, w.session.cursor), w.session.delivered + more, false)
  {
    AnchoredPage(w, n);
  }

  /** Behind a cursor, a poll appends the next stretch of history or closes the connection. */
  lemma PollBehindCursor(w: World, version: nat, anchored: bool)
    requires LogInv(w) && Faithful(w, version, anchored) && CursorInv(w, version, anchored)
    requires !w.session.closed && (w.session.delivered != [] || anchored)
    ensures Faithful(Step(w, Poll), version, anchored) && CursorInv(Step(w, Poll), version, anchored)
  {
    CursorEvent(w, version, anchored);
    PollAtCursor(w, Next(w, version));
    if w.history[Next(w, version) - 1].expiresAt <= w.now {
      CloseKeepsDelivery(w, version, anchored);
    } else {
      Advance(w, version, anchored);
    }
  }

  lemma CloseKeepsDelivery(w: World, version: nat, anchored: bool)
    requires Faithful(w, version, anchored) && CursorInv(w, version, anchored)
    ensures var w' := w.(session := w.session.(closed := true));
            Faithful(w', version, anchored) && CursorInv(w', version, anchored)
  {
  }

  lemma PollWithoutCursor(w: World, version: nat)
    requires LogInv(w) && CursorInv(w, version, false)
    requires !w.session.closed && w.session.delivered == []
    ensures Faithful(Step(w, Poll), version, false) && CursorInv(Step(w, Poll), version, false)
  {
    var k := UnexpiredSuffix(w);
    assert k < |w.history| ==> w.history[k].expiresAt > w.now;
    var more := Take(w.history[k..], PAGE_LIMIT);
    assert Step(w, Poll) == w.(session := Session(LastId(more, None), [] + more, false));
    FirstPage(w, version, k);
  }

  lemma FirstPage(w: World, version: nat, k: nat)
    requires Numbered(w.history) && version <= k <= |w.history|
    requires forall i :: 0 <= i < k ==> w.history[i].expiresAt <= w.now
    ensures var more := Take(w.history[k..], PAGE_LIMIT);
            var w' := w.(session := Session(LastId(more, None), [] + more, false));
            Faithful(w', version, false) && CursorInv(w', version, false)
  {
    Stretch(w.history, k, k, PAGE_LIMIT);
    var more := Take(w.history[k..], PAGE_LIMIT);
    assert [] + more == more == w.history[k..k + |more|];
    assert more != [] ==> more[0] == w.history[k];
  }

  lemma StepKeepsDelivery(w: World, a: Action, version: nat, anchored: bool)
    requires LogInv(w) && Allowed(w, a)
    requires Faithful(w, version, anchored) && CursorInv(w, version, anchored)
    ensures Faithful(Step(w, a), version, anchored) && CursorInv(Step(w, a), version, anchored)
  {
    if a.Poll? && !w.session.closed {
      if w.session.delivered != [] || anchored {
        PollBehindCursor(w, version, anchored);
      } else {
        PollWithoutCursor(w, version);
      }
    }
  }

  lemma {:induction false} RunKeepsDelivery(w: World, actions: seq<Action>, version: nat, anchored: bool)
    requires LogInv(w) && AllowedRun(w, actions)
    requires Faithful(w, version, anchored) && CursorInv(w, version, anchored)
    ensures var w' := Run(w, actions);
            LogInv(w') && Faithful(w', version, anchored) && CursorInv(w', version, anchored)
    decreases |actions|
  {
    if actions != [] {
      StepKeepsLogInv(w, actions[0]);
      StepKeepsDelivery(w, actions[0], version, anchored);
      RunKeepsDelivery(Step(w, actions[0]), actions[1..], version, anchored);
    }
  }

  lemma ConnectIsFaithful(w: World)
    requires LogInv(w)
    ensures var (version, last) := Watermark(w.log, w.now);
            && LogInv(Connected(w))
            && Faithful(Connected(w), version, last != None)
            && CursorInv(Connected(w), version, last != None)
  {
    WatermarkMeaning(w);
  }

  /** Snapshot plus replay: whatever ran before the snapshot and whatever runs between the
      polls, the subscriber holds one gapless, repetition-free stretch of the history behind
      its snapshot. With a cursor it starts exactly there; without one only events that had
      expired unread are missing. */
  lemma SnapshotReplay(start: int, before: seq<Action>, after: seq<Action>)
    requires AllowedRun(Empty(start), before)
    requires AllowedRun(Connected(Run(Empty(start), before)), after)
    ensures var w := Run(Empty(start), before);
            var (version, last) := Watermark(w.log, w.now);
            Faithful(Run(Connected(w), after), version, last != None)
  {
    hide LogInv;
    EmptyIsSound(start);
    RunKeepsLogInv(Empty(start), before);
    ReplayFrom(Run(Empty(start), before), after);
  }

  lemma ReplayFrom(w: World, after: seq<Action>)
    requires LogInv(w) && AllowedRun(Connected(w), after)
    ensures var (version, last) := Watermark(w.log, w.now);
            Faithful(Run(Connected(w), after), version, last != None)
  {
    ConnectIsFaithful(w);
    var (version, last) := Watermark(w.log, w.now);
    RunKeepsDelivery(Connected(w), after, version, last != None);
  }

  /** The subscriber holds every event that is unexpired and newer than its snapshot. */
  ghost predicate CaughtUp(w: World, version: nat) {
    var delivered := w.session.delivered;
    var s := Start(version, delivered);
    forall i :: version <= i < |w.history| && w.history[i].expiresAt > w.now ==>
      s <= i < s + |delivered| && delivered[i - s] == w.history[i]
  }

  /** A page shorter than the limit leaves the subscriber caught up. */
  lemma ShortPageIsCaughtUp(w: World, version: nat, anchored: bool)
    requires LogInv(w) && Faithful(w, version, anchored) && CursorInv(w, version, anchored)
    requires !w.session.closed
    requires var page := Page(w.log.rows, w.now, w.session.cursor, PAGE_LIMIT);
             page.Ok? && |page.value| < PAGE_LIMIT
    ensures CaughtUp(Step(w, Poll), version)
  {
    StepKeepsDelivery(w, Poll, version, anchored);
    if w.session.delivered != [] || anchored {
      CursorEvent(w, version, anchored);
      ShortPageReachesEnd(w, Next(w, version));
      hide LogInv, CursorInv;
      EndIsCaughtUp(Step(w, Poll), version, anchored);
    } else {
      ShortFirstPage(w, version);
      hide LogInv, CursorInv;
      EndIsCaughtUp(Step(w, Poll), version, anchored);
    }
  }

  lemma ShortFirstPage(w: World, version: nat)
    requires LogInv(w) && !w.session.closed && w.session.delivered == [] && w.session.cursor == None && version <= |w.history|
    requires Page(w.log.rows, w.now, None, PAGE_LIMIT).Ok? && |Page(w.log.rows, w.now, None, PAGE_LIMIT).value| < PAGE_LIMIT
    requires Faithful(Step(w, Poll), version, false)
    ensures var w' := Step(w, Poll);
            && (w'.session.delivered == [] ==> forall i :: version <= i < |w'.history| ==> w'.history[i].expiresAt <= w'.now)
            && (w'.session.delivered != [] ==> Next(w', version) == |w'.history|)
  {
    var k := UnexpiredSuffix(w);
    hide LogInv;
    assert Page(w.log.rows, w.now, None, PAGE_LIMIT) == Ok(Take(w.history[k..], PAGE_LIMIT));
    Stretch(w.history, k, k, PAGE_LIMIT);
  }

  lemma ShortPageReachesEnd(w: World, n: nat)
    requires LogInv(w) && 1 <= n <= |w.history|
    requires !w.session.closed && w.session.cursor == Some(w.history[n - 1].id)
    requires var page := Page(w.log.rows, w.now, w.session.cursor, PAGE_LIMIT);
             page.Ok? && |page.value| < PAGE_LIMIT
    ensures Step(w, Poll).session.delivered == w.session.delivered + w.history[n..]
  {
    AnchoredPage(w, n);
  }

  lemma EndIsCaughtUp(w: World, version: nat, anchored: bool)
    requires Faithful(w, version, anchored)
    requires w.session.delivered != [] || anchored ==> Next(w, version) == |w.history|
    requires w.session.delivered == [] ==>
               forall i :: version <= i < |w.history| ==> w.history[i].expiresAt <= w.now
    ensures CaughtUp(w, version)
  {
  }

  /** A connection is closed by a poll exactly when the last event it holds has expired. */
  lemma PollClosesOnExpiredCursor(w: World, version: nat, anchored: bool)
    requires LogInv(w) && Faithful(w, version, anchored) && CursorInv(w, version, anchored)
    requires !w.session.closed
    ensures Step(w, Poll).session.closed <==>
            (w.session.cursor != None && w.history[Next(w, version) - 1].expiresAt <= w.now)
  {
    if w.session.delivered != [] || anchored {
      CursorEvent(w, version, anchored);
      AnchoredPage(w, Next(w, version));
    }
  }

  /** Pruning never resets an aggregate's versions: over the whole history they are 1, 2, 3, ... */
  lemma {:induction false} VersionsAreGapless(w: World, key: AggregateKey, n: nat) returns (i: nat)
    requires VersionsInv(w.history, w.log.versions) && 1 <= n <= Count(w.history, key)
    ensures HasVersion(w.history, key, n, i)
    ensures forall j :: HasVersion(w.history, key, n, j) ==> j == i
  {
    i := NthOf(w.history, key, n);
    assert Versioned(w.history, i);
    forall j | HasVersion(w.history, key, n, j) ensures j == i {
      assert Versioned(w.history, j);
      CountDistinct(w.history, key, if j < i then j else i, if j < i then i else j);
    }
  }

  ghost predicate HasVersion(history: seq<Event>, key: AggregateKey, n: nat, i: int) {
    0 <= i < |history| && history[i].key == key && history[i].streamVersion == n
  }

  lemma CountDistinct(history: seq<Event>, key: AggregateKey, i: nat, j: nat)
    requires i <= j < |history| && history[j].key == key
    ensures i < j ==> Count(history[..i + 1], key) < Count(history[..j + 1], key)
  {
    CountGrows(history[..j + 1], key, i + 1);
    assert history[..j + 1][..i + 1] == history[..i + 1];
  }

  lemma {:induction false} NthOf(history: seq<Event>, key: AggregateKey, n: nat) returns (i: nat)
    requires 1 <= n <= Count(history, key)
    ensures i < |history| && history[i].key == key && Count(history[..i + 1], key) == n
  {
    var last := |history| - 1;
    if history[last].key == key && Count(history, key) == n {
      i := last;
      assert history[..i + 1] == history;
    } else {
      i := NthOf(history[..last], key, n);
      assert history[..last][..i + 1] == history[..i + 1];
    }
  }

  lemma {:induction false} CountGrows(history: seq<Event>, key: AggregateKey, m: nat)
    requires history != [] && history[|history| - 1].key == key && m <= |history|
    ensures m < |history| ==> Count(history[..m], key) < Count(history, key)
  {
    CountMonotone(history[..|history| - 1], key, if m < |history| then m else 0);
    if m < |history| {
      assert history[..|history| - 1][..m] == history[..m];
    }
  }

  lemma {:induction false} CountMonotone(history: seq<Event>, key: AggregateKey, m: nat)
    requires m <= |history|
    ensures Count(history[..m], key) <= Count(history, key)
  {
    if m < |history| {
      CountMonotone(history[..|history| - 1], key, m);
      assert history[..|history| - 1][..m] == history[..m];
    } else {
      assert history[..m] == history;
    }
  }
}
