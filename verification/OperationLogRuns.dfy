/**
 * No lost operations: for a device that stays active with a live grant, nothing after its
 * acknowledged cursor is compacted or pruned, and its pulls deliver every later operation
 * once and in order, whatever the other requests interleave.
 */
module OperationLogRuns {
  import opened Wrappers
  import opened OperationLog

  /**
   * The vault, the clock, every operation ever accepted, and one watched device's pulls:
   * the cursor it has reached and what it has received since it started.
   */
  datatype Server = Server(log: Log, clock: nat, history: seq<Change>, pulled: nat, received: seq<Change>)

  datatype Event =
    | Upload(device: DeviceId, operationId: nat, sequence: nat, envelope: string)
    | OtherVault
    | AckBegin(device: DeviceId, cursor: nat, pointer: Pointer)
    | AckWrite(handler: nat)
    | AckMeasure(handler: nat)
    | AckCompact(handler: nat)
    | Prune(victims: set<nat>)
    | SnapshotMoved(pointer: Pointer)
    | MemberChanged(device: DeviceId, member: Member)
    | Tick(now: nat)
    | Pull(limit: nat)

  function Bare(c: Change): Change { c.(stamp := None) }

  function BareAll(changes: seq<Change>): seq<Change> {
    if changes == [] then [] else [Bare(changes[0])] + BareAll(changes[1..])
  }

  function Drop<T>(s: seq<T>, i: nat): seq<T>
    requires i < |s|
  {
    s[..i] + s[i + 1..]
  }

  function WithHandler(l: Log, i: nat, h: Handler): Log
    requires i < |l.handlers|
  {
    l.(handlers := l.handlers[i := h])
  }

  function Finished(l: Log, i: nat): Log
    requires i < |l.handlers|
  {
    l.(handlers := Drop(l.handlers, i))
  }

  /** One statement of one request. A request that fails simply ends. */
  ghost function StepLog(l: Log, e: Event, clock: nat): Log {
    match e
    case Upload(device, operationId, sequence, envelope) => Insert(l, device, operationId, sequence, envelope)
    case OtherVault => l.(nextCursor := l.nextCursor + 1)
    case AckBegin(device, cursor, pointer) =>
      if AckAllowed(l, cursor, pointer) then l.(handlers := l.handlers + [Checked(device, cursor, pointer, clock)])
        else l
    case AckWrite(i) =>
      if i >= |l.handlers| || !l.handlers[i].Checked? then l
      else
        var h := l.handlers[i];
        (match WriteAck(l.acks, h.device, Ack(h.cursor, h.pointer))
         case None => Finished(l, i)
         case Some(acks) => WithHandler(l.(acks := acks), i, Written(h.pointer, h.now)))
    case AckMeasure(i) =>
      if i >= |l.handlers| || !l.handlers[i].Written? then l
      else
        (match CompactCursor(l, l.handlers[i].pointer, l.handlers[i].now)
         case None => Finished(l, i)
         case Some(cursor) => WithHandler(l, i, Ready(cursor, l.handlers[i].now)))
    case AckCompact(i) =>
      if i >= |l.handlers| || !l.handlers[i].Ready? then l
      else Finished(l.(changes := Compact(l.changes, l.handlers[i].cursor, l.handlers[i].now)), i)
    case Prune(victims) => l.(changes := Without(l.changes, victims))
    case SnapshotMoved(pointer) => l.(pointer := pointer)
    case MemberChanged(device, member) => l.(members := l.members[device := member])
    case Tick(_) => l
    case Pull(_) => l
  }

  ghost function Step(s: Server, e: Event): Server {
    var log := StepLog(s.log, e, s.clock);
    match e
    case Upload(_, _, _, _) =>
      Server(log, s.clock, if log == s.log then s.history else s.history + [log.changes[|log.changes| - 1]],
             s.pulled, s.received)
    case Tick(now) => Server(log, now, s.history, s.pulled, s.received)
    case Pull(limit) =>
      var page := PageAfter(s.log.changes, s.pulled, limit);
      Server(log, s.clock, s.history, page.nextCursor, s.received + BareAll(page.changes))
    case _ => s.(log := log)
  }

  ghost function Run(start: Server, events: seq<Event>): Server {
    if events == [] then start
    else Step(Run(start, events[..|events| - 1]), events[|events| - 1])
  }

  /** Active, under a grant that has not been expired for longer than the grace period. */
  predicate Counts(l: Log, d: DeviceId, now: nat) {
    d in l.members && l.members[d].active && now < l.members[d].grantUntil + EXPIRED_DEVICE_GRACE
  }

  predicate Alive(s: Server, d: DeviceId) {
    Counts(s.log, d, s.clock)
  }

  /** The clock moves forward, cleanup follows its query, and the device acknowledges only what it has pulled. */
  predicate Plausible(s: Server, e: Event, d: DeviceId) {
    match e
    case Tick(now) => s.clock <= now
    case Prune(victims) => PruneBatch(s.log.changes, victims, s.clock)
    case AckBegin(device, cursor, _) => device == d ==> cursor <= s.pulled
    case Pull(limit) => limit > 0
    case _ => true
  }

  ghost predicate PlausibleRun(start: Server, events: seq<Event>, d: DeviceId) {
    events == []
    || (var before := Run(start, events[..|events| - 1]);
        var e := events[|events| - 1];
        PlausibleRun(start, events[..|events| - 1], d) && Plausible(before, e, d) && Alive(Step(before, e), d))
  }

  // ---- The invariant ----

  predicate Ordered(l: Log) {
    Ascending(l.changes) && Below(l.changes, l.nextCursor) && CompactedPrefix(l.changes)
  }

  /** Nothing after `ack` is stamped, and everything accepted after it is still there. */
  predicate Intact(l: Log, history: seq<Change>, ack: nat) {
    && (forall c :: c in l.changes && c.stamp.Some? ==> c.cursor <= ack)
    && After(history, ack) == After(l.changes, ack)
  }

  /** No request on its way compacts past the device's acknowledgement, or lowers or overshoots it. */
  predicate HandlersSafe(l: Log, d: DeviceId, ack: nat, clock: nat, pulled: nat) {
    forall h :: h in l.handlers ==>
      h.now <= clock
      && (h.Ready? ==> h.cursor <= ack)
      && (h.Checked? && h.device == d ==> h.cursor <= pulled)
  }

  /** What the device no longer needs: what it has acknowledged, or had when it joined. */
  function Floor(l: Log, d: DeviceId, start: nat): nat {
    if d in l.acks && start < l.acks[d].cursor then l.acks[d].cursor else start
  }

  ghost predicate Safe(s: Server, d: DeviceId, start: nat) {
    && Ordered(s.log)
    && Ascending(s.history) && Below(s.history, s.log.nextCursor)
    && (forall c :: c in s.history ==> c.stamp.None?)
    && Intact(s.log, s.history, Floor(s.log, d, start))
    && HandlersSafe(s.log, d, Floor(s.log, d, start), s.clock, s.pulled)
    && Floor(s.log, d, start) <= s.pulled < s.log.nextCursor
    && After(s.history, start) == s.received + After(s.history, s.pulled)
  }

  // ---- Unstamped rows ----

  lemma {:induction false} BareAllOfUnstamped(changes: seq<Change>)
    requires forall c :: c in changes ==> c.stamp.None?
    ensures BareAll(changes) == changes
  {
    if changes != [] {
      BareAllOfUnstamped(changes[1..]);
      assert changes == [changes[0]] + changes[1..];
    }
  }

  /** A compaction up to `ack` leaves what follows as it is. */
  lemma {:induction false} CompactKeepsTail(changes: seq<Change>, cursor: nat, now: nat, ack: nat)
    requires cursor <= ack
    ensures After(Compact(changes, cursor, now), ack) == After(changes, ack)
  {
    if changes != [] {
      CompactKeepsTail(changes[1..], cursor, now, ack);
      assert Compact(changes, cursor, now)[1..] == Compact(changes[1..], cursor, now);
    }
  }

  lemma {:induction false} WithoutKeepsTail(changes: seq<Change>, victims: set<nat>, ack: nat)
    requires forall v :: v in victims ==> v <= ack
    ensures After(Without(changes, victims), ack) == After(changes, ack)
  {
    if changes != [] { WithoutKeepsTail(changes[1..], victims, ack); }
  }

  /** What follows a larger cursor can be read off what follows a smaller one. */
  lemma {:induction false} AfterAfter(changes: seq<Change>, low: nat, high: nat)
    requires low <= high
    ensures After(After(changes, low), high) == After(changes, high)
  {
    if changes != [] { AfterAfter(changes[1..], low, high); }
  }

  lemma IntactRises(l: Log, history: seq<Change>, ack: nat, higher: nat)
    requires Intact(l, history, ack) && ack <= higher
    ensures Intact(l, history, higher)
  {
    AfterAfter(history, ack, higher);
    AfterAfter(l.changes, ack, higher);
  }

  // ---- One lemma for each statement ----

  lemma AppendKeepsIntact(l: Log, after: Log, history: seq<Change>, c: Change, ack: nat)
    requires Intact(l, history, ack) && after.changes == l.changes + [c] && c.stamp.None?
    ensures Intact(after, history + [c], ack)
  {
    AfterSnoc(l.changes, c, ack);
    AfterSnoc(history, c, ack);
  }

  lemma AppendKeepsHistory(history: seq<Change>, c: Change, bound: nat)
    requires Ascending(history) && Below(history, c.cursor) && c.cursor < bound && c.stamp.None?
    requires forall h :: h in history ==> h.stamp.None?
    ensures Ascending(history + [c]) && Below(history + [c], bound)
    ensures forall h :: h in history + [c] ==> h.stamp.None?
  {}

  lemma AppendKeepsDelivery(history: seq<Change>, c: Change, start: nat, received: seq<Change>, pulled: nat)
    requires After(history, start) == received + After(history, pulled) && start <= pulled < c.cursor
    ensures After(history + [c], start) == received + After(history + [c], pulled)
  {
    AfterSnoc(history, c, start);
    AfterSnoc(history, c, pulled);
  }

  lemma UploadKeepsSafe(s: Server, e: Event, d: DeviceId, start: nat)
    requires Safe(s, d, start) && e.Upload?
    ensures Safe(Step(s, e), d, start)
  {
    var l := s.log;
    if !Taken(l.changes, e.operationId, e.device, e.sequence) {
      var c := Change(l.nextCursor, e.operationId, e.device, e.sequence, e.envelope, None);
      var after := Step(s, e).log;
      InsertKeepsPrefix(l, e.device, e.operationId, e.sequence, e.envelope);
      AppendKeepsIntact(l, after, s.history, c, Floor(l, d, start));
      AppendKeepsHistory(s.history, c, after.nextCursor);
      AppendKeepsDelivery(s.history, c, start, s.received, s.pulled);
      assert Step(s, e).history == s.history + [c];
    }
  }

  lemma AckWriteKeepsSafe(s: Server, i: nat, d: DeviceId, start: nat)
    requires Safe(s, d, start)
    ensures Safe(Step(s, AckWrite(i)), d, start)
  {
    var l := s.log;
    if i < |l.handlers| && l.handlers[i].Checked? {
      var h := l.handlers[i];
      assert h in l.handlers;
      var written := WriteAck(l.acks, h.device, Ack(h.cursor, h.pointer));
      DropKeeps(l.handlers, i);
      DropKeepsUpdate(l.handlers, i, Written(h.pointer, h.now));
      if written.Some? && h.device == d {
        IntactRises(l, s.history, Floor(l, d, start), if start < h.cursor then h.cursor else start);
      }
    }
  }

  lemma DropKeeps<T>(s: seq<T>, i: nat)
    requires i < |s|
    ensures forall x :: x in Drop(s, i) ==> x in s
  {}

  /** The compaction cursor of a live device's vault never passes that device. */
  lemma AckMeasureKeepsSafe(s: Server, i: nat, d: DeviceId, start: nat)
    requires Safe(s, d, start) && Alive(s, d)
    ensures Safe(Step(s, AckMeasure(i)), d, start)
  {
    var l := s.log;
    if i < |l.handlers| && l.handlers[i].Written? {
      var h := l.handlers[i];
      assert h in l.handlers;
      DropKeeps(l.handlers, i);
      assert d in Live(l.members, h.now);
      if CompactCursor(l, h.pointer, h.now).Some? {
        assert Acknowledged(l, d, h.pointer);
        assert l.acks[d].cursor in AckCursors(l, Live(l.members, h.now));
        assert CompactCursor(l, h.pointer, h.now).value <= l.acks[d].cursor;
        DropKeepsUpdate(l.handlers, i, Ready(CompactCursor(l, h.pointer, h.now).value, h.now));
      }
    }
  }

  lemma DropKeepsUpdate<T>(s: seq<T>, i: nat, y: T)
    requires i < |s|
    ensures forall x :: x in s[i := y] ==> x == y || x in s
  {}

  lemma CompactKeepsBounds(changes: seq<Change>, cursor: nat, now: nat, ack: nat, bound: nat)
    requires cursor <= ack && Below(changes, bound) && forall c :: c in changes && c.stamp.Some? ==> c.cursor <= ack
    ensures Below(Compact(changes, cursor, now), bound)
    ensures forall c :: c in Compact(changes, cursor, now) && c.stamp.Some? ==> c.cursor <= ack
  {
    var after := Compact(changes, cursor, now);
    forall c | c in after ensures c.cursor < bound && (c.stamp.Some? ==> c.cursor <= ack) {
      var k :| 0 <= k < |after| && after[k] == c;
      assert changes[k] in changes;
    }
  }

  /** Compacting up to a cursor that the device has acknowledged leaves its tail alone. */
  lemma CompactKeepsIntact(l: Log, history: seq<Change>, i: nat, clock: nat, ack: nat)
    requires i < |l.handlers| && l.handlers[i].Ready? && l.handlers[i].cursor <= ack
    requires Ordered(l) && Intact(l, history, ack)
    ensures Ordered(StepLog(l, AckCompact(i), clock)) && Intact(StepLog(l, AckCompact(i), clock), history, ack)
  {
    var h := l.handlers[i];
    CompactKeepsPrefix(l.changes, h.cursor, h.now);
    CompactKeepsTail(l.changes, h.cursor, h.now, ack);
    CompactKeepsBounds(l.changes, h.cursor, h.now, ack, l.nextCursor);
  }

  lemma DropKeepsHandlers(l: Log, i: nat, changes: seq<Change>, d: DeviceId, ack: nat, clock: nat, pulled: nat)
    requires i < |l.handlers| && HandlersSafe(l, d, ack, clock, pulled)
    ensures HandlersSafe(Finished(l.(changes := changes), i), d, ack, clock, pulled)
  {
    DropKeeps(l.handlers, i);
  }

  lemma AckCompactKeepsSafe(s: Server, i: nat, d: DeviceId, start: nat)
    requires Safe(s, d, start)
    ensures Safe(Step(s, AckCompact(i)), d, start)
  {
    var l := s.log;
    if i < |l.handlers| && l.handlers[i].Ready? {
      var h := l.handlers[i];
      assert h in l.handlers;
      CompactKeepsIntact(l, s.history, i, s.clock, Floor(l, d, start));
      DropKeepsHandlers(l, i, Compact(l.changes, h.cursor, h.now), d, Floor(l, d, start), s.clock, s.pulled);
    }
  }

  lemma PruneKeepsIntact(l: Log, history: seq<Change>, victims: set<nat>, clock: nat, ack: nat)
    requires Ordered(l) && Intact(l, history, ack) && PruneBatch(l.changes, victims, clock)
    ensures Ordered(StepLog(l, Prune(victims), clock)) && Intact(StepLog(l, Prune(victims), clock), history, ack)
  {
    forall v | v in victims ensures v <= ack {
      var c :| c in l.changes && c.cursor == v && Expired(c, clock);
    }
    WithoutSelects(l.changes, victims);
    WithoutKeepsPrefix(l.changes, victims);
    WithoutKeepsTail(l.changes, victims, ack);
  }

  lemma PruneKeepsSafe(s: Server, victims: set<nat>, d: DeviceId, start: nat)
    requires Safe(s, d, start) && PruneBatch(s.log.changes, victims, s.clock)
    ensures Safe(Step(s, Prune(victims)), d, start)
  {
    PruneKeepsIntact(s.log, s.history, victims, s.clock, Floor(s.log, d, start));
  }

  function CursorPast(rows: seq<Change>, cursor: nat, n: nat): nat
    requires n <= |rows|
  {
    if n == 0 then cursor else rows[n - 1].cursor
  }

  lemma RowsSplit(history: seq<Change>, cursor: nat, n: nat, bound: nat)
    requires Ascending(history) && Below(history, bound) && cursor < bound && n <= |After(history, cursor)|
    ensures
      var rows := After(history, cursor);
      cursor <= CursorPast(rows, cursor, n) < bound && After(history, CursorPast(rows, cursor, n)) == rows[n..]
  {
    var rows := After(history, cursor);
    if n > 0 {
      AfterSelects(history, cursor);
      AfterSplits(history, cursor, n);
      assert rows[n - 1] in rows;
    }
  }

  lemma FirstRowsAreBare(history: seq<Change>, cursor: nat, n: nat)
    requires n <= |After(history, cursor)| && forall c :: c in history ==> c.stamp.None?
    ensures BareAll(After(history, cursor)[..n]) == After(history, cursor)[..n]
  {
    var rows := After(history, cursor);
    AfterSelects(history, cursor);
    forall c | c in rows[..n] ensures c.stamp.None? { assert c in rows; }
    BareAllOfUnstamped(rows[..n]);
  }

  lemma PageIs(changes: seq<Change>, pulled: nat, limit: nat) returns (n: nat)
    ensures
      var rows, page := After(changes, pulled), PageAfter(changes, pulled, limit);
      n <= |rows| && page.changes == rows[..n] && page.nextCursor == CursorPast(rows, pulled, n)
  {
    var rows := After(changes, pulled);
    n := if |rows| < limit then |rows| else limit;
    PageReads(changes, pulled, limit);
  }

  /** A page delivers the next operations of the history, and the cursor moves just past them. */
  lemma PageDelivers(l: Log, history: seq<Change>, pulled: nat, limit: nat)
    requires Ascending(history) && Below(history, l.nextCursor) && pulled < l.nextCursor
    requires After(history, pulled) == After(l.changes, pulled) && forall c :: c in history ==> c.stamp.None?
    ensures
      var page := PageAfter(l.changes, pulled, limit);
      && pulled <= page.nextCursor < l.nextCursor
      && BareAll(page.changes) + After(history, page.nextCursor) == After(history, pulled)
  {
    var rows := After(history, pulled);
    var n := PageIs(l.changes, pulled, limit);
    FirstRowsAreBare(history, pulled, n);
    RowsSplit(history, pulled, n, l.nextCursor);
    assert rows == rows[..n] + rows[n..];
  }

  lemma PullKeepsHandlers(l: Log, d: DeviceId, ack: nat, clock: nat, pulled: nat, higher: nat)
    requires HandlersSafe(l, d, ack, clock, pulled) && pulled <= higher
    ensures HandlersSafe(l, d, ack, clock, higher)
  {}

  /** What has been received and what is still to come stay the same together. */
  lemma PullMoves(s: Server, limit: nat)
    requires Ascending(s.history) && Below(s.history, s.log.nextCursor) && s.pulled < s.log.nextCursor && limit > 0
    requires After(s.history, s.pulled) == After(s.log.changes, s.pulled)
    requires forall c :: c in s.history ==> c.stamp.None?
    ensures
      var t := Step(s, Pull(limit));
      && s.pulled <= t.pulled < s.log.nextCursor
      && t.received + After(t.history, t.pulled) == s.received + After(s.history, s.pulled)
  {
    PageDelivers(s.log, s.history, s.pulled, limit);
    var page := PageAfter(s.log.changes, s.pulled, limit);
    var got, left := BareAll(page.changes), After(s.history, page.nextCursor);
    assert s.received + (got + left) == (s.received + got) + left;
  }

  lemma PullKeepsSafe(s: Server, limit: nat, d: DeviceId, start: nat)
    requires Safe(s, d, start) && limit > 0
    ensures Safe(Step(s, Pull(limit)), d, start)
  {
    var ack := Floor(s.log, d, start);
    IntactRises(s.log, s.history, ack, s.pulled);
    PullMoves(s, limit);
    PullKeepsHandlers(s.log, d, ack, s.clock, s.pulled, Step(s, Pull(limit)).pulled);
  }

  lemma StepKeepsSafe(s: Server, e: Event, d: DeviceId, start: nat)
    requires Safe(s, d, start) && Alive(s, d) && Plausible(s, e, d)
    ensures Safe(Step(s, e), d, start)
  {
    match e {
      case Upload(_, _, _, _) => UploadKeepsSafe(s, e, d, start);
      case OtherVault =>
      case AckBegin(device, cursor, pointer) =>
      case AckWrite(i) => AckWriteKeepsSafe(s, i, d, start);
      case AckMeasure(i) => AckMeasureKeepsSafe(s, i, d, start);
      case AckCompact(i) => AckCompactKeepsSafe(s, i, d, start);
      case Prune(victims) => PruneKeepsSafe(s, victims, d, start);
      case SnapshotMoved(pointer) =>
      case MemberChanged(device, member) =>
      case Tick(now) =>
      case Pull(limit) => PullKeepsSafe(s, limit, d, start);
    }
  }

  lemma {:induction false} RunKeepsSafe(s: Server, events: seq<Event>, d: DeviceId, start: nat)
    requires Safe(s, d, start) && Alive(s, d) && PlausibleRun(s, events, d)
    ensures Safe(Run(s, events), d, start) && Alive(Run(s, events), d)
    decreases |events|
  {
    if events != [] {
      var n := |events| - 1;
      RunKeepsSafe(s, events[..n], d, start);
      StepKeepsSafe(Run(s, events[..n]), events[n], d, start);
    }
  }

  lemma {:induction false} AfterBare(changes: seq<Change>, cursor: nat)
    ensures After(BareAll(changes), cursor) == BareAll(After(changes, cursor))
  {
    if changes != [] { AfterBare(changes[1..], cursor); }
  }

  lemma {:induction false} BareKeepsOrder(changes: seq<Change>, bound: nat)
    requires Ascending(changes) && Below(changes, bound)
    ensures Ascending(BareAll(changes)) && Below(BareAll(changes), bound)
    ensures forall c :: c in BareAll(changes) ==> c.stamp.None? && exists o :: o in changes && o.cursor == c.cursor
  {
    if changes != [] {
      var first, rest := changes[0], changes[1..];
      assert changes == [first] + rest;
      AscendingParts(first, rest);
      BareKeepsOrder(rest, bound);
      AscendingJoin(Bare(first), BareAll(rest));
    }
  }

  /** A device may join at any cursor that neither a compaction nor one on its way has passed. */
  lemma JoiningIsSafe(s: Server, d: DeviceId, start: nat)
    requires Ordered(s.log) && d !in s.log.acks && HandlersSafe(s.log, d, start, s.clock, start)
    requires forall c :: c in s.log.changes && c.stamp.Some? ==> c.cursor <= start
    requires s.history == BareAll(s.log.changes) && s.pulled == start < s.log.nextCursor && s.received == []
    ensures Safe(s, d, start)
  {
    var changes := s.log.changes;
    BareKeepsOrder(changes, s.log.nextCursor);
    AfterBare(changes, start);
    AfterSelects(changes, start);
    BareAllOfUnstamped(After(changes, start));
  }

  /**
   * Whatever interleaves, while the device stays alive: no row after its acknowledgement
   * (or after the cursor it joined at) is compacted, every operation accepted after it is
   * still in the log, and its pulls have delivered exactly the operations accepted after its
   * starting cursor, once and in order, up to the cursor it has reached.
   */
  lemma NothingIsLost(s: Server, events: seq<Event>, d: DeviceId, start: nat)
    requires Safe(s, d, start) && Alive(s, d) && PlausibleRun(s, events, d)
    ensures
      var after := Run(s, events);
      var floor := Floor(after.log, d, start);
      && (forall c :: c in after.log.changes && c.stamp.Some? ==> c.cursor <= floor)
      && (forall c :: c in after.history && c.cursor > floor ==> c in after.log.changes)
      && After(after.history, start) == after.received + After(after.history, after.pulled)
      && After(after.log.changes, after.pulled) == After(after.history, after.pulled)
      && CompactedPrefix(after.log.changes)
  {
    RunKeepsSafe(s, events, d, start);
    var after := Run(s, events);
    var floor := Floor(after.log, d, start);
    IntactRises(after.log, after.history, floor, after.pulled);
    AfterSelects(after.history, floor);
    AfterSelects(after.log.changes, floor);
  }

  /** A page that says nothing follows has brought the device up to the end of the log. */
  lemma LastPageIsTheEnd(s: Server, d: DeviceId, start: nat, limit: nat)
    requires Safe(s, d, start) && limit > 0
    requires !PageAfter(s.log.changes, s.pulled, limit).hasMore
    ensures Step(s, Pull(limit)).received == After(s.history, start)
  {
    PullKeepsSafe(s, limit, d, start);
    IntactRises(s.log, s.history, Floor(s.log, d, start), s.pulled);
    var rows, n := After(s.history, s.pulled), |PageAfter(s.log.changes, s.pulled, limit).changes|;
    assert rows[..n] == rows && rows[n..] == [];
    if n > 0 { AfterSplits(s.history, s.pulled, n); }
    var after := Step(s, Pull(limit));
    assert After(after.history, after.pulled) == [];
  }

  // ---- Acknowledgements never move back ----

  lemma AcksRiseInStep(s: Server, e: Event, device: DeviceId)
    requires device in s.log.acks
    ensures device in Step(s, e).log.acks
    ensures s.log.acks[device].cursor <= Step(s, e).log.acks[device].cursor
  {}

  lemma {:induction false} AcknowledgementsRise(s: Server, events: seq<Event>, n: nat, device: DeviceId)
    requires n <= |events| && device in Run(s, events[..n]).log.acks
    ensures device in Run(s, events).log.acks
    ensures Run(s, events[..n]).log.acks[device].cursor <= Run(s, events).log.acks[device].cursor
    decreases |events|
  {
    if n == |events| {
      assert events[..n] == events;
    } else {
      var shorter := events[..|events| - 1];
      assert shorter[..n] == events[..n];
      AcknowledgementsRise(s, shorter, n, device);
      AcksRiseInStep(Run(s, shorter), events[|events| - 1], device);
    }
  }
}
