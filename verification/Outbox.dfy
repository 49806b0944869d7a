/** Cost lines on their way to a receiver that charges each idempotency key once.
    Several replicas claim, post and settle; any of them can crash at any moment,
    and any answer can be lost. */
module Outbox {
  import opened Prelude

  const SENDER_BATCH := 100

  datatype Line = Line(key: string, quantity: int, body: string)

  /** A row of the outbox; its id is its place in the table. */
  datatype Row = Row(line: Line, attempts: nat, dueAt: int, sent: bool, parked: bool)

  // ----- answers

  datatype Answer = Accepted | Refused | Failed

  /** What the receiver refuses for the lines themselves is parked, the rest is
      tried again. */
  function Classify(status: int): Answer {
    if status < 300 then Accepted
    else if status == 400 || status == 403 || status == 404 || status == 409 || status == 422 then Refused
    else Failed
  }

  /** A request that got no status back counts as failed. */
  function AnswerTo(status: Option<int>): Answer {
    match status
    case None => Failed
    case Some(code) => Classify(code)
  }

  function Doubled(attempts: nat): nat { if attempts == 0 then 5 else 2 * Doubled(attempts - 1) }

  /** Seconds until the next attempt: five, doubling, ten minutes at most. */
  function Backoff(attempts: nat): nat { Min(Doubled(Min(attempts, 10)), 600) }

  lemma {:induction false} BackoffGrows(a: nat, b: nat)
    requires a <= b
    ensures 5 <= Backoff(a) <= Backoff(b) <= 600
    ensures a >= 7 ==> Backoff(a) == 600
    decreases b - a
  {
    DoubledFrom(Min(a, 10), Min(b, 10));
    assert Doubled(7) == 640 by {
      assert Doubled(3) == 40;
      assert Doubled(5) == 160;
    }
    if a >= 7 {
      DoubledFrom(7, Min(a, 10));
    }
    DoubledFrom(0, Min(a, 10));
  }

  lemma {:induction false} DoubledFrom(a: nat, b: nat)
    requires a <= b
    ensures Doubled(a) <= Doubled(b)
    decreases b
  {
    if a < b {
      DoubledFrom(a, b - 1);
    }
  }

  /** What settling a row writes. */
  function Written(r: Row, answer: Answer, now: int): Row {
    match answer
    case Accepted => r.(sent := true)
    case Refused => r.(parked := true)
    case Failed => r.(attempts := r.attempts + 1, dueAt := now + Backoff(r.attempts))
  }

  // ----- the receiver

  function HasKey(ledger: seq<Line>, key: string): bool { exists i :: 0 <= i < |ledger| && ledger[i].key == key }

  /** The lines of a request are charged, each key once. */
  function Charged(ledger: seq<Line>, lines: seq<Line>): (after: seq<Line>)
    decreases |lines|
  {
    if lines == [] then ledger else
    var before := Charged(ledger, ButLast(lines));
    if HasKey(before, Last(lines).key) then before else before + [Last(lines)]
  }

  // ----- the state

  datatype Phase = Idle | Claimed | OneByOne | Settled

  /** A replica between its steps: the rows it holds and, in the same order, what
      its transaction has written to them so far and not committed. */
  datatype Worker = Worker(phase: Phase, ids: seq<nat>, writes: seq<Row>)

  const RESTING := Worker(Idle, [], [])

  /** `alone` holds the rows refused by an answer to themselves only. */
  datatype State = State(rows: seq<Row>, workers: seq<Worker>, ledger: seq<Line>, alone: set<nat>)

  predicate Locked(s: State, id: nat) { exists w :: 0 <= w < |s.workers| && id in s.workers[w].ids }

  predicate Due(r: Row, now: int) { !r.sent && !r.parked && r.dueAt <= now }

  /** The first rows a claim gets from `from` on: due, not locked, in order. */
  function Picked(s: State, now: int, from: nat, limit: nat): (ids: seq<nat>)
    decreases |s.rows| - from
  {
    if from >= |s.rows| || limit == 0 then []
    else if Due(s.rows[from], now) && !Locked(s, from) then [from] + Picked(s, now, from + 1, limit - 1)
    else Picked(s, now, from + 1, limit)
  }

  predicate InRange(rows: seq<Row>, ids: seq<nat>) { forall i :: 0 <= i < |ids| ==> ids[i] < |rows| }

  function LinesOf(rows: seq<Row>, ids: seq<nat>): (lines: seq<Line>)
    requires InRange(rows, ids)
    ensures |lines| == |ids| && forall i :: 0 <= i < |ids| ==> lines[i] == rows[ids[i]].line
  {
    seq(|ids|, i requires 0 <= i < |ids| && InRange(rows, ids) => rows[ids[i]].line)
  }

  function AllWritten(rows: seq<Row>, ids: seq<nat>, answer: Answer, now: int): (writes: seq<Row>)
    requires InRange(rows, ids)
    ensures |writes| == |ids| && forall i :: 0 <= i < |ids| ==> writes[i] == Written(rows[ids[i]], answer, now)
  {
    seq(|ids|, i requires 0 <= i < |ids| && InRange(rows, ids) => Written(rows[ids[i]], answer, now))
  }

  /** `kept` says whether a request without a good answer was charged all the
      same: the answer can be lost on the way back. */
  datatype Event =
    | Record(line: Line, now: int)
    | Claim(w: nat, now: int)
    | Post(w: nat, status: Option<int>, kept: bool, now: int)
    | PostOne(w: nat, status: Option<int>, kept: bool, now: int)
    | Commit(w: nat)
    | Crash(w: nat)

  predicate Enabled(s: State, e: Event) {
    match e
    case Record(_, _) => true
    case Claim(w, _) => w < |s.workers| && s.workers[w].phase.Idle?
    case Post(w, _, _, _) => w < |s.workers| && s.workers[w].phase.Claimed?
    case PostOne(w, _, _, _) => w < |s.workers| && s.workers[w].phase.OneByOne?
    case Commit(w) => w < |s.workers| && s.workers[w].phase.Settled?
    case Crash(w) => w < |s.workers|
  }

  function Set(s: State, w: nat, x: Worker): State
    requires w < |s.workers|
  {
    s.(workers := s.workers[w := x])
  }

  function Receive(ledger: seq<Line>, lines: seq<Line>, answer: Answer, kept: bool): seq<Line> {
    if answer.Accepted? || (answer.Failed? && kept) then Charged(ledger, lines) else ledger
  }

  function Replaced(rows: seq<Row>, ids: seq<nat>, writes: seq<Row>): (after: seq<Row>)
    requires |ids| == |writes| && InRange(rows, ids)
    ensures |after| == |rows|
    decreases |ids|
  {
    if ids == [] then rows else
    Replaced(rows, ButLast(ids), ButLast(writes))[Last(ids) := Last(writes)]
  }

  predicate Fits(rows: seq<Row>, x: Worker) {
    && InRange(rows, x.ids)
    && match x.phase
       case Idle => x == RESTING
       case Claimed => x.ids != [] && x.writes == []
       case OneByOne => |x.writes| < |x.ids|
       case Settled => |x.writes| == |x.ids|
  }

  predicate InTable(s: State) { forall w :: 0 <= w < |s.workers| ==> Fits(s.rows, s.workers[w]) }

  function Recorded(s: State, line: Line, now: int): State {
    if line.quantity <= 0 || exists i :: 0 <= i < |s.rows| && s.rows[i].line.key == line.key then s
    else s.(rows := s.rows + [Row(line, 0, now, false, false)])
  }

  function PostedAll(s: State, w: nat, answer: Answer, kept: bool, now: int): State
    requires InTable(s) && w < |s.workers| && s.workers[w].phase.Claimed?
  {
    var ids := s.workers[w].ids;
    var ledger := Receive(s.ledger, LinesOf(s.rows, ids), answer, kept);
    if answer.Refused? && |ids| > 1 then Set(s, w, Worker(OneByOne, ids, [])).(ledger := ledger)
    else Set(s, w, Worker(Settled, ids, AllWritten(s.rows, ids, answer, now))).(
      ledger := ledger, alone := if answer.Refused? then s.alone + (set i | 0 <= i < |ids| :: ids[i]) else s.alone)
  }

  function PostedOne(s: State, w: nat, answer: Answer, kept: bool, now: int): State
    requires InTable(s) && w < |s.workers| && s.workers[w].phase.OneByOne?
  {
    var ids, k := s.workers[w].ids, |s.workers[w].writes|;
    var writes := s.workers[w].writes + [Written(s.rows[ids[k]], answer, now)];
    Set(s, w, Worker(if k + 1 == |ids| then Settled else OneByOne, ids, writes)).(
      ledger := Receive(s.ledger, [s.rows[ids[k]].line], answer, kept),
      alone := if answer.Refused? then s.alone + {ids[k]} else s.alone)
  }

  function Apply(s: State, e: Event): State
    requires InTable(s) && Enabled(s, e)
  {
    match e
    case Record(line, now) => Recorded(s, line, now)
    case Claim(w, now) =>
      var ids := Picked(s, now, 0, SENDER_BATCH);
      if ids == [] then s else Set(s, w, Worker(Claimed, ids, []))
    case Post(w, status, kept, now) => PostedAll(s, w, AnswerTo(status), kept, now)
    case PostOne(w, status, kept, now) => PostedOne(s, w, AnswerTo(status), kept, now)
    case Commit(w) => Set(s, w, RESTING).(rows := Replaced(s.rows, s.workers[w].ids, s.workers[w].writes))
    case Crash(w) => Set(s, w, RESTING)
  }

  // ----- what every event keeps

  /** A row as it may be in the table or in a transaction: sent means charged,
      parked means refused alone, and it is never both. */
  predicate Honest(s: State, id: nat, r: Row) {
    && (r.sent ==> r.line in s.ledger)
    && (r.parked ==> id in s.alone)
    && !(r.sent && r.parked)
  }

  predicate RowsHonest(s: State) { forall id :: 0 <= id < |s.rows| ==> Honest(s, id, s.rows[id]) }

  /** No key is in two rows. */
  predicate KeysUnique(s: State) { forall i, j :: 0 <= i < j < |s.rows| ==> s.rows[i].line.key != s.rows[j].line.key }

  /** Each key is charged once, for the line that was recorded under it. */
  predicate ChargedOnce(s: State) { OnceEach(s.ledger) && EntriesRecorded(s.rows, s.ledger) }

  predicate OnceEach(ledger: seq<Line>) { forall i, j :: 0 <= i < j < |ledger| ==> ledger[i].key != ledger[j].key }

  predicate IsRecorded(rows: seq<Row>, line: Line) { exists id :: 0 <= id < |rows| && rows[id].line == line }

  predicate EntriesRecorded(rows: seq<Row>, ledger: seq<Line>) {
    forall i :: 0 <= i < |ledger| ==> IsRecorded(rows, ledger[i])
  }

  /** A claim's rows are open, and its writes are of those rows. */
  predicate WorkerOk(s: State, x: Worker) {
    && Fits(s.rows, x) && |x.writes| <= |x.ids|
    && (forall i :: 0 <= i < |x.ids| ==> !s.rows[x.ids[i]].sent && !s.rows[x.ids[i]].parked)
    && (forall i, j :: 0 <= i < j < |x.ids| ==> x.ids[i] != x.ids[j])
    && (forall i :: 0 <= i < |x.writes| ==>
          x.writes[i].line == s.rows[x.ids[i]].line && Honest(s, x.ids[i], x.writes[i]))
  }

  /** No two open claims share a row. */
  predicate Disjoint(s: State) {
    forall v, w :: 0 <= v < |s.workers| && 0 <= w < |s.workers| && v != w ==>
      forall id <- s.workers[v].ids :: id !in s.workers[w].ids
  }

  predicate Valid(s: State) {
    && RowsHonest(s) && KeysUnique(s) && ChargedOnce(s) && Disjoint(s)
    && forall w :: 0 <= w < |s.workers| ==> WorkerOk(s, s.workers[w])
  }

  lemma ValidInTable(s: State)
    requires Valid(s)
    ensures InTable(s)
  {
    forall w | 0 <= w < |s.workers| ensures Fits(s.rows, s.workers[w]) {
      assert WorkerOk(s, s.workers[w]);
    }
  }

  // ----- the ledger

  lemma {:induction false} ChargedKeeps(ledger: seq<Line>, lines: seq<Line>)
    ensures var after := Charged(ledger, lines);
      && |ledger| <= |after| && after[..|ledger|] == ledger
      && (forall i :: |ledger| <= i < |after| ==> after[i] in lines)
      && (forall i :: 0 <= i < |lines| ==> HasKey(after, lines[i].key))
    decreases |lines|
  {
    if lines != [] {
      ChargedKeeps(ledger, ButLast(lines));
      var before, after := Charged(ledger, ButLast(lines)), Charged(ledger, lines);
      assert |before| <= |after| && after[..|before|] == before;
      forall i | 0 <= i < |lines| ensures HasKey(after, lines[i].key) {
        if i < |lines| - 1 {
          assert lines[i] == ButLast(lines)[i];
          var j :| 0 <= j < |before| && before[j].key == lines[i].key;
          assert after[j].key == lines[i].key;
        } else if !HasKey(before, Last(lines).key) {
          assert after[|before|].key == lines[i].key;
        }
      }
    }
  }

  lemma {:induction false} ChargedStaysOnce(ledger: seq<Line>, lines: seq<Line>)
    requires OnceEach(ledger)
    ensures OnceEach(Charged(ledger, lines))
    decreases |lines|
  {
    if lines != [] {
      ChargedStaysOnce(ledger, ButLast(lines));
      if !HasKey(Charged(ledger, ButLast(lines)), Last(lines).key) {
        OnceEachSnoc(Charged(ledger, ButLast(lines)), Last(lines));
      }
    }
  }

  lemma OnceEachSnoc(ledger: seq<Line>, line: Line)
    requires OnceEach(ledger) && !HasKey(ledger, line.key)
    ensures OnceEach(ledger + [line])
  {
  }

  /** A request of recorded lines leaves every ledger entry a recorded line, and
      the entry of each of them its own. */
  lemma ChargedRows(s: State, ids: seq<nat>)
    requires InRange(s.rows, ids) && KeysUnique(s) && ChargedOnce(s)
    ensures var s' := s.(ledger := Charged(s.ledger, LinesOf(s.rows, ids)));
      && ChargedOnce(s')
      && (forall line :: line in s.ledger ==> line in s'.ledger)
      && (forall i :: 0 <= i < |ids| ==> s.rows[ids[i]].line in s'.ledger)
  {
    var lines := LinesOf(s.rows, ids);
    var s' := s.(ledger := Charged(s.ledger, lines));
    ChargedKeeps(s.ledger, lines);
    ChargedStaysOnce(s.ledger, lines);
    forall i | 0 <= i < |s'.ledger| ensures IsRecorded(s.rows, s'.ledger[i]) {
      if i < |s.ledger| {
        assert s'.ledger[i] == s'.ledger[..|s.ledger|][i];
      } else {
        var k :| 0 <= k < |lines| && lines[k] == s'.ledger[i];
        assert s.rows[ids[k]].line == s'.ledger[i];
      }
    }
    forall line | line in s.ledger ensures line in s'.ledger {
      var i :| 0 <= i < |s.ledger| && s.ledger[i] == line;
      assert s'.ledger[i] == s'.ledger[..|s.ledger|][i];
    }
    forall i | 0 <= i < |ids| ensures s.rows[ids[i]].line in s'.ledger {
      assert lines[i].key == s.rows[ids[i]].line.key;
      var j :| 0 <= j < |s'.ledger| && s'.ledger[j].key == lines[i].key;
      var id :| 0 <= id < |s.rows| && s.rows[id].line == s'.ledger[j];
      assert id == ids[i];
    }
  }

  lemma ReceivedRows(s: State, ids: seq<nat>, answer: Answer, kept: bool)
    requires InRange(s.rows, ids) && KeysUnique(s) && ChargedOnce(s)
    ensures var s' := s.(ledger := Receive(s.ledger, LinesOf(s.rows, ids), answer, kept));
      && ChargedOnce(s')
      && (forall line :: line in s.ledger ==> line in s'.ledger)
      && (answer.Accepted? ==> forall i :: 0 <= i < |ids| ==> s.rows[ids[i]].line in s'.ledger)
  {
    ChargedRows(s, ids);
  }

  // ----- event by event

  /** A state that knows more keeps what was honest honest. */
  ghost predicate Knows(s: State, s': State) {
    && (forall line :: line in s.ledger ==> line in s'.ledger)
    && (forall id <- s.alone :: id in s'.alone)
  }

  lemma StillHonest(s: State, s': State, id: nat, r: Row)
    requires Knows(s, s') && Honest(s, id, r)
    ensures Honest(s', id, r)
  {
  }

  lemma StillOk(s: State, s': State, x: Worker)
    requires Knows(s, s') && WorkerOk(s, x) && |s.rows| <= |s'.rows|
    requires forall i :: 0 <= i < |x.ids| ==> x.ids[i] < |s.rows| && s'.rows[x.ids[i]] == s.rows[x.ids[i]]
    ensures WorkerOk(s', x)
  {
  }

  lemma RecordKeeps(s: State, line: Line, now: int)
    requires Valid(s)
    ensures Valid(Recorded(s, line, now))
  {
    var s' := Recorded(s, line, now);
    if s' != s {
      assert s'.rows[..|s.rows|] == s.rows;
      forall i | 0 <= i < |s'.ledger| ensures IsRecorded(s'.rows, s'.ledger[i]) {
        assert IsRecorded(s.rows, s.ledger[i]);
        var id :| 0 <= id < |s.rows| && s.rows[id].line == s.ledger[i];
        assert s'.rows[id].line == s'.ledger[i];
      }
      assert Knows(s, s') by { KnowsSame(s, s'); }
      assert RowsHonest(s') by {
        forall id | 0 <= id < |s'.rows| ensures Honest(s', id, s'.rows[id]) {
          if id < |s.rows| { StillHonest(s, s', id, s.rows[id]); }
        }
      }
      forall w | 0 <= w < |s'.workers| ensures WorkerOk(s', s'.workers[w]) {
        assert WorkerOk(s, s.workers[w]);
        StillOk(s, s', s.workers[w]);
      }
    }
  }

  lemma KnowsSame(s: State, s': State)
    requires s'.ledger == s.ledger && s'.alone == s.alone
    ensures Knows(s, s')
  {
  }

  /** What a claim picks: due rows nobody holds, in the order they were
      recorded. */
  lemma {:induction false} PickedMeans(s: State, now: int, from: nat, limit: nat)
    ensures var ids := Picked(s, now, from, limit);
      && |ids| <= limit
      && (forall i :: 0 <= i < |ids| ==> from <= ids[i] < |s.rows| && Due(s.rows[ids[i]], now) && !Locked(s, ids[i]))
      && (forall i, j :: 0 <= i < j < |ids| ==> ids[i] < ids[j])
    decreases |s.rows| - from
  {
    if from < |s.rows| && limit > 0 {
      hide Locked, Due;
      if Due(s.rows[from], now) && !Locked(s, from) {
        PickedMeans(s, now, from + 1, limit - 1);
      } else {
        PickedMeans(s, now, from + 1, limit);
      }
    }
  }

  /** A due row is passed over only when the batch is full of earlier ones. */
  lemma {:induction false} PickedFirst(s: State, now: int, from: nat, limit: nat, id: nat)
    requires from <= id < |s.rows| && Due(s.rows[id], now) && !Locked(s, id) && id !in Picked(s, now, from, limit)
    ensures |Picked(s, now, from, limit)| == limit
    ensures forall i :: 0 <= i < limit ==> Picked(s, now, from, limit)[i] < id
    decreases |s.rows| - from
  {
    hide Locked, Due;
    if limit > 0 {
      if Due(s.rows[from], now) && !Locked(s, from) {
        var rest := Picked(s, now, from + 1, limit - 1);
        assert forall x <- rest :: x in [from] + rest;
        assert from in [from] + rest;
        PickedFirst(s, now, from + 1, limit - 1, id);
      } else {
        PickedFirst(s, now, from + 1, limit, id);
      }
    }
  }

  lemma WorkerChanged(s: State, s': State, w: nat)
    requires Valid(s) && w < |s.workers| && Knows(s, s') && s'.rows == s.rows && ChargedOnce(s')
    requires |s'.workers| == |s.workers| && forall v :: 0 <= v < |s.workers| && v != w ==> s'.workers[v] == s.workers[v]
    requires WorkerOk(s', s'.workers[w])
    requires forall id <- s'.workers[w].ids, v :: 0 <= v < |s.workers| && v != w ==> id !in s.workers[v].ids
    ensures Valid(s')
  {
    forall id | 0 <= id < |s'.rows| ensures Honest(s', id, s'.rows[id]) {
      StillHonest(s, s', id, s.rows[id]);
    }
    forall v | 0 <= v < |s'.workers| ensures WorkerOk(s', s'.workers[v]) {
      if v != w {
        assert WorkerOk(s, s.workers[v]);
        StillOk(s, s', s.workers[v]);
      }
    }
  }

  lemma ClaimKeeps(s: State, w: nat, now: int)
    requires Valid(s) && w < |s.workers| && s.workers[w].phase.Idle?
    ensures InTable(s) && Valid(Apply(s, Claim(w, now)))
  {
    ValidInTable(s);
    var ids := Picked(s, now, 0, SENDER_BATCH);
    PickedMeans(s, now, 0, SENDER_BATCH);
    var s' := Apply(s, Claim(w, now));
    if ids != [] {
      KnowsSame(s, s');
      forall id <- s'.workers[w].ids, v | 0 <= v < |s.workers| && v != w ensures id !in s.workers[v].ids {
        var i :| 0 <= i < |ids| && ids[i] == id;
        assert !Locked(s, ids[i]);
      }
      hide Locked, Picked;
      WorkerChanged(s, s', w);
    }
  }

  lemma WrittenHonest(s: State, id: nat, r: Row, answer: Answer, now: int)
    requires !r.sent && !r.parked && (answer.Accepted? ==> r.line in s.ledger) && (answer.Refused? ==> id in s.alone)
    ensures Honest(s, id, Written(r, answer, now)) && Written(r, answer, now).line == r.line
  {
  }

  lemma PostKeeps(s: State, w: nat, answer: Answer, kept: bool, now: int)
    requires Valid(s) && w < |s.workers| && s.workers[w].phase.Claimed?
    ensures InTable(s) && Valid(PostedAll(s, w, answer, kept, now))
  {
    ValidInTable(s);
    assert WorkerOk(s, s.workers[w]);
    var ids, s' := s.workers[w].ids, PostedAll(s, w, answer, kept, now);
    ReceivedRows(s, ids, answer, kept);
    hide Receive;
    var led := s.(ledger := Receive(s.ledger, LinesOf(s.rows, ids), answer, kept));
    assert Knows(s, s') && ChargedOnce(s');
    assert answer.Accepted? ==> forall i :: 0 <= i < |ids| ==> s.rows[ids[i]].line in s'.ledger;
    forall i | 0 <= i < |s'.workers[w].writes|
      ensures s'.workers[w].writes[i].line == s'.rows[ids[i]].line && Honest(s', ids[i], s'.workers[w].writes[i])
    {
      WrittenHonest(s', ids[i], s.rows[ids[i]], answer, now);
    }
    assert s'.workers[w].ids == s.workers[w].ids;
    WorkerChanged(s, s', w);
  }

  lemma PostOneKeeps(s: State, w: nat, answer: Answer, kept: bool, now: int)
    requires Valid(s) && w < |s.workers| && s.workers[w].phase.OneByOne?
    ensures InTable(s) && Valid(PostedOne(s, w, answer, kept, now))
  {
    ValidInTable(s);
    assert WorkerOk(s, s.workers[w]);
    var x, s' := s.workers[w], PostedOne(s, w, answer, kept, now);
    var ids, k := x.ids, |x.writes|;
    var one := [ids[k]];
    ReceivedRows(s, one, answer, kept);
    assert LinesOf(s.rows, one) == [s.rows[ids[k]].line];
    hide Receive, LinesOf;
    var led := s.(ledger := Receive(s.ledger, LinesOf(s.rows, one), answer, kept));
    assert Knows(s, s') && ChargedOnce(s');
    assert answer.Accepted? ==> s.rows[one[0]].line in s'.ledger;
    forall i | 0 <= i < |s'.workers[w].writes|
      ensures s'.workers[w].writes[i].line == s'.rows[ids[i]].line && Honest(s', ids[i], s'.workers[w].writes[i])
    {
      if i == k {
        WrittenHonest(s', ids[k], s.rows[ids[k]], answer, now);
      } else {
        StillHonest(s, s', ids[i], x.writes[i]);
      }
    }
    assert s'.workers[w].ids == s.workers[w].ids;
    WorkerChanged(s, s', w);
  }

  lemma {:induction false} ReplacedIs(rows: seq<Row>, ids: seq<nat>, writes: seq<Row>)
    requires |ids| == |writes| && InRange(rows, ids) && forall i, j :: 0 <= i < j < |ids| ==> ids[i] != ids[j]
    ensures var after := Replaced(rows, ids, writes);
      && (forall i :: 0 <= i < |ids| ==> after[ids[i]] == writes[i])
      && (forall id :: 0 <= id < |rows| && id !in ids ==> after[id] == rows[id])
    decreases |ids|
  {
    if ids != [] {
      ReplacedIs(rows, ButLast(ids), ButLast(writes));
      var before, after := Replaced(rows, ButLast(ids), ButLast(writes)), Replaced(rows, ids, writes);
      forall i | 0 <= i < |ids| ensures after[ids[i]] == writes[i] {
        if i < |ids| - 1 {
          assert before[ButLast(ids)[i]] == ButLast(writes)[i];
        }
      }
      forall id | 0 <= id < |rows| && id !in ids ensures after[id] == rows[id] {
        assert id !in ButLast(ids) && id != Last(ids);
      }
    }
  }

  lemma CommitKeeps(s: State, w: nat)
    requires Valid(s) && w < |s.workers| && s.workers[w].phase.Settled?
    ensures InTable(s) && Valid(Apply(s, Commit(w)))
  {
    ValidInTable(s);
    assert WorkerOk(s, s.workers[w]);
    var x, s' := s.workers[w], Apply(s, Commit(w));
    ReplacedIs(s.rows, x.ids, x.writes);
    KnowsSame(s, s');
    forall id | 0 <= id < |s.rows| ensures s'.rows[id].line == s.rows[id].line && Honest(s', id, s'.rows[id]) {
      if id in x.ids {
        var i :| 0 <= i < |x.ids| && x.ids[i] == id;
        StillHonest(s, s', id, x.writes[i]);
      } else {
        StillHonest(s, s', id, s.rows[id]);
      }
    }
    hide Replaced;
    assert ChargedOnce(s') by {
      forall i | 0 <= i < |s'.ledger| ensures IsRecorded(s'.rows, s'.ledger[i]) {
        assert IsRecorded(s.rows, s.ledger[i]);
        var id :| 0 <= id < |s.rows| && s.rows[id].line == s.ledger[i];
        assert s'.rows[id].line == s'.ledger[i];
      }
    }
    forall v | 0 <= v < |s'.workers| ensures WorkerOk(s', s'.workers[v]) {
      if v != w {
        assert WorkerOk(s, s.workers[v]);
        forall i | 0 <= i < |s.workers[v].ids| ensures s.workers[v].ids[i] !in s.workers[w].ids {}
        StillOk(s, s', s.workers[v]);
      }
    }
  }

  lemma CrashKeeps(s: State, w: nat)
    requires Valid(s) && w < |s.workers|
    ensures InTable(s) && Valid(Apply(s, Crash(w)))
  {
    ValidInTable(s);
    KnowsSame(s, Apply(s, Crash(w)));
    WorkerChanged(s, Apply(s, Crash(w)), w);
  }

  lemma EventKeeps(s: State, e: Event)
    requires Valid(s) && Enabled(s, e)
    ensures InTable(s) && Valid(Apply(s, e))
  {
    ValidInTable(s);
    hide Valid;
    match e
    case Record(line, now) => RecordKeeps(s, line, now);
    case Claim(w, now) => ClaimKeeps(s, w, now);
    case Post(w, status, kept, now) => PostKeeps(s, w, AnswerTo(status), kept, now);
    case PostOne(w, status, kept, now) => PostOneKeeps(s, w, AnswerTo(status), kept, now);
    case Commit(w) => CommitKeeps(s, w);
    case Crash(w) => CrashKeeps(s, w);
  }

  // ----- whole runs

  ghost predicate RunEnabled(s: State, es: seq<Event>)
    decreases |es|
  {
    es == [] || (InTable(s) && Enabled(s, es[0]) && RunEnabled(Apply(s, es[0]), es[1..]))
  }

  ghost function Run(s: State, es: seq<Event>): State
    requires RunEnabled(s, es)
    decreases |es|
  {
    if es == [] then s else Run(Apply(s, es[0]), es[1..])
  }

  function Empty(replicas: nat): State { State([], seq(replicas, _ => RESTING), [], {}) }

  lemma {:induction false} RunKeeps(s: State, es: seq<Event>)
    requires Valid(s) && RunEnabled(s, es)
    ensures Valid(Run(s, es))
    decreases |es|
  {
    if es != [] {
      hide Valid, Apply, Enabled;
      EventKeeps(s, es[0]);
      RunKeeps(Apply(s, es[0]), es[1..]);
    }
  }

  /** A recorded row keeps its place and its line for good, and once sent or
      parked it stays as it is. */
  ghost predicate Kept(s: State, s': State) {
    && |s.rows| <= |s'.rows|
    && (forall id :: 0 <= id < |s.rows| ==> s'.rows[id].line == s.rows[id].line)
    && (forall id :: 0 <= id < |s.rows| && (s.rows[id].sent || s.rows[id].parked) ==> s'.rows[id] == s.rows[id])
  }

  lemma EventLosesNothing(s: State, e: Event)
    requires Valid(s) && InTable(s) && Enabled(s, e)
    ensures Kept(s, Apply(s, e))
  {
    match e
    case Commit(w) =>
      assert WorkerOk(s, s.workers[w]);
      ReplacedIs(s.rows, s.workers[w].ids, s.workers[w].writes);
      forall id | 0 <= id < |s.rows|
        ensures Apply(s, e).rows[id].line == s.rows[id].line
        ensures s.rows[id].sent || s.rows[id].parked ==> Apply(s, e).rows[id] == s.rows[id]
      {
        if id in s.workers[w].ids {
          var i :| 0 <= i < |s.workers[w].ids| && s.workers[w].ids[i] == id;
        }
      }
    case _ => hide Valid, Picked, Receive;
  }

  lemma {:induction false} NothingLost(s: State, es: seq<Event>)
    requires Valid(s) && RunEnabled(s, es)
    ensures Kept(s, Run(s, es))
    decreases |es|
  {
    if es != [] {
      hide Valid, Apply, Enabled;
      EventKeeps(s, es[0]);
      EventLosesNothing(s, es[0]);
      NothingLost(Apply(s, es[0]), es[1..]);
    }
  }

  lemma EmptyValid(replicas: nat)
    ensures Valid(Empty(replicas))
  {
  }

  /** Safety of every run, with any crashes and lost answers: a row marked sent
      is charged, each key at most once and for the line recorded under it; a row
      is parked only once refused on its own; no two replicas hold the same row. */
  lemma OutboxSafe(replicas: nat, es: seq<Event>, id: nat)
    requires RunEnabled(Empty(replicas), es)
    ensures var s := Run(Empty(replicas), es);
      && (id < |s.rows| && s.rows[id].sent ==> s.rows[id].line in s.ledger && !s.rows[id].parked)
      && (id < |s.rows| && s.rows[id].parked ==> id in s.alone)
      && OnceEach(s.ledger) && EntriesRecorded(s.rows, s.ledger) && Disjoint(s)
  {
    EmptyValid(replicas);
    RunKeeps(Empty(replicas), es);
  }

  predicate HasRow(rows: seq<Row>, key: string) { exists id :: 0 <= id < |rows| && rows[id].line.key == key }

  /** A line accepted for recording has a row under its key for good. */
  lemma RecordedForGood(s: State, line: Line, now: int, es: seq<Event>)
    requires Valid(s) && line.quantity > 0 && RunEnabled(Recorded(s, line, now), es)
    ensures HasRow(Run(Recorded(s, line, now), es).rows, line.key)
  {
    var s1 := Recorded(s, line, now);
    RecordKeeps(s, line, now);
    NothingLost(s1, es);
    var id :| 0 <= id < |s1.rows| && s1.rows[id].line.key == line.key by {
      if s1 != s {
        assert s1.rows[|s.rows|].line.key == line.key;
      }
    }
    assert Run(s1, es).rows[id].line.key == line.key;
  }

  // ----- one pass of a replica

  method ClaimRows(s: State, now: int, limit: nat) returns (ids: seq<nat>)
    ensures ids == Picked(s, now, 0, limit)
  {
    ids := [];
    for id := 0 to |s.rows|
      invariant |ids| <= limit && ids + Picked(s, now, id, limit - |ids|) == Picked(s, now, 0, limit)
    {
      if |ids| < limit && Due(s.rows[id], now) && !Locked(s, id) {
        assert ids + ([id] + Picked(s, now, id + 1, limit - |ids| - 1)) ==
          (ids + [id]) + Picked(s, now, id + 1, limit - |ids| - 1);
        ids := ids + [id];
      }
    }
  }

  /** How row `i` of a claim is settled: by the answer to the batch, or by the one
      to itself when a batch of several was refused. */
  function Verdict(n: nat, batch: Option<int>, singles: nat -> Option<int>, i: nat): Answer {
    if AnswerTo(batch).Refused? && n > 1 then AnswerTo(singles(i)) else AnswerTo(batch)
  }

  lemma {:induction false} RunSnoc(s: State, es: seq<Event>, e: Event)
    requires RunEnabled(s, es) && InTable(Run(s, es)) && Enabled(Run(s, es), e)
    ensures RunEnabled(s, es + [e]) && Run(s, es + [e]) == Apply(Run(s, es), e)
    decreases |es|
  {
    hide Apply, Enabled, InTable;
    if es == [] {
      assert [e][1..] == [] && [] + [e] == [e];
    } else {
      assert (es + [e])[0] == es[0] && (es + [e])[1..] == es[1..] + [e];
      RunSnoc(Apply(s, es[0]), es[1..], e);
    }
  }

  /** The first `k` rows of a refused batch are settled, each by its own answer;
      nothing else has changed. */
  ghost predicate Midway(s: State, t: State, w: nat, now: int, singles: nat -> Option<int>, k: nat) {
    && t.rows == s.rows && w < |s.workers| == |t.workers|
    && (var ids, x := s.workers[w].ids, t.workers[w];
        && InRange(s.rows, ids) && k <= |ids|
        && x.ids == ids && |x.writes| == k && x.phase == (if k == |ids| then Settled else OneByOne)
        && forall i :: 0 <= i < k ==> x.writes[i] == Written(s.rows[ids[i]], AnswerTo(singles(i)), now))
    && forall v :: 0 <= v < |s.workers| && v != w ==> t.workers[v] == s.workers[v]
  }

  lemma MidwayNext(s: State, t: State, w: nat, now: int, singles: nat -> Option<int>, kept: bool, k: nat)
    requires Valid(t) && Midway(s, t, w, now, singles, k) && k < |s.workers[w].ids|
    ensures InTable(t) && t.workers[w].phase.OneByOne?
    ensures var t' := PostedOne(t, w, AnswerTo(singles(k)), kept, now);
      Valid(t') && Midway(s, t', w, now, singles, k + 1)
  {
    PostOneKeeps(t, w, AnswerTo(singles(k)), kept, now);
    hide Valid, Receive, Written, AnswerTo;
  }

  /** The rows of a refused batch, each posted and settled on its own. */
  method PostEach(s: State, w: nat, now: int, singles: nat -> Option<int>, keptOnes: nat -> bool)
    returns (t: State, ghost es: seq<Event>)
    requires Valid(s) && w < |s.workers| && s.workers[w].phase.OneByOne? && s.workers[w].writes == []
    ensures RunEnabled(s, es) && t == Run(s, es) && Valid(t) && Midway(s, t, w, now, singles, |s.workers[w].ids|)
  {
    ValidInTable(s);
    assert WorkerOk(s, s.workers[w]);
    var ids := s.workers[w].ids;
    t, es := s, [];
    RunNothing(s);
    assert Midway(s, t, w, now, singles, 0);
    hide Valid, Receive, Run, RunEnabled, Midway, PostedOne, WorkerOk, InTable;
    for k := 0 to |ids|
      invariant RunEnabled(s, es) && t == Run(s, es) && Valid(t) && Midway(s, t, w, now, singles, k)
    {
      MidwayNext(s, t, w, now, singles, keptOnes(k), k);
      RunSnoc(s, es, PostOne(w, singles(k), keptOnes(k), now));
      es := es + [PostOne(w, singles(k), keptOnes(k), now)];
      t := PostedOne(t, w, AnswerTo(singles(k)), keptOnes(k), now);
    }
  }

  lemma RunNothing(s: State)
    ensures RunEnabled(s, []) && Run(s, []) == s
  {
  }

  /** A claimed batch posted, whole or row by row, and settled in the
      transaction. */
  method PostClaim(s: State, w: nat, now: int, batch: Option<int>, kept: bool, singles: nat -> Option<int>,
      keptOnes: nat -> bool)
    returns (t: State, ghost es: seq<Event>)
    requires Valid(s) && w < |s.workers| && s.workers[w].phase.Claimed?
    ensures RunEnabled(s, es) && t == Run(s, es) && Valid(t) && t.rows == s.rows && |t.workers| == |s.workers|
    ensures var ids, x := s.workers[w].ids, t.workers[w];
      && x.phase.Settled? && x.ids == ids && |x.writes| == |ids| && InRange(s.rows, ids)
      && (forall i :: 0 <= i < |ids| ==> x.writes[i] == Written(s.rows[ids[i]], Verdict(|ids|, batch, singles, i), now))
    ensures forall v :: 0 <= v < |s.workers| && v != w ==> t.workers[v] == s.workers[v]
  {
    ValidInTable(s);
    RunNothing(s);
    PostedIs(s, w, AnswerTo(batch), kept, now);
    hide Valid, Receive, Run, RunEnabled, PostedAll, Fits;
    var ids := s.workers[w].ids;
    PostKeeps(s, w, AnswerTo(batch), kept, now);
    RunSnoc(s, [], Post(w, batch, kept, now));
    t, es := PostedAll(s, w, AnswerTo(batch), kept, now), [] + [Post(w, batch, kept, now)];
    if AnswerTo(batch).Refused? && |ids| > 1 {
      ghost var more;
      t, more := PostEach(t, w, now, singles, keptOnes);
      RunConcat(s, es, more);
      es := es + more;
    }
  }

  lemma CommitIs(s: State, w: nat)
    requires Valid(s) && w < |s.workers| && s.workers[w].phase.Settled?
    ensures InTable(s) && InRange(s.rows, s.workers[w].ids)
    ensures var t, x := Apply(s, Commit(w)), s.workers[w];
      && t.workers == s.workers[w := RESTING] && |t.rows| == |s.rows| && |x.writes| == |x.ids|
      && (forall i :: 0 <= i < |x.ids| ==> t.rows[x.ids[i]] == x.writes[i])
      && (forall id :: 0 <= id < |s.rows| && id !in x.ids ==> t.rows[id] == s.rows[id])
  {
    ValidInTable(s);
    assert WorkerOk(s, s.workers[w]);
    ReplacedIs(s.rows, s.workers[w].ids, s.workers[w].writes);
  }

  /** A pass that does not crash is a run of the events above; it settles exactly
      the rows it claimed, each by its verdict, and touches no other row and no
      other replica. */
  method RunOnce(s: State, w: nat, now: int, batch: Option<int>, kept: bool, singles: nat -> Option<int>,
      keptOnes: nat -> bool)
    returns (t: State, ghost es: seq<Event>)
    requires Valid(s) && w < |s.workers| && s.workers[w] == RESTING
    ensures RunEnabled(s, es) && t == Run(s, es) && Valid(t) && t.workers == s.workers && |t.rows| == |s.rows|
    ensures var ids := Picked(s, now, 0, SENDER_BATCH);
      && InRange(s.rows, ids)
      && (forall i :: 0 <= i < |ids| ==>
            t.rows[ids[i]] == Written(s.rows[ids[i]], Verdict(|ids|, batch, singles, i), now))
      && (forall id :: 0 <= id < |s.rows| && id !in ids ==> t.rows[id] == s.rows[id])
  {
    ValidInTable(s);
    RunNothing(s);
    PickedMeans(s, now, 0, SENDER_BATCH);
    var ids := ClaimRows(s, now, SENDER_BATCH);
    t, es := s, [];
    if ids == [] {
      return;
    }
    ClaimKeeps(s, w, now);
    hide Valid, Run, RunEnabled, Picked, Fits;
    RunSnoc(s, [], Claim(w, now));
    ghost var more;
    t, more := PostClaim(Set(s, w, Worker(Claimed, ids, [])), w, now, batch, kept, singles, keptOnes);
    RunConcat(s, [] + [Claim(w, now)], more);
    es := ([] + [Claim(w, now)]) + more;
    CommitIs(t, w);
    CommitKeeps(t, w);
    RunSnoc(s, es, Commit(w));
    es := es + [Commit(w)];
    ghost var settled := t;
    t := Apply(t, Commit(w));
    assert t.workers == s.workers;
  }

  lemma PostedIs(s: State, w: nat, answer: Answer, kept: bool, now: int)
    requires InTable(s) && w < |s.workers| && s.workers[w].phase.Claimed?
    ensures var t, ids := PostedAll(s, w, answer, kept, now), s.workers[w].ids;
      && t.rows == s.rows && |t.workers| == |s.workers| && InRange(s.rows, ids)
      && (forall v :: 0 <= v < |s.workers| && v != w ==> t.workers[v] == s.workers[v])
      && t.workers[w] == if answer.Refused? && |ids| > 1 then Worker(OneByOne, ids, [])
                         else Worker(Settled, ids, AllWritten(s.rows, ids, answer, now))
  {
    assert Fits(s.rows, s.workers[w]);
  }

  lemma {:induction false} RunConcat(s: State, a: seq<Event>, b: seq<Event>)
    requires RunEnabled(s, a) && RunEnabled(Run(s, a), b)
    ensures RunEnabled(s, a + b) && Run(s, a + b) == Run(Run(s, a), b)
    decreases |a|
  {
    hide Apply, Enabled, InTable;
    if a == [] {
      assert [] + b == b;
    } else {
      assert (a + b)[0] == a[0] && (a + b)[1..] == a[1..] + b;
      RunConcat(Apply(s, a[0]), a[1..], b);
    }
  }
}
