/** The scheduler seen from its listeners: for every stream the frames it still
    owes. Which frames those are may differ each time a text is read; what is
    proved here holds for any source of frames. */
module Desk {
  import opened Prelude
  import opened Softmax
  import opened Reading

  /** `draw(id, u)` is what stream `id` reads `u` as, `prompts` whether a text can
      be prompted at all, and `limit` bounds its frames. */
  datatype Voice = Voice(
    draw: (nat, Utterance) -> seq<Vec>,
    prompts: Utterance -> bool,
    limit: Utterance -> nat,
    ears: Ears)

  ghost predicate VoiceValid(v: Voice) {
    forall id, u {:trigger v.draw(id, u)} :: v.prompts(u) ==> 0 < |v.draw(id, u)| <= v.limit(u)
  }

  /** Every stream reads a text as the same frames. */
  ghost predicate Fixed(v: Voice) {
    forall i, j, u {:trigger v.draw(i, u), v.draw(j, u)} :: v.draw(i, u) == v.draw(j, u)
  }

  datatype Desk = Desk(
    active: map<nat, Active>,
    received: map<Job, seq<Piece>>,
    owed: map<nat, seq<Vec>>,
    nextId: nat,
    nextJob: nat)

  const CLOSED := Desk(map[], map[], map[], 0, 0)

  // ----- the script of a job

  function Sounds(ears: Ears, frames: seq<Vec>): (ss: seq<Sound>)
    ensures |ss| == |frames| && forall i :: 0 <= i < |ss| ==> ss[i] == ears.sound(frames[i])
  {
    seq(|frames|, i requires 0 <= i < |frames| => ears.sound(frames[i]))
  }

  function SegmentOf(job: Job, k: nat): Utterance
    requires k < |job.segments|
  {
    Utterance(job.segments[k], job.voice)
  }

  function TextOf(a: Active): Utterance
    requires a.segment < |a.job.segments|
  {
    SegmentOf(a.job, a.segment)
  }

  /** The first segments of a job, the `k`-th as stream `ids[k]` reads it. */
  function Spoken(v: Voice, job: Job, ids: seq<nat>): (spoken: seq<seq<Sound>>)
    requires |ids| <= |job.segments|
    ensures |spoken| == |ids|
    ensures forall k :: 0 <= k < |ids| ==> spoken[k] == Sounds(v.ears, v.draw(ids[k], SegmentOf(job, k)))
  {
    seq(|ids|, k requires 0 <= k < |ids| <= |job.segments| => Sounds(v.ears, v.draw(ids[k], SegmentOf(job, k))))
  }

  /** What a listener has once these streams have read these segments. */
  function ScriptOf(v: Voice, job: Job, ids: seq<nat>): seq<Piece>
    requires |ids| <= |job.segments|
  {
    Script(Spoken(v, job, ids))
  }

  /** The history of a reading whose finished segments were read by `ids`, `n`
      frames into stream `id`. */
  function HistoryAt(v: Voice, job: Job, ids: seq<nat>, id: nat, n: nat): (h: History)
    requires |ids| < |job.segments| && n <= |v.draw(id, SegmentOf(job, |ids|))|
    ensures |h.spoken| == |ids| && |h.heard| == n
  {
    History(Spoken(v, job, ids), Sounds(v.ears, v.draw(id, SegmentOf(job, |ids|))[..n]))
  }

  lemma HistoryHears(v: Voice, job: Job, ids: seq<nat>, id: nat, n: nat)
    requires |ids| < |job.segments| && n < |v.draw(id, SegmentOf(job, |ids|))|
    ensures Hearing(HistoryAt(v, job, ids, id, n), v.ears.sound(v.draw(id, SegmentOf(job, |ids|))[n]))
         == HistoryAt(v, job, ids, id, n + 1)
  {
    var r := v.draw(id, SegmentOf(job, |ids|));
    assert r[..n + 1] == r[..n] + [r[n]];
  }

  lemma HistoryFinishes(v: Voice, job: Job, ids: seq<nat>, id: nat, next: nat)
    requires |ids| < |job.segments|
    ensures var h := Finished(HistoryAt(v, job, ids, id, |v.draw(id, SegmentOf(job, |ids|))|));
      && h.spoken == Spoken(v, job, ids + [id])
      && (|ids| + 1 < |job.segments| ==> h == HistoryAt(v, job, ids + [id], next, 0))
  {
    var r := v.draw(id, SegmentOf(job, |ids|));
    assert r[..|r|] == r;
  }

  lemma HistoryRestarts(v: Voice, job: Job, ids: seq<nat>, id: nat, n: nat, next: nat)
    requires |ids| < |job.segments| && n <= |v.draw(id, SegmentOf(job, |ids|))|
    ensures History(HistoryAt(v, job, ids, id, n).spoken, []) == HistoryAt(v, job, ids, next, 0)
  {
  }

  lemma {:induction false} ScriptPrefix(spoken: seq<seq<Sound>>, k: nat)
    requires k <= |spoken|
    ensures IsPrefix(Script(spoken[..k]), Script(spoken))
    decreases |spoken|
  {
    if k < |spoken| {
      ScriptPrefix(ButLast(spoken), k);
      assert ButLast(spoken)[..k] == spoken[..k];
    } else {
      assert spoken[..k] == spoken;
    }
  }

  lemma PrefixOfPrefix<T>(a: seq<T>, b: seq<T>, c: seq<T>)
    requires IsPrefix(a, b) && IsPrefix(b, c)
    ensures IsPrefix(a, c)
  {
  }

  /** What is given of an attempt is a beginning of the script it would finish. */
  lemma GivenIsPrefix(v: Voice, job: Job, ids: seq<nat>, id: nat, n: nat, j: nat)
    requires |ids| < |job.segments| && j <= n <= |v.draw(id, SegmentOf(job, |ids|))|
    ensures IsPrefix(Given(HistoryAt(v, job, ids, id, n), j), ScriptOf(v, job, ids + [id]))
  {
    var whole := HistoryAt(v, job, ids, id, |v.draw(id, SegmentOf(job, |ids|))|);
    assert Given(HistoryAt(v, job, ids, id, n), j) == Given(whole, j) by {
      assert HistoryAt(v, job, ids, id, n).heard[..j] == whole.heard[..j];
    }
    hide Given, Script, Spoken, HistoryAt;
    HistoryFinishes(v, job, ids, id, 0);
    GivenInFull(whole, j);
  }

  // ----- what a listener may have

  /** Streams given before `below`, each after the one before it. */
  predicate Successive(ids: seq<nat>, below: nat) {
    && (forall i, j :: 0 <= i < j < |ids| ==> ids[i] < ids[j])
    && (forall i :: 0 <= i < |ids| ==> ids[i] < below)
  }

  /** The first `k` segments can be prompted. */
  predicate PromptsTo(v: Voice, job: Job, k: nat)
    requires k <= |job.segments|
  {
    forall j :: 0 <= j < k ==> v.prompts(SegmentOf(job, j))
  }

  /** How many segments can be prompted before the first that cannot. */
  function Sayable(v: Voice, job: Job): (n: nat)
    ensures n <= |job.segments| && PromptsTo(v, job, n)
    ensures n < |job.segments| ==> !v.prompts(SegmentOf(job, n))
  {
    SayableFrom(v, job, 0)
  }

  function SayableFrom(v: Voice, job: Job, k: nat): (n: nat)
    requires k <= |job.segments| && PromptsTo(v, job, k)
    ensures k <= n <= |job.segments| && PromptsTo(v, job, n)
    ensures n < |job.segments| ==> !v.prompts(SegmentOf(job, n))
    decreases |job.segments| - k
  {
    if k < |job.segments| && v.prompts(SegmentOf(job, k)) then SayableFrom(v, job, k + 1) else k
  }

  lemma SayableIs(v: Voice, job: Job, k: nat)
    requires k <= |job.segments|
    ensures PromptsTo(v, job, k) <==> k <= Sayable(v, job)
  {
  }

  /** A beginning of a script of the listener's own: for each segment that can be
      prompted, one stream of those there have been, later ones for later
      segments. */
  ghost predicate Entitled(v: Voice, job: Job, got: seq<Piece>, below: nat) {
    exists ids :: EntitledBy(v, job, got, ids, below)
  }

  ghost predicate EntitledBy(v: Voice, job: Job, got: seq<Piece>, ids: seq<nat>, below: nat) {
    && |ids| <= |job.segments| && PromptsTo(v, job, |ids|) && Successive(ids, below)
    && IsPrefix(got, ScriptOf(v, job, ids))
  }

  lemma NothingEntitled(v: Voice, job: Job, below: nat)
    ensures Entitled(v, job, [], below)
  {
    assert EntitledBy(v, job, [], [], below);
  }

  lemma EntitledLater(v: Voice, job: Job, got: seq<Piece>, below: nat, later: nat)
    requires Entitled(v, job, got, below) && below <= later
    ensures Entitled(v, job, got, later)
  {
    var ids :| EntitledBy(v, job, got, ids, below);
    hide ScriptOf, PromptsTo;
    assert EntitledBy(v, job, got, ids, later);
  }

  /** Every segment up to the first that cannot be prompted, one whole attempt at
      each. */
  ghost predicate HasAllSpoken(v: Voice, job: Job, got: seq<Piece>, below: nat) {
    exists ids :: AllSpokenBy(v, job, got, ids, below)
  }

  ghost predicate AllSpokenBy(v: Voice, job: Job, got: seq<Piece>, ids: seq<nat>, below: nat) {
    |ids| == Sayable(v, job) && Successive(ids, below) && got == ScriptOf(v, job, ids)
  }

  lemma SpokenLater(v: Voice, job: Job, got: seq<Piece>, below: nat, later: nat)
    requires HasAllSpoken(v, job, got, below) && below <= later
    ensures HasAllSpoken(v, job, got, later)
  {
    var ids :| AllSpokenBy(v, job, got, ids, below);
    hide ScriptOf;
    assert AllSpokenBy(v, job, got, ids, later);
  }

  /** One whole attempt at every segment there is. */
  ghost predicate Whole(v: Voice, job: Job, got: seq<Piece>, below: nat) {
    exists ids :: WholeBy(v, job, got, ids, below)
  }

  ghost predicate WholeBy(v: Voice, job: Job, got: seq<Piece>, ids: seq<nat>, below: nat) {
    |ids| == |job.segments| && Successive(ids, below) && got == ScriptOf(v, job, ids)
  }

  function Ends(got: seq<Piece>): nat {
    if got == [] then 0 else Ends(ButLast(got)) + if Last(got).SegmentEnd? then 1 else 0
  }

  lemma {:induction false} EndsConcat(a: seq<Piece>, b: seq<Piece>)
    ensures Ends(a + b) == Ends(a) + Ends(b)
  {
    if b == [] {
      assert a + b == a;
    } else {
      assert ButLast(a + b) == a + ButLast(b);
      EndsConcat(a, ButLast(b));
    }
  }

  lemma {:induction false} NoEnds(sounds: seq<Sound>)
    ensures Ends(Pieces(sounds)) == 0
  {
    if sounds != [] {
      NoEnds(ButLast(sounds));
      assert ButLast(Pieces(sounds)) == Pieces(ButLast(sounds));
    }
  }

  /** A listener can tell by its end marks how many segments it has. */
  lemma {:induction false} ScriptEnds(spoken: seq<seq<Sound>>)
    ensures Ends(Script(spoken)) == |spoken|
  {
    if spoken != [] {
      ScriptEnds(ButLast(spoken));
      var a, b := Script(ButLast(spoken)), Pieces(Last(spoken));
      NoEnds(Last(spoken));
      EndsConcat(a, b);
      EndsConcat(a + b, [SegmentEnd]);
      assert ButLast([SegmentEnd]) == [];
    }
  }

  lemma SpokenEnds(v: Voice, job: Job, got: seq<Piece>, below: nat)
    ensures HasAllSpoken(v, job, got, below) ==> Ends(got) == Sayable(v, job)
    ensures Whole(v, job, got, below) ==> Ends(got) == |job.segments|
  {
    if HasAllSpoken(v, job, got, below) {
      var ids :| AllSpokenBy(v, job, got, ids, below);
      ScriptEnds(Spoken(v, job, ids));
    }
    if Whole(v, job, got, below) {
      var ids :| WholeBy(v, job, got, ids, below);
      ScriptEnds(Spoken(v, job, ids));
    }
  }

  /** Of a listener that has all that was spoken, the text is whole if and only if
      every segment of it can be prompted. */
  lemma WholeIffPrompts(v: Voice, job: Job, got: seq<Piece>, below: nat)
    requires HasAllSpoken(v, job, got, below)
    ensures Whole(v, job, got, below) <==> PromptsTo(v, job, |job.segments|)
  {
    SpokenEnds(v, job, got, below);
    SayableIs(v, job, |job.segments|);
    if Sayable(v, job) == |job.segments| {
      var ids :| AllSpokenBy(v, job, got, ids, below);
      assert WholeBy(v, job, got, ids, below);
    }
  }

  // ----- one script for all

  /** The script of a text that every stream reads as the same frames. */
  function OneScript(v: Voice, job: Job): seq<Piece> { ScriptOf(v, job, seq(Sayable(v, job), _ => 0)) }

  lemma OneScriptEnds(v: Voice, job: Job)
    ensures Ends(OneScript(v, job)) == Sayable(v, job)
  {
    ScriptEnds(Spoken(v, job, seq(Sayable(v, job), _ => 0)));
  }

  lemma FixedSpoken(v: Voice, job: Job, ids: seq<nat>, all: seq<nat>)
    requires Fixed(v) && |ids| <= |all| <= |job.segments|
    ensures Spoken(v, job, ids) == Spoken(v, job, all)[..|ids|]
  {
    forall k | 0 <= k < |ids| ensures Spoken(v, job, ids)[k] == Spoken(v, job, all)[k] {
      assert v.draw(ids[k], SegmentOf(job, k)) == v.draw(all[k], SegmentOf(job, k));
    }
  }

  lemma EntitledWhenFixed(v: Voice, job: Job, got: seq<Piece>, below: nat)
    requires Fixed(v) && Entitled(v, job, got, below)
    ensures IsPrefix(got, OneScript(v, job))
  {
    var ids :| EntitledBy(v, job, got, ids, below);
    SayableIs(v, job, |ids|);
    var all: seq<nat> := seq(Sayable(v, job), _ => 0);
    FixedSpoken(v, job, ids, all);
    hide Spoken, Script, Sayable;
    ScriptPrefix(Spoken(v, job, all), |ids|);
    PrefixOfPrefix(got, ScriptOf(v, job, ids), OneScript(v, job));
  }

  lemma SpokenWhenFixed(v: Voice, job: Job, got: seq<Piece>, below: nat)
    requires Fixed(v) && HasAllSpoken(v, job, got, below)
    ensures got == OneScript(v, job)
  {
    var ids :| AllSpokenBy(v, job, got, ids, below);
    var all: seq<nat> := seq(Sayable(v, job), _ => 0);
    FixedSpoken(v, job, ids, all);
    assert Spoken(v, job, all)[..|ids|] == Spoken(v, job, all);
  }

  // ----- one reading

  /** A reading with the frames stream `id` owes it: what it has heard and what is
      to come are that stream's draw, every segment before was an earlier stream's
      whole draw, and its listener was told the start of it. */
  ghost predicate Reads(v: Voice, a: Active, sent: seq<Piece>, id: nat, owed: seq<Vec>)
    ensures Reads(v, a, sent, id, owed) ==> owed != []
  {
    exists ids :: ReadsAfter(v, a, sent, id, owed, ids)
  }

  ghost predicate ReadsAfter(v: Voice, a: Active, sent: seq<Piece>, id: nat, owed: seq<Vec>, ids: seq<nat>)
    ensures ReadsAfter(v, a, sent, id, owed, ids) ==> owed != []
  {
    && owed != [] && |ids| == a.segment < |a.job.segments| && PromptsTo(v, a.job, a.segment + 1) && Successive(ids, id)
    && (var r := v.draw(id, TextOf(a));
        && a.framesSeen + |owed| == |r| && owed == r[a.framesSeen..]
        && Told(a, sent, HistoryAt(v, a.job, ids, id, a.framesSeen)))
  }

  lemma ReadsFresh(v: Voice, job: Job, id: nat)
    requires VoiceValid(v) && job.segments != [] && v.prompts(SegmentOf(job, 0))
    ensures Reads(v, Fresh(job), [], id, v.draw(id, SegmentOf(job, 0)))
  {
    var r := v.draw(id, SegmentOf(job, 0));
    assert r != [];
    hide *;
    ToldAtFirst(v, job, id);
    ReadsFirst(v, job, id, Fresh(job), r);
  }

  lemma ReadsFirst(v: Voice, job: Job, id: nat, a: Active, r: seq<Vec>)
    requires job.segments != [] && v.prompts(SegmentOf(job, 0)) && a == Fresh(job)
    requires r != [] && r == v.draw(id, SegmentOf(job, 0)) && Told(a, [], HistoryAt(v, job, [], id, 0))
    ensures Reads(v, a, [], id, r)
  {
    hide Told, HistoryAt;
    assert r[0..] == r;
    assert ReadsAfter(v, a, [], id, r, []);
  }

  lemma ToldAtFirst(v: Voice, job: Job, id: nat)
    requires job.segments != []
    ensures Told(Fresh(job), [], HistoryAt(v, job, [], id, 0))
  {
    ToldFresh(job);
    EmptyHistory(v, job, id);
  }

  lemma EmptyHistory(v: Voice, job: Job, id: nat)
    requires job.segments != []
    ensures HistoryAt(v, job, [], id, 0) == History([], [])
  {
  }

  lemma OutcomeCounts(a: Active, sent: seq<Piece>, f: Heard)
    ensures match OnFrame(a, sent, f).0
      case Kept(b) => b.job == a.job && b.segment == a.segment && b.framesSeen == a.framesSeen + 1
      case Again(b) => b.job == a.job && b.segment == a.segment && b.framesSeen == 0
      case Next(b) => b.job == a.job && b.segment == a.segment + 1 < |a.job.segments| && b.framesSeen == 0
      case _ => true
  {
  }

  /** The next frame keeps a reading faithful, whatever becomes of it; `next` is
      the stream that takes over. A segment that cannot be prompted leaves its
      listener with every segment before it. */
  lemma ReadsFrame(v: Voice, a: Active, sent: seq<Piece>, id: nat, audio: Vec, later: seq<Vec>, next: nat)
    requires VoiceValid(v) && Reads(v, a, sent, id, [audio] + later) && id < next
    ensures var (outcome, sent') := OnFrame(a, sent, HeardOf(v.ears, audio, later == []));
      match outcome
      case Kept(b) => b.job == a.job && Reads(v, b, sent', id, later)
      case Again(b) => b.job == a.job && b.segment < |b.job.segments| && sent' == sent && v.prompts(TextOf(b)) &&
        Reads(v, b, sent', next, v.draw(next, TextOf(b)))
      case Next(b) => b.job == a.job && b.segment < |b.job.segments| &&
        (if v.prompts(TextOf(b)) then Reads(v, b, sent', next, v.draw(next, TextOf(b)))
         else HasAllSpoken(v, a.job, sent', next))
      case Over => HasAllSpoken(v, a.job, sent', next)
      case Left => a.job.leavesAfter.Some? && |sent'| >= a.job.leavesAfter.value
  {
    var ids :| ReadsAfter(v, a, sent, id, [audio] + later, ids);
    var (outcome, sent') := OnFrame(a, sent, HeardOf(v.ears, audio, later == []));
    ReadsFrameBy(v, a, sent, id, audio, later, next, ids);
    hide OnFrame, ReadsAfter;
    match outcome
    case Kept(b) => assert ReadsAfter(v, b, sent', id, later, ids);
    case Again(b) => assert ReadsAfter(v, b, sent', next, v.draw(next, TextOf(b)), ids);
    case Next(b) =>
    case Over =>
    case Left =>
  }

  /** What one frame makes of a reading and of what its listener was told. */
  lemma FrameTells(v: Voice, a: Active, sent: seq<Piece>, id: nat, audio: Vec, later: seq<Vec>, next: nat,
      ids: seq<nat>)
    requires ReadsAfter(v, a, sent, id, [audio] + later, ids)
    ensures var (outcome, sent') := OnFrame(a, sent, HeardOf(v.ears, audio, later == []));
      var n := a.framesSeen;
      match outcome
      case Kept(b) =>
        && b.job == a.job && b.segment == a.segment && b.framesSeen == n + 1 && later != []
        && Told(b, sent', HistoryAt(v, a.job, ids, id, n + 1))
      case Again(b) =>
        && b.job == a.job && b.segment == a.segment && b.framesSeen == 0 && sent' == sent
        && Told(b, sent', HistoryAt(v, a.job, ids, next, 0))
      case Next(b) =>
        && b.job == a.job && b.segment == a.segment + 1 < |a.job.segments| && b.framesSeen == 0
        && Told(b, sent', HistoryAt(v, a.job, ids + [id], next, 0))
      case Over => |ids| + 1 == |a.job.segments| && sent' == Script(Spoken(v, a.job, ids + [id]))
      case Left =>
        && a.job.leavesAfter.Some? && |sent'| >= a.job.leavesAfter.value
        && IsPrefix(sent', Given(HistoryAt(v, a.job, ids, id, n + 1), n + 1))
  {
    hide OnFrame, Told, Script, Given, HistoryAt, Spoken, PromptsTo;
    var n, r, f := a.framesSeen, v.draw(id, TextOf(a)), HeardOf(v.ears, audio, later == []);
    assert r[n] == audio && |r| == n + 1 + |later|;
    OutcomeCounts(a, sent, f);
    Delivery(a, sent, HistoryAt(v, a.job, ids, id, n), f);
    HistoryHears(v, a.job, ids, id, n);
    HistoryFinishes(v, a.job, ids, id, next);
    HistoryRestarts(v, a.job, ids, id, n, next);
  }

  lemma ReadsFrameBy(v: Voice, a: Active, sent: seq<Piece>, id: nat, audio: Vec, later: seq<Vec>, next: nat,
      ids: seq<nat>)
    requires VoiceValid(v) && ReadsAfter(v, a, sent, id, [audio] + later, ids) && id < next
    ensures var (outcome, sent') := OnFrame(a, sent, HeardOf(v.ears, audio, later == []));
      match outcome
      case Kept(b) => b.job == a.job && ReadsAfter(v, b, sent', id, later, ids)
      case Again(b) => b.job == a.job && b.segment < |b.job.segments| && sent' == sent && v.prompts(TextOf(b)) &&
        ReadsAfter(v, b, sent', next, v.draw(next, TextOf(b)), ids)
      case Next(b) => b.job == a.job && b.segment < |b.job.segments| &&
        if v.prompts(TextOf(b)) then ReadsAfter(v, b, sent', next, v.draw(next, TextOf(b)), ids + [id])
        else AllSpokenBy(v, a.job, sent', ids + [id], next)
      case Over => AllSpokenBy(v, a.job, sent', ids + [id], next)
      case Left => a.job.leavesAfter.Some? && |sent'| >= a.job.leavesAfter.value
  {
    FrameTells(v, a, sent, id, audio, later, next, ids);
    ReadsFacts(v, a, sent, id, audio, later, ids);
    var (outcome, sent') := OnFrame(a, sent, HeardOf(v.ears, audio, later == []));
    SuccessiveMore(ids, id, next);
    hide OnFrame, Told, Script, Given, HistoryAt, Spoken, ReadsAfter, PromptsTo, AllSpokenBy, Successive, Sayable;
    match outcome
    case Kept(b) => ReadsMore(v, b, sent', id, later, ids);
    case Again(b) => ReadsFromStart(v, b, sent', next, ids);
    case Next(b) =>
      if v.prompts(TextOf(b)) {
        ReadsFromStart(v, b, sent', next, ids + [id]);
      } else {
        ToldNothingYet(v, b, sent', ids + [id], next);
        SpokenTo(v, a.job, sent', ids + [id], next);
      }
    case Over =>
      ScriptOfIs(v, a.job, ids + [id]);
      SpokenTo(v, a.job, sent', ids + [id], next);
    case Left =>
  }

  lemma SuccessiveMore(ids: seq<nat>, id: nat, next: nat)
    requires Successive(ids, id) && id < next
    ensures Successive(ids, next) && Successive(ids + [id], next)
  {
  }

  lemma ReadsFacts(v: Voice, a: Active, sent: seq<Piece>, id: nat, audio: Vec, later: seq<Vec>, ids: seq<nat>)
    requires ReadsAfter(v, a, sent, id, [audio] + later, ids)
    ensures |ids| == a.segment < |a.job.segments| && v.prompts(TextOf(a)) && TextOf(a) == SegmentOf(a.job, |ids|)
    ensures PromptsTo(v, a.job, a.segment) && PromptsTo(v, a.job, a.segment + 1) && Successive(ids, id)
    ensures var r := v.draw(id, TextOf(a)); a.framesSeen + 1 + |later| == |r| && later == r[a.framesSeen + 1..]
  {
    hide Told;
    var r := v.draw(id, TextOf(a));
    assert r[a.framesSeen..][1..] == later;
  }

  lemma ReadsMore(v: Voice, b: Active, sent: seq<Piece>, id: nat, later: seq<Vec>, ids: seq<nat>)
    requires |ids| == b.segment < |b.job.segments| && PromptsTo(v, b.job, b.segment + 1) && Successive(ids, id) &&
      later != []
    requires var r := v.draw(id, TextOf(b)); b.framesSeen + |later| == |r| && later == r[b.framesSeen..]
    requires Told(b, sent, HistoryAt(v, b.job, ids, id, b.framesSeen))
    ensures ReadsAfter(v, b, sent, id, later, ids)
  {
    hide Told, HistoryAt, PromptsTo;
  }

  lemma ReadsFromStart(v: Voice, b: Active, sent: seq<Piece>, next: nat, ids: seq<nat>)
    requires VoiceValid(v) && |ids| == b.segment < |b.job.segments| && b.framesSeen == 0 && Successive(ids, next)
    requires PromptsTo(v, b.job, b.segment) && v.prompts(TextOf(b)) && Told(b, sent, HistoryAt(v, b.job, ids, next, 0))
    ensures ReadsAfter(v, b, sent, next, v.draw(next, TextOf(b)), ids)
  {
    var r := v.draw(next, TextOf(b));
    assert r != [] && r[0..] == r;
    assert PromptsTo(v, b.job, b.segment + 1);
    hide Told, HistoryAt, PromptsTo, VoiceValid;
    ReadsMore(v, b, sent, next, r, ids);
  }

  lemma SpokenTo(v: Voice, job: Job, got: seq<Piece>, ids: seq<nat>, next: nat)
    requires |ids| <= |job.segments| && PromptsTo(v, job, |ids|) && got == ScriptOf(v, job, ids) &&
      Successive(ids, next)
    requires |ids| < |job.segments| ==> !v.prompts(SegmentOf(job, |ids|))
    ensures AllSpokenBy(v, job, got, ids, next)
  {
    SayableIs(v, job, |ids|);
    hide Sayable;
  }

  /** A reading at the start of a segment: its listener has exactly the segments
      before. */
  lemma ToldNothingYet(v: Voice, b: Active, sent: seq<Piece>, ids: seq<nat>, next: nat)
    requires |ids| == b.segment < |b.job.segments| && b.framesSeen == 0 &&
      Told(b, sent, HistoryAt(v, b.job, ids, next, 0))
    ensures sent == ScriptOf(v, b.job, ids)
  {
    var h := HistoryAt(v, b.job, ids, next, 0);
    ToldGiven(b, sent, h);
    assert Given(h, 0) == Script(h.spoken);
  }

  lemma ToldIsEntitled(v: Voice, a: Active, sent: seq<Piece>, ids: seq<nat>, id: nat, n: nat, next: nat)
    requires |ids| == a.segment < |a.job.segments| && n <= |v.draw(id, TextOf(a))|
    requires PromptsTo(v, a.job, a.segment + 1) && Successive(ids + [id], next)
    requires Told(a, sent, HistoryAt(v, a.job, ids, id, n))
    ensures Entitled(v, a.job, sent, next)
  {
    hide Told, Given, HistoryAt, ScriptOf, PromptsTo, Successive;
    ToldGiven(a, sent, HistoryAt(v, a.job, ids, id, n));
    GivenIsPrefix(v, a.job, ids, id, n, n - |a.pending|);
    assert EntitledBy(v, a.job, sent, ids + [id], next);
  }

  /** Whatever is sent with it, the listener has nothing but its own script. */
  lemma FrameEntitled(v: Voice, a: Active, sent: seq<Piece>, id: nat, audio: Vec, later: seq<Vec>, next: nat)
    requires Reads(v, a, sent, id, [audio] + later) && id < next
    ensures Entitled(v, a.job, OnFrame(a, sent, HeardOf(v.ears, audio, later == [])).1, next)
  {
    var ids :| ReadsAfter(v, a, sent, id, [audio] + later, ids);
    FrameTells(v, a, sent, id, audio, later, next, ids);
    ReadsFacts(v, a, sent, id, audio, later, ids);
    SuccessiveMore(ids, id, next);
    var n, f := a.framesSeen, HeardOf(v.ears, audio, later == []);
    var (outcome, sent') := OnFrame(a, sent, f);
    hide *;
    match outcome
    case Again(b) =>
      ToldNothingYet(v, b, sent', ids, next);
      EntitledTo(v, a.job, sent', ids, next);
    case Left => LeftEntitled(v, a.job, sent', ids, id, n + 1, next);
    case Kept(b) => ToldIsEntitled(v, b, sent', ids, id, n + 1, next);
    case Next(b) =>
      ToldNothingYet(v, b, sent', ids + [id], next);
      EntitledTo(v, a.job, sent', ids + [id], next);
    case Over =>
      ScriptOfIs(v, a.job, ids + [id]);
      EntitledTo(v, a.job, sent', ids + [id], next);
  }

  lemma LeftEntitled(v: Voice, job: Job, got: seq<Piece>, ids: seq<nat>, id: nat, n: nat, next: nat)
    requires |ids| < |job.segments| && n <= |v.draw(id, SegmentOf(job, |ids|))|
    requires PromptsTo(v, job, |ids| + 1) && Successive(ids + [id], next)
    requires IsPrefix(got, Given(HistoryAt(v, job, ids, id, n), n))
    ensures Entitled(v, job, got, next)
  {
    hide Given, HistoryAt, ScriptOf, IsPrefix, PromptsTo, Successive;
    GivenIsPrefix(v, job, ids, id, n, n);
    PrefixOfPrefix(got, Given(HistoryAt(v, job, ids, id, n), n), ScriptOf(v, job, ids + [id]));
    assert EntitledBy(v, job, got, ids + [id], next);
  }

  lemma EntitledTo(v: Voice, job: Job, got: seq<Piece>, ids: seq<nat>, next: nat)
    requires |ids| <= |job.segments| && PromptsTo(v, job, |ids|) && Successive(ids, next) &&
      got == ScriptOf(v, job, ids)
    ensures Entitled(v, job, got, next)
  {
    assert EntitledBy(v, job, got, ids, next);
  }

  lemma ScriptOfIs(v: Voice, job: Job, ids: seq<nat>)
    requires |ids| <= |job.segments|
    ensures ScriptOf(v, job, ids) == Script(Spoken(v, job, ids))
  {
  }

  // ----- what happens at the desk

  /** A stream for the segment `a` is at, if its text can be prompted. */
  function Streamed(v: Voice, d: Desk, a: Active): Desk
    requires a.segment < |a.job.segments|
  {
    if !v.prompts(TextOf(a)) then d else
    d.(active := d.active[d.nextId := a],
       owed := d.owed[d.nextId := v.draw(d.nextId, TextOf(a))],
       nextId := d.nextId + 1)
  }

  function Dropped(d: Desk, id: nat): Desk { d.(owed := d.owed - {id}) }

  /** Stream `id` gives its next frame. */
  function Paid(d: Desk, id: nat): Desk
    requires id in d.owed && d.owed[id] != []
  {
    d.(owed := if |d.owed[id]| == 1 then d.owed - {id} else d.owed[id := d.owed[id][1..]])
  }

  function TakenOut(d: Desk, id: nat, sent: seq<Piece>): Desk
    requires id in d.active
  {
    d.(active := d.active - {id}, received := d.received[d.active[id].job := sent])
  }

  predicate Onward(outcome: Outcome) { outcome.Kept? || outcome.Again? || outcome.Next? }

  function Settled(v: Voice, d: Desk, id: nat, outcome: Outcome): Desk
    requires Onward(outcome) ==> outcome.a.segment < |outcome.a.job.segments|
  {
    match outcome
    case Kept(b) => d.(active := d.active[id := b])
    case Again(b) => Streamed(v, Dropped(d, id), b)
    case Next(b) => Streamed(v, d, b)
    case Over => d
    case Left => Dropped(d, id)
  }

  function OutcomeOf(v: Voice, d: Desk, id: nat): (r: (Outcome, seq<Piece>))
    requires id in d.owed && d.owed[id] != [] && id in d.active && d.active[id].job in d.received
    requires d.active[id].segment < |d.active[id].job.segments|
    ensures Onward(r.0) ==> r.0.a.job == d.active[id].job && r.0.a.segment < |r.0.a.job.segments|
  {
    OutcomeCounts(d.active[id], d.received[d.active[id].job], HeardOf(v.ears, d.owed[id][0], d.owed[id][1..] == []));
    OnFrame(d.active[id], d.received[d.active[id].job], HeardOf(v.ears, d.owed[id][0], d.owed[id][1..] == []))
  }

  /** What one frame does. A frame that cannot be read ends its reading and
      leaves the stream in the batch. */
  function Handled(v: Voice, d: Desk, id: nat, bad: bool): Desk
    requires DeskShape(d) && id in d.owed
  {
    var paid := Paid(d, id);
    if id !in d.active then paid else
    if bad then TakenOut(paid, id, d.received[d.active[id].job]) else
    var (outcome, sent) := OutcomeOf(v, d, id);
    Settled(v, TakenOut(paid, id, sent), id, outcome)
  }

  /** A listener nobody has told anything yet. */
  function Known(d: Desk, job: Job): Desk {
    d.(received := d.received[job := []], nextJob := job.id + 1)
  }

  /** A job leaves its queue. */
  function Started(v: Voice, d: Desk, segments: seq<string>, voice: nat, class_: Class,
      leavesAfter: Option<nat>): Desk {
    var job := Job(d.nextJob, segments, voice, class_, leavesAfter);
    if segments == [] then Known(d, job) else Streamed(v, Known(d, job), Fresh(job))
  }

  // ----- what is kept

  ghost predicate DeskShape(d: Desk) {
    && (forall id <- d.owed :: id < d.nextId && d.owed[id] != [])
    && (forall id <- d.active :: id in d.owed && d.active[id].job in d.received)
    && (forall id <- d.active :: d.active[id].segment < |d.active[id].job.segments|)
    && (forall job <- d.received :: job.id < d.nextJob)
    && (forall i <- d.active, j <- d.active :: i != j ==> d.active[i].job != d.active[j].job)
  }

  ghost predicate ReadsOn(v: Voice, d: Desk, id: nat)
    requires DeskShape(d) && id in d.active
  {
    Reads(v, d.active[id], d.received[d.active[id].job], id, d.owed[id])
  }

  /** Every reading is faithful and every listener has a beginning of a script of
      its own. */
  ghost predicate DeskOk(v: Voice, d: Desk) {
    && VoiceValid(v) && DeskShape(d)
    && (forall id <- d.active :: ReadsOn(v, d, id))
    && (forall job <- d.received :: Entitled(v, job, d.received[job], d.nextId))
  }

  lemma StreamedKeeps(v: Voice, d: Desk, a: Active)
    requires DeskOk(v, d) && a.job in d.received && a.segment < |a.job.segments|
    requires forall id <- d.active :: d.active[id].job != a.job
    requires v.prompts(TextOf(a)) ==> Reads(v, a, d.received[a.job], d.nextId, v.draw(d.nextId, TextOf(a)))
    ensures DeskOk(v, Streamed(v, d, a))
  {
    hide Reads, Entitled;
    var d' := Streamed(v, d, a);
    assert DeskShape(d');
    forall id <- d'.active ensures ReadsOn(v, d', id) {
      assert id in d.active ==> ReadsOn(v, d, id);
    }
    forall job <- d'.received ensures Entitled(v, job, d'.received[job], d'.nextId) {
      EntitledLater(v, job, d.received[job], d.nextId, d'.nextId);
    }
  }

  lemma DroppedKeeps(v: Voice, d: Desk, id: nat)
    requires DeskOk(v, d) && id !in d.active
    ensures DeskOk(v, Dropped(d, id))
  {
    hide Reads, Entitled;
    forall i <- d.active ensures ReadsOn(v, Dropped(d, id), i) {
      assert ReadsOn(v, d, i);
    }
  }

  /** A frame handed over and its reading out of the map, its listener told. */
  lemma TakenOutKeeps(v: Voice, d: Desk, id: nat, sent: seq<Piece>)
    requires DeskOk(v, d) && id in d.active && Entitled(v, d.active[id].job, sent, d.nextId)
    ensures DeskOk(v, TakenOut(Paid(d, id), id, sent))
  {
    hide Reads, Entitled;
    var d' := TakenOut(Paid(d, id), id, sent);
    assert DeskShape(d');
    forall i <- d'.active ensures ReadsOn(v, d', i) {
      assert ReadsOn(v, d, i);
    }
  }

  lemma SkipKeeps(v: Voice, d: Desk, id: nat)
    requires DeskOk(v, d) && id in d.owed && id !in d.active
    ensures DeskOk(v, Paid(d, id))
  {
    hide Reads, Entitled;
    assert DeskShape(Paid(d, id));
    forall i <- d.active ensures ReadsOn(v, Paid(d, id), i) {
      assert ReadsOn(v, d, i);
    }
  }

  lemma KeptKeeps(v: Voice, d: Desk, id: nat, b: Active)
    requires DeskOk(v, d) && id in d.owed && b.job in d.received && b.segment < |b.job.segments|
    requires forall i <- d.active :: d.active[i].job != b.job
    requires Reads(v, b, d.received[b.job], id, d.owed[id])
    ensures DeskOk(v, d.(active := d.active[id := b]))
  {
    hide Reads, Entitled;
    var d' := d.(active := d.active[id := b]);
    forall i <- d'.active ensures ReadsOn(v, d', i) {
      assert i in d.active ==> ReadsOn(v, d, i);
    }
  }

  /** Handling a frame keeps every reading faithful, also when the frame cannot
      be read, starts a segment again, or finds its listener gone. */
  lemma HandledKeeps(v: Voice, d: Desk, id: nat, bad: bool)
    requires DeskOk(v, d) && id in d.owed
    ensures DeskOk(v, Handled(v, d, id, bad))
  {
    hide Reads, Entitled, OnFrame, Streamed;
    if id !in d.active {
      SkipKeeps(v, d, id);
      return;
    }
    assert ReadsOn(v, d, id);
    var a := d.active[id];
    var sent, audio, later := d.received[a.job], d.owed[id][0], d.owed[id][1..];
    if bad {
      TakenOutKeeps(v, d, id, sent);
      return;
    }
    assert d.owed[id] == [audio] + later;
    var (outcome, sent') := OutcomeOf(v, d, id);
    ReadsFrame(v, a, sent, id, audio, later, d.nextId);
    FrameEntitled(v, a, sent, id, audio, later, d.nextId);
    TakenOutKeeps(v, d, id, sent');
    var told := TakenOut(Paid(d, id), id, sent');
    match outcome
    case Kept(b) => KeptKeeps(v, told, id, b);
    case Again(b) =>
      DroppedKeeps(v, told, id);
      StreamedKeeps(v, Dropped(told, id), b);
    case Next(b) => StreamedKeeps(v, told, b);
    case Over =>
    case Left => DroppedKeeps(v, told, id);
  }

  // ----- the batch and the map of readings

  /** Every stream of the batch has its reading; the other way round always
      holds. */
  predicate Lockstep(d: Desk) { forall id <- d.owed :: id in d.active }

  /** The two agree until a frame cannot be read. */
  lemma HandledLockstep(v: Voice, d: Desk, id: nat)
    requires DeskOk(v, d) && id in d.owed && Lockstep(d)
    ensures Lockstep(Handled(v, d, id, false))
  {
    hide Reads, Entitled, OnFrame, Told;
    assert ReadsOn(v, d, id);
    var a := d.active[id];
    var audio, later := d.owed[id][0], d.owed[id][1..];
    assert d.owed[id] == [audio] + later;
    FrameEnds(v, a, d.received[a.job], id, audio, later);
  }

  /** A stream's last frame ends its segment: it is never waited for again. */
  lemma FrameEnds(v: Voice, a: Active, sent: seq<Piece>, id: nat, audio: Vec, later: seq<Vec>)
    requires Reads(v, a, sent, id, [audio] + later)
    ensures var outcome := OnFrame(a, sent, HeardOf(v.ears, audio, later == [])).0;
      (outcome.Kept? ==> later != []) && (outcome.Next? || outcome.Over? ==> later == [])
  {
    hide Reads, Told;
  }

  // ----- a whole step

  /** The other streams wait for their turn. */
  lemma HandledElsewhere(v: Voice, d: Desk, id: nat, bad: bool, j: nat)
    requires DeskShape(d) && id in d.owed && j in d.owed && j != id
    ensures var d' := Handled(v, d, id, bad);
      && j in d'.owed && d'.owed[j] == d.owed[j] && (j in d.active <==> j in d'.active)
      && (j in d.active ==> d'.active[j] == d.active[j])
  {
    if id in d.active && !bad {
      var (outcome, sent) := OutcomeOf(v, d, id);
      SettledElsewhere(v, TakenOut(Paid(d, id), id, sent), id, outcome, j);
    }
    hide OutcomeOf, Settled;
  }

  lemma SettledElsewhere(v: Voice, d: Desk, id: nat, outcome: Outcome, j: nat)
    requires Onward(outcome) ==> outcome.a.segment < |outcome.a.job.segments|
    requires j in d.owed && j != id && j < d.nextId
    ensures var d' := Settled(v, d, id, outcome);
      && j in d'.owed && d'.owed[j] == d.owed[j] && (j in d.active <==> j in d'.active)
      && (j in d.active ==> d'.active[j] == d.active[j])
  {
  }

  ghost predicate Listed(d: Desk, ids: seq<nat>) {
    && (forall i :: 0 <= i < |ids| ==> ids[i] in d.owed)
    && (forall i, j :: 0 <= i < j < |ids| ==> ids[i] != ids[j])
  }

  /** The frames of a step, in order. */
  ghost function HandledAll(v: Voice, d: Desk, ids: seq<nat>, bad: set<nat>): (d': Desk)
    requires DeskOk(v, d) && Listed(d, ids)
    ensures DeskOk(v, d')
    ensures forall j <- d.owed :: j !in ids ==> j in d'.owed && d'.owed[j] == d.owed[j]
    decreases |ids|
  {
    if ids == [] then d else
    var d1 := HandledAll(v, d, ButLast(ids), bad);
    HandledKeeps(v, d1, Last(ids), Last(ids) in bad);
    HandledOthers(v, d1, Last(ids), Last(ids) in bad);
    Handled(v, d1, Last(ids), Last(ids) in bad)
  }

  lemma HandledOthers(v: Voice, d: Desk, id: nat, bad: bool)
    requires DeskShape(d) && id in d.owed
    ensures forall j <- d.owed :: j != id ==>
      j in Handled(v, d, id, bad).owed && Handled(v, d, id, bad).owed[j] == d.owed[j]
  {
    hide Handled;
    forall j <- d.owed | j != id
      ensures j in Handled(v, d, id, bad).owed && Handled(v, d, id, bad).owed[j] == d.owed[j]
    {
      HandledElsewhere(v, d, id, bad, j);
    }
  }

  lemma StepLast(v: Voice, d: Desk, order: seq<nat>, bad: set<nat>)
    requires DeskOk(v, d) && Listed(d, order) && order != []
    ensures Listed(d, ButLast(order)) && DeskShape(d)
    ensures var d1, id := HandledAll(v, d, ButLast(order), bad), Last(order);
      DeskOk(v, d1) && DeskShape(d1) && id in d1.owed && HandledAll(v, d, order, bad) == Handled(v, d1, id, id in bad)
      && forall j :: j in order <==> j in ButLast(order) || j == id
  {
    ListedLast(d, order);
    DeskShapes(v, d);
    hide Handled, DeskOk, DeskShape, Listed;
    DeskShapes(v, HandledAll(v, d, ButLast(order), bad));
  }

  lemma ListedLast(d: Desk, order: seq<nat>)
    requires Listed(d, order) && order != []
    ensures Listed(d, ButLast(order)) && Last(order) in d.owed && Last(order) !in ButLast(order)
    ensures forall j :: j in order <==> j in ButLast(order) || j == Last(order)
  {
    assert order == ButLast(order) + [Last(order)];
  }

  lemma DeskShapes(v: Voice, d: Desk)
    requires DeskOk(v, d)
    ensures DeskShape(d)
  {
  }

  // ----- whole runs

  /** `order` is how the batch lists its streams; the frames of `bad` cannot be
      read. A step that fails forgets every reading. */
  datatype Event =
    | Start(segments: seq<string>, voice: nat, class_: Class, leavesAfter: Option<nat>)
    | Tick(order: seq<nat>, bad: set<nat>)
    | StepFailure

  ghost predicate EventFits(d: Desk, e: Event) {
    e.Tick? ==> Listed(d, e.order) && forall id <- d.owed :: id in e.order
  }

  ghost function Happened(v: Voice, d: Desk, e: Event): (d': Desk)
    requires DeskOk(v, d) && EventFits(d, e)
    ensures DeskOk(v, d')
  {
    match e
    case Start(segments, voice, class_, leavesAfter) =>
      StartedKeeps(v, d, segments, voice, class_, leavesAfter);
      Started(v, d, segments, voice, class_, leavesAfter)
    case Tick(order, bad) => HandledAll(v, d, order, bad)
    case StepFailure => d.(active := map[])
  }

  lemma StartedKeeps(v: Voice, d: Desk, segments: seq<string>, voice: nat, class_: Class, leavesAfter: Option<nat>)
    requires DeskOk(v, d)
    ensures DeskOk(v, Started(v, d, segments, voice, class_, leavesAfter))
  {
    var job := Job(d.nextJob, segments, voice, class_, leavesAfter);
    hide Reads, Entitled, Streamed;
    KnownKeeps(v, d, job);
    if segments != [] {
      if v.prompts(SegmentOf(job, 0)) {
        ReadsFresh(v, job, d.nextId);
      }
      StreamedKeeps(v, Known(d, job), Fresh(job));
    }
  }

  lemma KnownKeeps(v: Voice, d: Desk, job: Job)
    requires DeskOk(v, d) && job.id == d.nextJob
    ensures DeskOk(v, Known(d, job)) && job in Known(d, job).received && Known(d, job).received[job] == []
    ensures forall id <- Known(d, job).active :: Known(d, job).active[id].job != job
  {
    NothingEntitled(v, job, d.nextId);
    hide Reads, Entitled;
    assert DeskShape(Known(d, job));
    forall id <- d.active ensures ReadsOn(v, Known(d, job), id) {
      assert ReadsOn(v, d, id);
    }
  }

  ghost predicate RunFits(v: Voice, d: Desk, es: seq<Event>)
    requires DeskOk(v, d)
    decreases |es|
  {
    es == [] || (EventFits(d, es[0]) && RunFits(v, Happened(v, d, es[0]), es[1..]))
  }

  /** What a run leads to. Its contract is the safety of every run: each reading
      is faithful to its text, and each listener has a beginning of a script
      of its own, whoever else came, left or failed. */
  ghost function Run(v: Voice, d: Desk, es: seq<Event>): (d': Desk)
    requires DeskOk(v, d) && RunFits(v, d, es)
    ensures DeskOk(v, d')
    decreases |es|
  {
    if es == [] then d else Run(v, Happened(v, d, es[0]), es[1..])
  }

  /** Nothing in the run broke down. */
  predicate Smooth(es: seq<Event>) {
    forall i :: 0 <= i < |es| ==> es[i] != StepFailure && (es[i].Tick? ==> es[i].bad == {})
  }

  function Ticks(es: seq<Event>): nat {
    if es == [] then 0 else (if es[0].Tick? then 1 else 0) + Ticks(es[1..])
  }

  lemma {:induction false} TickLockstep(v: Voice, d: Desk, order: seq<nat>)
    requires DeskOk(v, d) && Listed(d, order) && Lockstep(d)
    ensures Lockstep(HandledAll(v, d, order, {}))
    decreases |order|
  {
    if order != [] {
      StepLast(v, d, order, {});
      hide Handled, HandledAll, Listed, DeskShape, DeskOk, Lockstep;
      TickLockstep(v, d, ButLast(order));
      HandledLockstep(v, HandledAll(v, d, ButLast(order), {}), Last(order));
    }
  }

  lemma HappenedLockstep(v: Voice, d: Desk, e: Event)
    requires DeskOk(v, d) && EventFits(d, e) && e != StepFailure && (e.Tick? ==> e.bad == {}) && Lockstep(d)
    ensures Lockstep(Happened(v, d, e))
  {
    hide HandledAll, DeskOk, Listed;
    match e
    case Start(_, _, _, _) =>
    case Tick(order, bad) => TickLockstep(v, d, order);
  }

  lemma SmoothTail(es: seq<Event>)
    requires Smooth(es) && es != []
    ensures es[0] != StepFailure && (es[0].Tick? ==> es[0].bad == {}) && Smooth(es[1..])
  {
  }

  /** As long as nothing breaks down, the batch holds exactly the streams being
      read. */
  lemma {:induction false} SmoothRunLockstep(v: Voice, d: Desk, es: seq<Event>)
    requires DeskOk(v, d) && RunFits(v, d, es) && Smooth(es) && Lockstep(d)
    ensures Lockstep(Run(v, d, es))
    decreases |es|
  {
    if es != [] {
      SmoothTail(es);
      hide Lockstep, Happened, EventFits, DeskOk, Smooth;
      HappenedLockstep(v, d, es[0]);
      SmoothRunLockstep(v, Happened(v, d, es[0]), es[1..]);
    }
  }
}
