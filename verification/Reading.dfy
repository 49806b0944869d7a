/** One reading in the scheduler: what becomes of each frame its stream yields,
    until every segment is spoken or the listener has left. The frames are any
    frames, so what is proved here holds at every temperature. */
module Reading {
  import opened Prelude
  import opened Softmax

  /** The 16-bit samples of one frame. */
  type Sound = seq<int>

  /** Loudness and 16-bit samples of a frame of audio. */
  datatype Ears = Ears(level: Vec -> real, sound: Vec -> Sound)

  datatype Class = LiveClass | BackgroundClass

  /** What a reading emits. */
  datatype Piece = Audio(sound: Sound) | SegmentEnd

  /** `leavesAfter` is how many pieces are taken before the listener is gone;
      from then on every send fails. */
  datatype Job = Job(id: nat, segments: seq<string>, voice: nat, class_: Class, leavesAfter: Option<nat>)

  const FALSE_START_FRAMES := 15
  const FALSE_START_DB := -30.0
  const MAX_ATTEMPTS := 4

  /** `peak` is None for minus infinity. */
  datatype Active = Active(
    job: Job,
    segment: nat,
    attempt: nat,
    framesSeen: nat,
    samplesSent: nat,
    falseStarts: nat,
    peak: Option<real>,
    pending: seq<Sound>)

  /** A frame as the scheduler takes it: its samples, its level, its end flag. */
  datatype Heard = Heard(sound: Sound, db: real, done: bool)

  function HeardOf(ears: Ears, audio: Vec, done: bool): Heard {
    Heard(ears.sound(audio), ears.level(audio), done)
  }

  datatype Outcome =
    | Kept(a: Active)
    | Again(a: Active)
    | Next(a: Active)
    | Over
    | Left

  function Fresh(job: Job): Active {
    Active(job, 0, 1, 0, 0, 0, None, [])
  }

  function Reset(a: Active): Active {
    a.(framesSeen := 0, peak := None, pending := [])
  }

  function Louder(peak: Option<real>, db: real): Option<real> {
    if peak.Some? && peak.value >= db then peak else Some(db)
  }

  predicate Quiet(peak: Option<real>) { peak.None? || peak.value < FALSE_START_DB }

  // ----- sending

  /** How many of `n` pieces the listener still takes. */
  function Room(sent: seq<Piece>, leavesAfter: Option<nat>, n: nat): nat {
    match leavesAfter
    case None => n
    case Some(l) => Min(n, Monus(l, |sent|))
  }

  function Pieces(sounds: seq<Sound>): (ps: seq<Piece>)
    ensures |ps| == |sounds| && forall i :: 0 <= i < |ps| ==> ps[i] == Audio(sounds[i])
  {
    seq(|sounds|, i requires 0 <= i < |sounds| => Audio(sounds[i]))
  }

  function Samples(sounds: seq<Sound>): nat {
    if sounds == [] then 0 else Samples(ButLast(sounds)) + |Last(sounds)|
  }

  /** Drains the held-back frames until a send fails. */
  method Flush(pending: seq<Sound>, sent: seq<Piece>, leavesAfter: Option<nat>)
    returns (sent': seq<Piece>, samples: nat, delivered: bool)
    ensures var k := Room(sent, leavesAfter, |pending|);
      sent' == sent + Pieces(pending[..k]) && (delivered <==> k == |pending|)
    ensures delivered ==> samples == Samples(pending)
  {
    sent', samples, delivered := sent, 0, true;
    for i := 0 to |pending|
      invariant i <= Room(sent, leavesAfter, |pending|)
      invariant sent' == sent + Pieces(pending[..i]) && samples == Samples(pending[..i])
    {
      if Room(sent', leavesAfter, 1) == 0 {
        delivered := false;
        return;
      }
      assert ButLast(pending[..i + 1]) == pending[..i];
      sent', samples := sent' + [Audio(pending[i])], samples + |pending[i]|;
    }
    assert pending[..|pending|] == pending;
  }

  /** What one frame does to a reading, and what its listener has then. */
  function OnFrame(a: Active, sent: seq<Piece>, f: Heard): (Outcome, seq<Piece>) {
    var seen := a.framesSeen + 1;
    var peak := Louder(a.peak, f.db);
    if Quiet(peak) && (seen >= FALSE_START_FRAMES || f.done) && a.attempt < MAX_ATTEMPTS then
      (Again(Reset(a.(attempt := a.attempt + 1, falseStarts := a.falseStarts + 1))), sent)
    else
    var pending := a.pending + [f.sound];
    if Quiet(peak) && seen < FALSE_START_FRAMES && !f.done then
      (Kept(a.(framesSeen := seen, peak := peak, pending := pending)), sent)
    else
    var taken := Room(sent, a.job.leavesAfter, |pending|);
    var sent1 := sent + Pieces(pending[..taken]);
    if taken < |pending| then (Left, sent1) else
    var b := a.(framesSeen := seen, peak := peak, pending := [], samplesSent := a.samplesSent + Samples(pending));
    if !f.done then (Kept(b), sent1) else
    if Room(sent1, a.job.leavesAfter, 1) == 0 then (Left, sent1) else
    if a.segment + 1 < |a.job.segments| then
      (Next(Reset(b.(segment := a.segment + 1, attempt := 1))), sent1 + [SegmentEnd])
    else
      (Over, sent1 + [SegmentEnd])
  }

  /** The same, one assignment at a time. */
  method Hear(active: Active, sent: seq<Piece>, f: Heard) returns (outcome: Outcome, sent': seq<Piece>)
    ensures (outcome, sent') == OnFrame(active, sent, f)
  {
    var a := active;
    sent' := sent;
    a := a.(framesSeen := a.framesSeen + 1);
    a := a.(peak := Louder(a.peak, f.db));
    var silentStart := a.framesSeen >= FALSE_START_FRAMES && Quiet(a.peak);
    var silentEnd := f.done && Quiet(a.peak);
    if (silentStart || silentEnd) && a.attempt < MAX_ATTEMPTS {
      a := a.(falseStarts := a.falseStarts + 1);
      a := a.(attempt := a.attempt + 1);
      return Again(Reset(a)), sent';
    }
    a := a.(pending := a.pending + [f.sound]);
    var speaking := !Quiet(a.peak);
    if speaking || a.framesSeen >= FALSE_START_FRAMES || f.done {
      var samples, delivered;
      sent', samples, delivered := Flush(a.pending, sent, a.job.leavesAfter);
      if !delivered {
        return Left, sent';
      }
      assert a.pending[..|a.pending|] == a.pending;
      a := a.(pending := [], samplesSent := a.samplesSent + samples);
    }
    if !f.done {
      return Kept(a), sent';
    }
    if Room(sent', a.job.leavesAfter, 1) == 0 {
      return Left, sent';
    }
    sent' := sent' + [SegmentEnd];
    a := a.(segment := a.segment + 1);
    if a.segment < |a.job.segments| {
      return Next(Reset(a.(attempt := 1))), sent';
    }
    return Over, sent';
  }

  // ----- exactly once

  /** What the listener of finished segments has: the frames of each, its end. */
  function Script(spoken: seq<seq<Sound>>): seq<Piece> {
    if spoken == [] then [] else Script(ButLast(spoken)) + Pieces(Last(spoken)) + [SegmentEnd]
  }

  /** The frames of one attempt at each finished segment, and those of the
      attempt under way. */
  datatype History = History(spoken: seq<seq<Sound>>, heard: seq<Sound>)

  /** Every finished segment once and in order, then the first `n` frames of the
      attempt under way. */
  function Given(h: History, n: nat): seq<Piece>
    requires n <= |h.heard|
  {
    Script(h.spoken) + Pieces(h.heard[..n])
  }

  function HeldBack(h: History, n: nat): seq<Sound>
    requires n <= |h.heard|
  {
    h.heard[n..]
  }

  /** The listener has every finished segment once and in order, then the frames
      of the attempt under way but for those held back. Frames are held back
      only while the attempt may still be a false start. */
  ghost predicate Told(a: Active, sent: seq<Piece>, h: History) {
    && |h.spoken| == a.segment < |a.job.segments|
    && |a.pending| <= |h.heard| == a.framesSeen
    && 1 <= a.attempt <= MAX_ATTEMPTS
    && (var flushed := |h.heard| - |a.pending|;
        && a.pending == HeldBack(h, flushed)
        && sent == Given(h, flushed)
        && (a.pending != [] ==> flushed == 0 && Quiet(a.peak) && a.framesSeen < FALSE_START_FRAMES)
        && (flushed > 0 ==> !Quiet(a.peak) || a.framesSeen >= FALSE_START_FRAMES)
        && (Quiet(a.peak) && a.attempt < MAX_ATTEMPTS ==> a.framesSeen < FALSE_START_FRAMES))
  }

  lemma ToldGiven(a: Active, sent: seq<Piece>, h: History)
    requires Told(a, sent, h)
    ensures |a.pending| <= |h.heard| && sent == Given(h, |h.heard| - |a.pending|)
  {
  }

  /** The attempt under way with one more frame. */
  function Hearing(h: History, s: Sound): History { History(h.spoken, h.heard + [s]) }

  function Finished(h: History): History { History(h.spoken + [h.heard], []) }

  lemma ScriptSnoc(spoken: seq<seq<Sound>>, heard: seq<Sound>)
    ensures Script(spoken + [heard]) == Script(spoken) + Pieces(heard) + [SegmentEnd]
  {
    assert ButLast(spoken + [heard]) == spoken;
  }

  lemma ToldFresh(job: Job)
    requires job.segments != []
    ensures Told(Fresh(job), [], History([], []))
  {
  }

  /** What every frame keeps. A restart forgets the attempt, of which nothing was
      sent; a finished segment adds exactly that attempt and one end mark; a
      listener that leaves has a prefix of what was to come. */
  lemma Delivery(a: Active, sent: seq<Piece>, h: History, f: Heard)
    requires Told(a, sent, h)
    ensures var (outcome, sent') := OnFrame(a, sent, f);
      var h' := Hearing(h, f.sound);
      match outcome
      case Kept(b) => !f.done && Told(b, sent', h')
      case Again(b) => sent' == sent == Script(h.spoken) && Told(b, sent', History(h.spoken, [])) &&
        b.segment == a.segment
      case Next(b) => f.done && Told(b, sent', Finished(h'))
      case Over => f.done && sent' == Script(Finished(h').spoken) && a.segment + 1 == |a.job.segments|
      case Left =>
        IsPrefix(sent', Given(h', |h'.heard|)) && a.job.leavesAfter.Some? && |sent'| >= a.job.leavesAfter.value
  {
    hide Script, Told, OnFrame;
    match OnFrame(a, sent, f).0
    case Kept(_) => DeliveryKept(a, sent, h, f);
    case Again(_) => DeliveryAgain(a, sent, h, f);
    case _ => DeliveryEnd(a, sent, h, f);
  }

  lemma DeliveryAgain(a: Active, sent: seq<Piece>, h: History, f: Heard)
    requires Told(a, sent, h) && OnFrame(a, sent, f).0.Again?
    ensures var (outcome, sent') := OnFrame(a, sent, f);
      sent' == sent == Script(h.spoken) && Told(outcome.a, sent', History(h.spoken, [])) &&
        outcome.a.segment == a.segment
  {
    hide Script, Samples;
  }

  lemma DeliveryKept(a: Active, sent: seq<Piece>, h: History, f: Heard)
    requires Told(a, sent, h) && OnFrame(a, sent, f).0.Kept?
    ensures var (outcome, sent') := OnFrame(a, sent, f);
      !f.done && Told(outcome.a, sent', Hearing(h, f.sound))
  {
    hide Given, HeldBack, Samples, Script;
    MoreGiven(h, a.pending, f.sound, 0);
    MoreGiven(h, a.pending, f.sound, |a.pending| + 1);
  }

  lemma DeliveryEnd(a: Active, sent: seq<Piece>, h: History, f: Heard)
    requires Told(a, sent, h) && !OnFrame(a, sent, f).0.Again? && !OnFrame(a, sent, f).0.Kept?
    ensures var (outcome, sent') := OnFrame(a, sent, f);
      var h' := Hearing(h, f.sound);
      match outcome
      case Next(b) => f.done && Told(b, sent', Finished(h'))
      case Over => f.done && sent' == Script(Finished(h').spoken) && a.segment + 1 == |a.job.segments|
      case Left =>
        IsPrefix(sent', Given(h', |h'.heard|)) && a.job.leavesAfter.Some? && |sent'| >= a.job.leavesAfter.value
      case _ => true
  {
    hide Given, HeldBack, Samples, Script;
    var taken := Room(sent, a.job.leavesAfter, |a.pending| + 1);
    MoreGiven(h, a.pending, f.sound, taken);
    GivenInFull(Hearing(h, f.sound), |h.heard| - |a.pending| + taken);
    assert |sent| <= |sent + Pieces((a.pending + [f.sound])[..taken])|;
  }

  /** Sending the first `taken` of the frames held back and the new one. */
  lemma MoreGiven(h: History, pending: seq<Sound>, s: Sound, taken: nat)
    requires |pending| <= |h.heard| && pending == HeldBack(h, |h.heard| - |pending|) && taken <= |pending| + 1
    ensures var k, h' := |h.heard| - |pending|, Hearing(h, s);
      && Given(h, k) + Pieces((pending + [s])[..taken]) == Given(h', k + taken)
      && (taken == 0 ==> Given(h, k) == Given(h', k))
      && HeldBack(h', k) == pending + [s]
      && HeldBack(h', |h'.heard|) == []
  {
    var k, h' := |h.heard| - |pending|, Hearing(h, s);
    assert h'.heard[..k + taken] == h.heard[..k] + (pending + [s])[..taken];
  }

  lemma GivenInFull(h: History, n: nat)
    requires n <= |h.heard|
    ensures IsPrefix(Given(h, n), Given(h, |h.heard|))
    ensures IsPrefix(Given(h, n), Script(Finished(h).spoken))
    ensures Given(h, |h.heard|) + [SegmentEnd] == Script(Finished(h).spoken)
    ensures Given(Finished(h), 0) == Script(Finished(h).spoken) && HeldBack(Finished(h), 0) == []
  {
    ScriptSnoc(h.spoken, h.heard);
    assert h.heard[..|h.heard|] == h.heard;
    assert Pieces(h.heard)[..n] == Pieces(h.heard[..n]);
  }

  /** Once a frame of an attempt has been sent, the segment is not read again. */
  lemma NoRestartOnceHeard(a: Active, sent: seq<Piece>, h: History, f: Heard)
    requires Told(a, sent, h) && |a.pending| < |h.heard|
    ensures !OnFrame(a, sent, f).0.Again?
  {
  }

  // ----- how long it takes

  /** Frames a segment can still take when an attempt ends by itself at frame
      `limits[segment]`. */
  function Budget(a: Active, limit: nat): int {
    (MAX_ATTEMPTS - a.attempt) * FALSE_START_FRAMES + limit - a.framesSeen
  }

  /** What the segments from `k` on can take. */
  function Rest(limits: seq<nat>, k: nat): nat
    decreases |limits| - k
  {
    if k >= |limits| then 0 else (MAX_ATTEMPTS - 1) * FALSE_START_FRAMES + limits[k] + Rest(limits, k + 1)
  }

  function Potential(a: Active, limits: seq<nat>): int
    requires a.segment < |limits|
  {
    Budget(a, limits[a.segment]) + Rest(limits, a.segment + 1)
  }

  /** Every frame brings the end nearer, whatever it sounds like and whatever it
      flags: a restart costs one of three spare attempts, taken by frame 15. */
  lemma PotentialFalls(a: Active, sent: seq<Piece>, h: History, f: Heard, limits: seq<nat>)
    requires Told(a, sent, h) && |limits| == |a.job.segments|
    requires a.framesSeen < limits[a.segment] && (a.framesSeen + 1 == limits[a.segment] ==> f.done)
    ensures 1 <= Potential(a, limits)
    ensures var outcome := OnFrame(a, sent, f).0;
      outcome.Kept? || outcome.Again? || outcome.Next? ==>
        outcome.a.job == a.job && outcome.a.segment < |limits| && 
        Potential(outcome.a, limits) <= Potential(a, limits) - 1
    ensures var outcome := OnFrame(a, sent, f).0;
      outcome.Kept? ==> outcome.a.framesSeen < limits[a.segment]
  {
  }

  /** A reading followed through frames: under way, over, or its listener gone. */
  datatype Course =
    | Running(a: Active, sent: seq<Piece>, h: History)
    | Completed(sent: seq<Piece>, h: History)
    | Abandoned(sent: seq<Piece>, h: History)

  ghost function Follow(a: Active, sent: seq<Piece>, h: History, fs: seq<Heard>): Course
    decreases |fs|
  {
    if fs == [] then Running(a, sent, h) else
    var (outcome, sent') := OnFrame(a, sent, fs[0]);
    var h' := Hearing(h, fs[0].sound);
    match outcome
    case Kept(b) => Follow(b, sent', h', fs[1..])
    case Again(b) => Follow(b, sent', History(h.spoken, []), fs[1..])
    case Next(b) => Follow(b, sent', Finished(h'), fs[1..])
    case Over => Completed(sent', Finished(h'))
    case Left => Abandoned(sent', h')
  }

  /** Exactly once, for every sequence of frames: a listener whose reading is over
      has one attempt at each segment, every frame of it in order, and its end
      mark; one that left has a beginning of that. */
  lemma {:induction false} FollowDelivers(a: Active, sent: seq<Piece>, h: History, fs: seq<Heard>)
    requires Told(a, sent, h)
    ensures match Follow(a, sent, h, fs)
      case Running(b, sent', h') => Told(b, sent', h') && b.job == a.job
      case Completed(sent', h') => sent' == Script(h'.spoken) && |h'.spoken| == |a.job.segments|
      case Abandoned(sent', h') =>
        && IsPrefix(sent', Given(h', |h'.heard|)) && |h'.spoken| < |a.job.segments|
        && a.job.leavesAfter.Some? && |sent'| >= a.job.leavesAfter.value
    decreases |fs|
  {
    if fs != [] {
      Delivery(a, sent, h, fs[0]);
      FrameKeepsJob(a, sent, fs[0]);
      assert |h.spoken| == a.segment < |a.job.segments|;
      hide Script, Given, Told, OnFrame;
      var (outcome, sent') := OnFrame(a, sent, fs[0]);
      match outcome
      case Kept(b) => FollowDelivers(b, sent', Hearing(h, fs[0].sound), fs[1..]);
      case Again(b) => FollowDelivers(b, sent', History(h.spoken, []), fs[1..]);
      case Next(b) => FollowDelivers(b, sent', Finished(Hearing(h, fs[0].sound)), fs[1..]);
      case _ =>
    }
  }

  lemma FrameKeepsJob(a: Active, sent: seq<Piece>, f: Heard)
    ensures match OnFrame(a, sent, f).0
      case Kept(b) => b.job == a.job
      case Again(b) => b.job == a.job
      case Next(b) => b.job == a.job
      case _ => true
  {
  }

  function SoundsOf(fs: seq<Heard>): (ss: seq<Sound>)
    ensures |ss| == |fs| && forall i :: 0 <= i < |ss| ==> ss[i] == fs[i].sound
  {
    seq(|fs|, i requires 0 <= i < |fs| => fs[i].sound)
  }

  /** `x` is an unbroken stretch of the frames. */
  ghost predicate Stretch(fs: seq<Heard>, x: seq<Sound>) { exists i :: StretchAt(fs, x, i) }

  ghost predicate StretchAt(fs: seq<Heard>, x: seq<Sound>, i: int) {
    0 <= i && i + |x| <= |fs| && x == SoundsOf(fs[i..i + |x|])
  }

  /** What was heard of the attempt under way are the last frames; every finished
      segment is an unbroken stretch of them. */
  ghost predicate Unbroken(fs: seq<Heard>, h: History) {
    && |h.heard| <= |fs| && StretchAt(fs, h.heard, |fs| - |h.heard|)
    && forall k :: 0 <= k < |h.spoken| ==> Stretch(fs, h.spoken[k])
  }

  lemma StretchGrows(fs: seq<Heard>, f: Heard, x: seq<Sound>)
    requires Stretch(fs, x)
    ensures Stretch(fs + [f], x)
  {
    var i :| StretchAt(fs, x, i);
    assert (fs + [f])[i..i + |x|] == fs[i..i + |x|];
    assert StretchAt(fs + [f], x, i);
  }

  lemma UnbrokenGrows(fs: seq<Heard>, h: History, f: Heard)
    requires Unbroken(fs, h)
    ensures Unbroken(fs + [f], Hearing(h, f.sound))
    ensures Unbroken(fs + [f], History(h.spoken, []))
    ensures Unbroken(fs + [f], Finished(Hearing(h, f.sound)))
  {
    var i, g, x := |fs| - |h.heard|, fs + [f], h.heard + [f.sound];
    assert g[i..i + |x|] == fs[i..i + |h.heard|] + [f];
    assert StretchAt(g, x, i);
    assert StretchAt(g, [], |g|) by { assert g[|g|..|g|] == []; }
    forall k | 0 <= k < |h.spoken| ensures Stretch(g, h.spoken[k]) { StretchGrows(fs, f, h.spoken[k]); }
  }

  /** No segment a listener gets is pieced together from two attempts: each is an
      unbroken stretch of the frames that came. */
  lemma {:induction false} FollowUnbroken(past: seq<Heard>, a: Active, sent: seq<Piece>, h: History, fs: seq<Heard>)
    requires Unbroken(past, h)
    ensures exists n :: 0 <= n <= |fs| && Unbroken(past + fs[..n], Follow(a, sent, h, fs).h)
    decreases |fs|
  {
    if fs == [] {
      assert past + fs[..0] == past;
    } else {
      UnbrokenGrows(past, h, fs[0]);
      hide Unbroken, OnFrame;
      var (outcome, sent') := OnFrame(a, sent, fs[0]);
      var g := past + [fs[0]];
      assert past + fs[..1] == g;
      match outcome
      case Kept(b) =>
        FollowUnbroken(g, b, sent', Hearing(h, fs[0].sound), fs[1..]);
        OneMore(past, fs, Follow(a, sent, h, fs).h);
      case Again(b) =>
        FollowUnbroken(g, b, sent', History(h.spoken, []), fs[1..]);
        OneMore(past, fs, Follow(a, sent, h, fs).h);
      case Next(b) =>
        FollowUnbroken(g, b, sent', Finished(Hearing(h, fs[0].sound)), fs[1..]);
        OneMore(past, fs, Follow(a, sent, h, fs).h);
      case _ =>
    }
  }

  lemma OneMore(past: seq<Heard>, fs: seq<Heard>, h: History)
    requires fs != [] && exists n :: 0 <= n <= |fs[1..]| && Unbroken((past + [fs[0]]) + fs[1..][..n], h)
    ensures exists n :: 0 <= n <= |fs| && Unbroken(past + fs[..n], h)
  {
    hide Unbroken;
    var n :| 0 <= n <= |fs[1..]| && Unbroken((past + [fs[0]]) + fs[1..][..n], h);
    assert (past + [fs[0]]) + fs[1..][..n] == past + fs[..n + 1];
  }

  /** Every attempt at segment `k` flags its frame `limits[k]` as its last. */
  ghost predicate Punctual(a: Active, sent: seq<Piece>, fs: seq<Heard>, limits: seq<nat>)
    decreases |fs|
  {
    fs != [] && a.segment < |limits| ==>
      && a.framesSeen < limits[a.segment]
      && (a.framesSeen + 1 == limits[a.segment] ==> fs[0].done)
      && (var (outcome, sent') := OnFrame(a, sent, fs[0]);
          outcome.Kept? || outcome.Again? || outcome.Next? ==> Punctual(outcome.a, sent', fs[1..], limits))
  }

  /** A reading not over after `n` frames has `n` less than three times fifteen
      plus the limit, summed over its segments. */
  lemma {:induction false} ReadingIsBounded(a: Active, sent: seq<Piece>, h: History, fs: seq<Heard>, limits: seq<nat>)
    requires Told(a, sent, h) && |limits| == |a.job.segments| && Punctual(a, sent, fs, limits)
    requires forall k :: 0 <= k < |limits| ==> limits[k] > 0
    requires a.framesSeen < limits[a.segment] && Follow(a, sent, h, fs).Running?
    ensures |fs| < Potential(a, limits)
    decreases |fs|
  {
    if fs == [] {
      assert Rest(limits, a.segment + 1) >= 0;
    } else {
      hide Script, Rest;
      var (outcome, sent') := OnFrame(a, sent, fs[0]);
      Delivery(a, sent, h, fs[0]);
      PotentialFalls(a, sent, h, fs[0], limits);
      match outcome
      case Kept(b) => ReadingIsBounded(b, sent', Hearing(h, fs[0].sound), fs[1..], limits);
      case Again(b) => ReadingIsBounded(b, sent', History(h.spoken, []), fs[1..], limits);
      case Next(b) => ReadingIsBounded(b, sent', Finished(Hearing(h, fs[0].sound)), fs[1..], limits);
      case _ =>
    }
  }
}
