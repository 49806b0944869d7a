/** Slots: submitters race for them, jobs carry them through the channel and the
    queues to the batch, and whatever ends a job gives its slot back. Every step
    of a submitter or of the engine thread is one event. */
module Admission {
  import opened Prelude
  import opened Reading

  /** A job and the class whose slot it holds. */
  datatype Entry = Entry(id: nat, class_: Class)

  /** The compare-and-swap loop of a submission: the counter is read, then
      replaced if it still is what was read. */
  datatype Submitter =
    | Idle
    | Loaded(job: Entry, seen: nat)
    | Holding(job: Entry)

  /** Where the engine thread is. The admission phases carry the loop's own
      counts of running readings, the starting ones the job in hand. */
  datatype Phase =
    | Receiving
    | Draining
    | AdmittingLive(liveActive: nat, backgroundActive: nat)
    | StartingLive(job: Entry, liveActive: nat, backgroundActive: nat)
    | AdmittingBackground(liveActive: nat, backgroundActive: nat)
    | StartingBackground(job: Entry, liveActive: nat, backgroundActive: nat)
    | Stepping
    | Gone

  /** `sent` and `begun` record every job ever put in the channel and every job
      ever taken from its queue. */
  datatype State = State(
    liveSlots: nat,
    backgroundSlots: nat,
    liveTaken: nat,
    backgroundTaken: nat,
    submitters: seq<Submitter>,
    channel: seq<Entry>,
    live: seq<Entry>,
    background: seq<Entry>,
    active: seq<Entry>,
    phase: Phase,
    sent: seq<Entry>,
    begun: seq<Entry>)

  function Slots(s: State, c: Class): nat { if c.LiveClass? then s.liveSlots else s.backgroundSlots }

  function Taken(s: State, c: Class): nat { if c.LiveClass? then s.liveTaken else s.backgroundTaken }

  function WithTaken(s: State, c: Class, n: nat): State {
    if c.LiveClass? then s.(liveTaken := n) else s.(backgroundTaken := n)
  }

  /** `Slot::drop`. */
  function GiveBack(s: State, c: Class): State { WithTaken(s, c, Monus(Taken(s, c), 1)) }

  function GiveBackAll(s: State, jobs: seq<Entry>): State {
    if jobs == [] then s else GiveBack(GiveBackAll(s, ButLast(jobs)), Last(jobs).class_)
  }

  function Count(jobs: seq<Entry>, c: Class): nat {
    if jobs == [] then 0 else Count(ButLast(jobs), c) + if Last(jobs).class_ == c then 1 else 0
  }

  function Only(jobs: seq<Entry>, c: Class): seq<Entry> {
    if jobs == [] then [] else Only(ButLast(jobs), c) + if Last(jobs).class_ == c then [Last(jobs)] else []
  }

  /** The jobs submitters hold between taking a slot and sending. */
  function Held(submitters: seq<Submitter>): seq<Entry> {
    if submitters == [] then [] else
    Held(ButLast(submitters)) + if Last(submitters).Holding? then [Last(submitters).job] else []
  }

  function InHand(p: Phase): seq<Entry> {
    if p.StartingLive? || p.StartingBackground? then [p.job] else []
  }

  datatype Event =
    | Load(p: nat, job: Entry)
    | Swap(p: nat)
    | Refuse(p: nat)
    | Send(p: nat)
    | Undelivered(p: nat)
    | Receive
    | Timeout
    | Pull
    | Drained
    | PopLive
    | PopBackground
    | Started
    | NotStarted
    | LiveFull
    | BackgroundFull
    | Ends(i: nat)
    | StepFails
    | StepDone
    | Exit

  predicate Has(s: State, p: nat) { p < |s.submitters| }

  predicate Enabled(s: State, e: Event) {
    match e
    case Load(p, job) => Has(s, p) && !s.submitters[p].Holding?
    case Swap(p) => Has(s, p) && s.submitters[p].Loaded? &&
      s.submitters[p].seen < Slots(s, s.submitters[p].job.class_) &&
      s.submitters[p].seen == Taken(s, s.submitters[p].job.class_)
    case Refuse(p) => Has(s, p) && s.submitters[p].Loaded? &&
      s.submitters[p].seen >= Slots(s, s.submitters[p].job.class_)
    case Send(p) => Has(s, p) && s.submitters[p].Holding? && !s.phase.Gone?
    case Undelivered(p) => Has(s, p) && s.submitters[p].Holding? && s.phase.Gone?
    case Receive => s.phase.Receiving? && s.channel != []
    case Timeout => s.phase.Receiving? && s.channel == [] && s.active != []
    case Pull => s.phase.Draining? && s.channel != []
    case Drained => s.phase.Draining? && s.channel == []
    case PopLive => s.phase.AdmittingLive? && s.phase.liveActive < s.liveSlots && s.live != []
    case LiveFull => s.phase.AdmittingLive? && (s.phase.liveActive >= s.liveSlots || s.live == [])
    case PopBackground => s.phase.AdmittingBackground? && s.live == [] &&
      s.phase.backgroundActive < s.backgroundSlots && s.background != []
    case BackgroundFull => s.phase.AdmittingBackground? &&
      (s.live != [] || s.phase.backgroundActive >= s.backgroundSlots || s.background == [])
    case Started => s.phase.StartingLive? || s.phase.StartingBackground?
    case NotStarted => s.phase.StartingLive? || s.phase.StartingBackground?
    case Ends(i) => s.phase.Stepping? && i < |s.active|
    case StepFails => s.phase.Stepping?
    case StepDone => s.phase.Stepping?
    case Exit => !s.phase.Gone?
  }

  /** A job goes from the channel to the queue of its class. */
  function Queued(s: State): State
    requires s.channel != []
  {
    var job := s.channel[0];
    if job.class_.LiveClass?
    then s.(channel := s.channel[1..], live := s.live + [job])
    else s.(channel := s.channel[1..], background := s.background + [job])
  }

  function Admitting(s: State): State {
    s.(phase := AdmittingLive(Count(s.active, LiveClass), Monus(|s.active|, Count(s.active, LiveClass))))
  }

  function Put(s: State, p: nat, x: Submitter): State
    requires Has(s, p)
  {
    s.(submitters := s.submitters[p := x])
  }

  function Apply(s: State, e: Event): State
    requires Enabled(s, e)
  {
    match e
    case Load(p, job) => Put(s, p, Loaded(job, Taken(s, job.class_)))
    case Swap(p) =>
      var x := s.submitters[p];
      WithTaken(Put(s, p, Holding(x.job)), x.job.class_, x.seen + 1)
    case Refuse(p) => Put(s, p, Idle)
    case Send(p) =>
      Put(s, p, Idle).(channel := s.channel + [s.submitters[p].job], sent := s.sent + [s.submitters[p].job])
    case Undelivered(p) => GiveBack(Put(s, p, Idle), s.submitters[p].job.class_)
    case Receive => Queued(s).(phase := Draining)
    case Timeout => Admitting(s)
    case Pull => Queued(s)
    case Drained => Admitting(s)
    case PopLive =>
      s.(live := s.live[1..], begun := s.begun + [s.live[0]],
         phase := StartingLive(s.live[0], s.phase.liveActive, s.phase.backgroundActive))
    case PopBackground =>
      s.(background := s.background[1..], begun := s.begun + [s.background[0]],
         phase := StartingBackground(s.background[0], s.phase.liveActive, s.phase.backgroundActive))
    case Started =>
      s.(active := s.active + [s.phase.job],
         phase := if s.phase.StartingLive? then AdmittingLive(s.phase.liveActive + 1, s.phase.backgroundActive)
                  else AdmittingBackground(s.phase.liveActive, s.phase.backgroundActive + 1))
    case NotStarted =>
      GiveBack(s, s.phase.job.class_).(
         phase := if s.phase.StartingLive? then AdmittingLive(s.phase.liveActive, s.phase.backgroundActive)
                  else AdmittingBackground(s.phase.liveActive, s.phase.backgroundActive))
    case LiveFull => s.(phase := AdmittingBackground(s.phase.liveActive, s.phase.backgroundActive))
    case BackgroundFull => s.(phase := if s.active == [] then Receiving else Stepping)
    case Ends(i) => GiveBack(s, s.active[i].class_).(active := RemoveAt(s.active, i))
    case StepFails => GiveBackAll(s, s.active).(active := [], phase := Receiving)
    case StepDone => s.(phase := Receiving)
    case Exit =>
      GiveBackAll(s, s.channel + s.live + s.background + InHand(s.phase) + s.active).(
         channel := [], live := [], background := [], active := [], phase := Gone)
  }

  // ----- what every event keeps

  /** Everything that holds a slot. */
  function Everywhere(s: State): seq<Entry> {
    Held(s.submitters) + s.channel + s.live + s.background + InHand(s.phase) + s.active
  }

  predicate AllOf(jobs: seq<Entry>, c: Class) { forall i :: 0 <= i < |jobs| ==> jobs[i].class_ == c }

  /** A class's counter is the number of its jobs in the system, never more than
      its slots. */
  predicate Conserved(s: State) {
    forall c: Class {:trigger Taken(s, c)} :: Taken(s, c) == Count(Everywhere(s), c) <= Slots(s, c)
  }

  predicate Sorted(s: State) {
    && AllOf(s.live, LiveClass) && AllOf(s.background, BackgroundClass)
    && (s.phase.StartingLive? ==> s.phase.job.class_ == LiveClass)
    && (s.phase.StartingBackground? ==> s.phase.job.class_ == BackgroundClass)
  }

  /** The loop's own counts are the true ones. */
  predicate Counted(s: State) {
    (s.phase.AdmittingLive? || s.phase.StartingLive? || s.phase.AdmittingBackground? || s.phase.StartingBackground?) ==>
      s.phase.liveActive == Count(s.active, LiveClass) && s.phase.backgroundActive == Count(s.active, BackgroundClass)
  }

  /** Both queues are empty whenever the engine is not admitting. */
  predicate NobodyWaits(s: State) {
    && (s.phase.Receiving? || s.phase.Stepping? || s.phase.Gone? ==> s.live == [] && s.background == [])
    && (s.phase.AdmittingBackground? || s.phase.StartingBackground? ==> s.live == [])
  }

  /** Each class is begun in the order it was sent. */
  predicate InOrder(s: State) {
    s.phase.Gone? ||
    (&& Only(s.sent, LiveClass) == Only(s.begun, LiveClass) + s.live + Only(s.channel, LiveClass)
     && Only(s.sent, BackgroundClass) ==
          Only(s.begun, BackgroundClass) + s.background + Only(s.channel, BackgroundClass))
  }

  /** What a submitter read was never more than the slots. */
  predicate SeenFits(s: State) {
    forall p :: 0 <= p < |s.submitters| && s.submitters[p].Loaded? ==>
      s.submitters[p].seen <= Slots(s, s.submitters[p].job.class_)
  }

  predicate Valid(s: State) {
    Conserved(s) && Sorted(s) && Counted(s) && NobodyWaits(s) && InOrder(s) && SeenFits(s)
  }

  // ----- counting

  lemma {:induction false} CountConcat(a: seq<Entry>, b: seq<Entry>, c: Class)
    ensures Count(a + b, c) == Count(a, c) + Count(b, c)
  {
    if b == [] {
      assert a + b == a;
    } else {
      assert ButLast(a + b) == a + ButLast(b);
      CountConcat(a, ButLast(b), c);
    }
  }

  lemma {:induction false} OnlyConcat(a: seq<Entry>, b: seq<Entry>, c: Class)
    ensures Only(a + b, c) == Only(a, c) + Only(b, c)
  {
    if b == [] {
      assert a + b == a;
    } else {
      assert ButLast(a + b) == a + ButLast(b) && Last(a + b) == Last(b);
      OnlyConcat(a, ButLast(b), c);
      var last := if Last(b).class_ == c then [Last(b)] else [];
      assert Only(a + b, c) == Only(a + ButLast(b), c) + last && Only(b, c) == Only(ButLast(b), c) + last;
      hide Only;
      assert (Only(a, c) + Only(ButLast(b), c)) + last == Only(a, c) + (Only(ButLast(b), c) + last);
    }
  }

  lemma CountOne(job: Entry, c: Class)
    ensures Count([job], c) == if job.class_ == c then 1 else 0
    ensures Only([job], c) == if job.class_ == c then [job] else []
  {
    assert ButLast([job]) == [];
  }

  lemma CountSplit(jobs: seq<Entry>, i: nat, c: Class)
    requires i < |jobs|
    ensures Count(jobs, c) == Count(RemoveAt(jobs, i), c) + if jobs[i].class_ == c then 1 else 0
  {
    assert jobs == jobs[..i] + [jobs[i]] + jobs[i + 1..];
    CountConcat(jobs[..i] + [jobs[i]], jobs[i + 1..], c);
    CountConcat(jobs[..i], [jobs[i]], c);
    CountConcat(jobs[..i], jobs[i + 1..], c);
    CountOne(jobs[i], c);
  }

  lemma {:induction false} CountAll(jobs: seq<Entry>, c: Class, d: Class)
    requires AllOf(jobs, c)
    ensures Count(jobs, d) == if c == d then |jobs| else 0
    ensures Only(jobs, d) == if c == d then jobs else []
  {
    if jobs != [] {
      CountAll(ButLast(jobs), c, d);
      assert jobs == ButLast(jobs) + [Last(jobs)];
    }
  }

  lemma {:induction false} CountBoth(jobs: seq<Entry>)
    ensures Count(jobs, LiveClass) + Count(jobs, BackgroundClass) == |jobs|
  {
    if jobs != [] {
      CountBoth(ButLast(jobs));
    }
  }

  /** Changing one submitter changes what is held by that submitter only. */
  lemma {:induction false} HeldPut(xs: seq<Submitter>, p: nat, x: Submitter, c: Class)
    requires p < |xs|
    ensures Count(Held(xs[p := x]), c) + HeldCount(xs[p], c) == Count(Held(xs), c) + HeldCount(x, c)
    decreases |xs|
  {
    var ys := xs[p := x];
    if p == |xs| - 1 {
      assert ButLast(ys) == ButLast(xs);
    } else {
      assert ButLast(ys) == ButLast(xs)[p := x];
      HeldPut(ButLast(xs), p, x, c);
    }
    HeldLast(xs, c);
    HeldLast(ys, c);
  }

  function HeldCount(x: Submitter, c: Class): nat { if x.Holding? && x.job.class_ == c then 1 else 0 }

  lemma HeldLast(xs: seq<Submitter>, c: Class)
    requires xs != []
    ensures Count(Held(xs), c) == Count(Held(ButLast(xs)), c) + HeldCount(Last(xs), c)
  {
    var rest := Held(ButLast(xs));
    if Last(xs).Holding? {
      CountConcat(rest, [Last(xs).job], c);
      CountOne(Last(xs).job, c);
    } else {
      assert Held(xs) == rest;
    }
  }

  /** The parts a job can be in. */
  lemma CountEverywhere(s: State, c: Class)
    ensures Count(Everywhere(s), c) == Count(Held(s.submitters), c) + Count(s.channel, c) + Count(s.live, c)
      + Count(s.background, c) + Count(InHand(s.phase), c) + Count(s.active, c)
  {
    var a, b, d, e, f, g := Held(s.submitters), s.channel, s.live, s.background, InHand(s.phase), s.active;
    CountConcat(a, b, c);
    CountConcat(a + b, d, c);
    CountConcat(a + b + d, e, c);
    CountConcat(a + b + d + e, f, c);
    CountConcat(a + b + d + e + f, g, c);
  }

  lemma {:induction false} GiveBackAllCounts(s: State, jobs: seq<Entry>, c: Class)
    requires forall d: Class :: Count(jobs, d) <= Taken(s, d)
    ensures Taken(GiveBackAll(s, jobs), c) == Taken(s, c) - Count(jobs, c)
    ensures GiveBackAll(s, jobs) ==
      s.(liveTaken := GiveBackAll(s, jobs).liveTaken, backgroundTaken := GiveBackAll(s, jobs).backgroundTaken)
    decreases |jobs|
  {
    if jobs != [] {
      forall d: Class ensures Count(ButLast(jobs), d) <= Taken(s, d) {}
      GiveBackAllCounts(s, ButLast(jobs), c);
    }
  }

  lemma CountFirst(jobs: seq<Entry>, c: Class)
    requires jobs != []
    ensures Count(jobs, c) == Count(jobs[1..], c) + if jobs[0].class_ == c then 1 else 0
    ensures Only(jobs, c) == (if jobs[0].class_ == c then [jobs[0]] else []) + Only(jobs[1..], c)
  {
    assert jobs == [jobs[0]] + jobs[1..];
    CountConcat([jobs[0]], jobs[1..], c);
    OnlyConcat([jobs[0]], jobs[1..], c);
    CountOne(jobs[0], c);
  }

  lemma CountLast(jobs: seq<Entry>, job: Entry, c: Class)
    ensures Count(jobs + [job], c) == Count(jobs, c) + if job.class_ == c then 1 else 0
    ensures Only(jobs + [job], c) == Only(jobs, c) + if job.class_ == c then [job] else []
  {
    assert ButLast(jobs + [job]) == jobs;
  }

  // ----- conservation, event by event

  /** The counter of a class against the places its jobs are in. */
  predicate Balanced(s: State, c: Class) {
    Taken(s, c) == Count(Held(s.submitters), c) + Count(s.channel, c) + Count(s.live, c)
      + Count(s.background, c) + Count(InHand(s.phase), c) + Count(s.active, c)
  }

  lemma SubmitterBalances(s: State, e: Event, c: Class)
    requires Enabled(s, e) && (e.Load? || e.Swap? || e.Refuse? || e.Send? || e.Undelivered?) && Balanced(s, c)
    ensures Balanced(Apply(s, e), c)
  {
    hide Count, Held, Only, GiveBackAll, RemoveAt;
    match e
    case Load(p, job) => HeldPut(s.submitters, p, Loaded(job, Taken(s, job.class_)), c);
    case Swap(p) => HeldPut(s.submitters, p, Holding(s.submitters[p].job), c);
    case Refuse(p) => HeldPut(s.submitters, p, Idle, c);
    case Send(p) =>
      HeldPut(s.submitters, p, Idle, c);
      CountLast(s.channel, s.submitters[p].job, c);
    case Undelivered(p) => HeldPut(s.submitters, p, Idle, c);
  }

  lemma QueueBalances(s: State, e: Event, c: Class)
    requires Enabled(s, e) && (e.Receive? || e.Pull? || e.Timeout? || e.Drained? || e.PopLive? || e.PopBackground?)
    requires Balanced(s, c)
    ensures Balanced(Apply(s, e), c)
  {
    CountNone(c);
    hide Count, Held, Only, GiveBackAll, RemoveAt;
    match e
    case Receive => QueuedBalances(s, c);
    case Pull => QueuedBalances(s, c);
    case PopLive =>
      CountOne(s.live[0], c);
      CountFirst(s.live, c);
    case PopBackground =>
      CountOne(s.background[0], c);
      CountFirst(s.background, c);
    case _ =>
  }

  lemma CountNone(c: Class)
    ensures Count([], c) == 0
  {
  }

  lemma QueuedBalances(s: State, c: Class)
    requires s.channel != []
    ensures Count(Queued(s).channel, c) + Count(Queued(s).live, c) + Count(Queued(s).background, c)
         == Count(s.channel, c) + Count(s.live, c) + Count(s.background, c)
  {
    hide Count;
    CountFirst(s.channel, c);
    CountLast(s.live, s.channel[0], c);
    CountLast(s.background, s.channel[0], c);
  }

  lemma EngineBalances(s: State, e: Event, c: Class)
    requires Enabled(s, e) &&
      (e.Started? || e.NotStarted? || e.LiveFull? || e.BackgroundFull? || e.Ends? || e.StepDone?)
    requires Balanced(s, c)
    ensures Balanced(Apply(s, e), c)
  {
    CountNone(c);
    hide Count, Held, Only, GiveBackAll, RemoveAt;
    match e
    case Started =>
      CountOne(s.phase.job, c);
      CountLast(s.active, s.phase.job, c);
    case NotStarted => CountOne(s.phase.job, c);
    case Ends(i) => CountSplit(s.active, i, c);
    case _ =>
  }

  lemma CrashBalances(s: State, e: Event, c: Class)
    requires Enabled(s, e) && (e.StepFails? || e.Exit?) && forall d: Class :: Balanced(s, d)
    ensures Balanced(Apply(s, e), c)
  {
    CountNone(c);
    hide Count;
    match e
    case StepFails =>
      forall d: Class ensures Count(s.active, d) <= Taken(s, d) { assert Balanced(s, d); }
      assert Balanced(s, c);
      GiveBackAllCounts(s, s.active, c);
    case Exit =>
      var all := s.channel + s.live + s.background + InHand(s.phase) + s.active;
      forall d: Class ensures Count(all, d) == Count(s.channel, d) + Count(s.live, d) + Count(s.background, d)
        + Count(InHand(s.phase), d) + Count(s.active, d)
      {
        CountConcat(s.channel, s.live, d);
        CountConcat(s.channel + s.live, s.background, d);
        CountConcat(s.channel + s.live + s.background, InHand(s.phase), d);
        CountConcat(s.channel + s.live + s.background + InHand(s.phase), s.active, d);
      }
      forall d: Class ensures Count(all, d) <= Taken(s, d) { assert Balanced(s, d); }
      assert Balanced(s, c);
      GiveBackAllCounts(s, all, c);
  }

  lemma EventBalances(s: State, e: Event, c: Class)
    requires Enabled(s, e) && forall d: Class :: Balanced(s, d)
    ensures Balanced(Apply(s, e), c)
  {
    hide Balanced, Apply, Enabled;
    if e.Load? || e.Swap? || e.Refuse? || e.Send? || e.Undelivered? {
      SubmitterBalances(s, e, c);
    } else if e.Receive? || e.Pull? || e.Timeout? || e.Drained? || e.PopLive? || e.PopBackground? {
      QueueBalances(s, e, c);
    } else if e.StepFails? || e.Exit? {
      CrashBalances(s, e, c);
    } else {
      EngineBalances(s, e, c);
    }
  }

  /** Slots are only ever taken below the limit. */
  lemma EventWithinSlots(s: State, e: Event, c: Class)
    requires Enabled(s, e) && Taken(s, c) <= Slots(s, c) && forall d: Class :: Balanced(s, d)
    ensures Taken(Apply(s, e), c) <= Slots(Apply(s, e), c) == Slots(s, c)
  {
    hide Count, Held, Only, GiveBackAll, RemoveAt;
    if e.StepFails? || e.Exit? {
      CrashTakes(s, e, c);
    }
  }

  lemma CrashTakes(s: State, e: Event, c: Class)
    requires Enabled(s, e) && (e.StepFails? || e.Exit?)
    ensures Taken(Apply(s, e), c) <= Taken(s, c) && Slots(Apply(s, e), c) == Slots(s, c)
  {
    if e.StepFails? {
      GiveBackAllTakes(s, s.active, c);
    } else {
      GiveBackAllTakes(s, s.channel + s.live + s.background + InHand(s.phase) + s.active, c);
    }
  }

  lemma {:induction false} GiveBackAllTakes(s: State, jobs: seq<Entry>, c: Class)
    ensures Taken(GiveBackAll(s, jobs), c) <= Taken(s, c)
    ensures GiveBackAll(s, jobs) ==
      s.(liveTaken := GiveBackAll(s, jobs).liveTaken, backgroundTaken := GiveBackAll(s, jobs).backgroundTaken)
    decreases |jobs|
  {
    if jobs != [] {
      GiveBackAllTakes(s, ButLast(jobs), c);
    }
  }

  // ----- the queues

  /** A full class leaves nobody in its queue: the loop's count, the queue and
      what else holds a slot add up to no more than the slots. */
  lemma FullMeansEmpty(s: State)
    requires Sorted(s) && Counted(s) && forall d: Class :: Balanced(s, d) && Taken(s, d) <= Slots(s, d)
    ensures s.phase.AdmittingLive? && s.phase.liveActive >= s.liveSlots ==> s.live == []
    ensures s.phase.AdmittingBackground? && s.phase.backgroundActive >= s.backgroundSlots ==> s.background == []
  {
    hide Count, Held, Only, GiveBackAll, RemoveAt;
    CountAll(s.live, LiveClass, LiveClass);
    CountAll(s.background, BackgroundClass, BackgroundClass);
    assert Balanced(s, LiveClass) && Balanced(s, BackgroundClass);
  }

  lemma EventSorts(s: State, e: Event)
    requires Enabled(s, e) && Sorted(s)
    ensures Sorted(Apply(s, e))
  {
    hide Count, Held, GiveBackAll;
    if e.StepFails? {
      GiveBackAllTakes(s, s.active, LiveClass);
    }
  }

  lemma EventCounts(s: State, e: Event)
    requires Enabled(s, e) && Counted(s) && Sorted(s)
    ensures Counted(Apply(s, e))
  {
    hide Held, GiveBackAll;
    CountBoth(s.active);
    if e.Started? {
      CountLast(s.active, s.phase.job, LiveClass);
      CountLast(s.active, s.phase.job, BackgroundClass);
    }
  }

  lemma EventLeavesNobody(s: State, e: Event)
    requires Enabled(s, e) && NobodyWaits(s)
    requires Sorted(s) && Counted(s) && forall d: Class :: Balanced(s, d) && Taken(s, d) <= Slots(s, d)
    ensures NobodyWaits(Apply(s, e))
  {
    FullMeansEmpty(s);
    hide Count, Held, GiveBackAll, Balanced, Only, RemoveAt;
    if e.StepFails? {
      GiveBackAllTakes(s, s.active, LiveClass);
    }
  }

  lemma QueueOrders(s: State, e: Event)
    requires Enabled(s, e) && InOrder(s) && Sorted(s) && (e.Receive? || e.Pull? || e.PopLive? || e.PopBackground?)
    ensures InOrder(Apply(s, e))
  {
    match e
    case PopLive => PopLiveOrders(s);
    case PopBackground => PopBackgroundOrders(s);
    case _ => QueuedOrders(s, e);
  }

  lemma PopLiveOrders(s: State)
    requires Enabled(s, PopLive) && InOrder(s) && Sorted(s)
    ensures InOrder(Apply(s, PopLive))
  {
    var job := s.live[0];
    assert job.class_ == LiveClass;
    hide Count, Held, Only, GiveBackAll, Sorted;
    CountLast(s.begun, job, LiveClass);
    CountLast(s.begun, job, BackgroundClass);
    MovedOut(Only(s.begun, LiveClass), s.live, Only(s.channel, LiveClass));
  }

  lemma PopBackgroundOrders(s: State)
    requires Enabled(s, PopBackground) && InOrder(s) && Sorted(s)
    ensures InOrder(Apply(s, PopBackground))
  {
    var job := s.background[0];
    assert job.class_ == BackgroundClass;
    hide Count, Held, Only, GiveBackAll, Sorted;
    CountLast(s.begun, job, LiveClass);
    CountLast(s.begun, job, BackgroundClass);
    MovedOut(Only(s.begun, BackgroundClass), s.background, Only(s.channel, BackgroundClass));
  }

  lemma MovedOut(begun: seq<Entry>, queue: seq<Entry>, rest: seq<Entry>)
    requires queue != []
    ensures begun + queue + rest == begun + [queue[0]] + queue[1..] + rest
    ensures begun + [] == begun
  {
  }

  lemma QueuedOrders(s: State, e: Event)
    requires Enabled(s, e) && InOrder(s) && Sorted(s) && (e.Receive? || e.Pull?)
    ensures InOrder(Apply(s, e))
  {
    var job, rest := s.channel[0], s.channel[1..];
    CountFirst(s.channel, LiveClass);
    CountFirst(s.channel, BackgroundClass);
    hide Count, Held, Only, GiveBackAll, Sorted;
    MovedUp(Only(s.begun, LiveClass), s.live, job, Only(rest, LiveClass));
    MovedUp(Only(s.begun, BackgroundClass), s.background, job, Only(rest, BackgroundClass));
  }

  lemma MovedUp(begun: seq<Entry>, queue: seq<Entry>, job: Entry, rest: seq<Entry>)
    ensures begun + queue + ([job] + rest) == begun + (queue + [job]) + rest
    ensures begun + queue + ([] + rest) == begun + queue + rest
  {
  }

  lemma EventOrders(s: State, e: Event)
    requires Enabled(s, e) && InOrder(s) && Sorted(s)
    ensures InOrder(Apply(s, e))
  {
    hide Count, Held, Only, GiveBackAll;
    match e
    case Send(p) =>
      var job := s.submitters[p].job;
      CountLast(s.channel, job, LiveClass);
      CountLast(s.channel, job, BackgroundClass);
      CountLast(s.sent, job, LiveClass);
      CountLast(s.sent, job, BackgroundClass);
    case StepFails => GiveBackAllTakes(s, s.active, LiveClass);
    case _ =>
      if e.Receive? || e.Pull? || e.PopLive? || e.PopBackground? {
        QueueOrders(s, e);
      }
  }

  lemma EventSees(s: State, e: Event)
    requires Enabled(s, e) && SeenFits(s) && forall d: Class :: Taken(s, d) <= Slots(s, d)
    ensures SeenFits(Apply(s, e))
  {
    hide Count, Held, GiveBackAll;
    if e.StepFails? {
      GiveBackAllTakes(s, s.active, LiveClass);
    } else if e.Exit? {
      GiveBackAllTakes(s, s.channel + s.live + s.background + InHand(s.phase) + s.active, LiveClass);
    }
  }

  /** The invariant of admission. */
  lemma EventKeeps(s: State, e: Event)
    requires Valid(s) && Enabled(s, e)
    ensures Valid(Apply(s, e))
  {
    hide Apply, Enabled, Everywhere, Balanced, Sorted, Counted, NobodyWaits, InOrder, SeenFits, Taken, Slots, Count;
    forall c: Class ensures Balanced(s, c) && Taken(s, c) <= Slots(s, c) { BalancedEverywhere(s, c); }
    forall c: Class
      ensures Taken(Apply(s, e), c) == Count(Everywhere(Apply(s, e)), c) <= Slots(Apply(s, e), c)
    {
      EventBalances(s, e, c);
      BalancedEverywhere(Apply(s, e), c);
      EventWithinSlots(s, e, c);
    }
    EventSorts(s, e);
    EventCounts(s, e);
    EventLeavesNobody(s, e);
    EventOrders(s, e);
    EventSees(s, e);
  }

  lemma BalancedEverywhere(s: State, c: Class)
    ensures Balanced(s, c) <==> Taken(s, c) == Count(Everywhere(s), c)
  {
    CountEverywhere(s, c);
  }

  // ----- whole runs

  ghost predicate RunEnabled(s: State, es: seq<Event>)
    decreases |es|
  {
    es == [] || (Enabled(s, es[0]) && RunEnabled(Apply(s, es[0]), es[1..]))
  }

  ghost function Run(s: State, es: seq<Event>): State
    requires RunEnabled(s, es)
    decreases |es|
  {
    if es == [] then s else Run(Apply(s, es[0]), es[1..])
  }

  function Opening(liveSlots: nat, backgroundSlots: nat, callers: nat): State {
    State(liveSlots, backgroundSlots, 0, 0, seq(callers, _ => Idle), [], [], [], [], Receiving, [], [])
  }

  lemma {:induction false} HeldNobody(xs: seq<Submitter>)
    requires forall p :: 0 <= p < |xs| ==> xs[p] == Idle
    ensures Held(xs) == []
  {
    if xs != [] {
      HeldNobody(ButLast(xs));
    }
  }

  lemma OpeningValid(liveSlots: nat, backgroundSlots: nat, callers: nat)
    ensures Valid(Opening(liveSlots, backgroundSlots, callers))
  {
    var s := Opening(liveSlots, backgroundSlots, callers);
    HeldNobody(s.submitters);
    assert Everywhere(s) == [];
  }

  lemma {:induction false} RunKeeps(s: State, es: seq<Event>)
    requires Valid(s) && RunEnabled(s, es)
    ensures Valid(Run(s, es))
    decreases |es|
  {
    hide Valid, Apply, Enabled;
    if es != [] {
      EventKeeps(s, es[0]);
      RunKeeps(Apply(s, es[0]), es[1..]);
    }
  }

  /** For every interleaving of submitters and engine: a class's counter is the
      number of its jobs in the system and within its slots, and when the engine
      steps no admitted job is left in a queue. */
  lemma SlotsConserved(liveSlots: nat, backgroundSlots: nat, callers: nat, es: seq<Event>, c: Class)
    requires RunEnabled(Opening(liveSlots, backgroundSlots, callers), es)
    ensures var s := Run(Opening(liveSlots, backgroundSlots, callers), es);
      && Taken(s, c) == Count(Everywhere(s), c) <= Slots(s, c)
      && (s.phase.Stepping? ==> s.live == [] && s.background == [])
  {
    OpeningValid(liveSlots, backgroundSlots, callers);
    RunKeeps(Opening(liveSlots, backgroundSlots, callers), es);
  }

  // ----- one turn of the loop

  /** The run does not come back to the head of the loop. */
  ghost predicate SameTurn(s: State, es: seq<Event>)
    requires RunEnabled(s, es)
    decreases |es|
  {
    es == [] || (
      && (Apply(s, es[0]).phase.Receiving? ==> s.phase.Receiving?)
      && SameTurn(Apply(s, es[0]), es[1..]))
  }

  /** Since the head of the loop at `s0`, `added` has been sent and `k` jobs have
      been taken from the channel: none while still receiving, at least all there
      were once admission begins. */
  predicate Drawn(s0: State, s: State, added: seq<Entry>, k: nat) {
    && s.sent == s0.sent + added && k <= |s0.channel + added| && s.channel == (s0.channel + added)[k..]
    && (s.phase.Receiving? ==> k == 0)
    && (!s.phase.Receiving? && !s.phase.Draining? ==> k >= |s0.channel|)
  }

  ghost predicate InTurn(s0: State, s: State) { s.phase.Gone? || exists added, k: nat :: Drawn(s0, s, added, k) }

  predicate Filling(s: State) { s.phase.Receiving? || s.phase.Draining? }

  /** What an event does to the channel. */
  lemma EventMoves(s: State, e: Event)
    requires Enabled(s, e) && !e.Exit?
    ensures var t := Apply(s, e);
      && (e.Send? ==> t.channel == s.channel + [s.submitters[e.p].job] && t.sent == s.sent + [s.submitters[e.p].job])
      && (e.Receive? || e.Pull? ==> s.channel != [] && t.channel == s.channel[1..] && t.phase.Draining?)
      && (!e.Send? ==> t.sent == s.sent)
      && (!e.Send? && !e.Receive? && !e.Pull? ==> t.channel == s.channel)
      && (!Filling(t) && Filling(s) ==> s.channel == [] && t.channel == [])
  {
    hide Count, Held, Only, GiveBackAll, RemoveAt;
    if e.StepFails? {
      GiveBackAllTakes(s, s.active, LiveClass);
    }
  }

  lemma EventDraws(s0: State, s: State, e: Event)
    requires InTurn(s0, s) && Enabled(s, e) && (Apply(s, e).phase.Receiving? ==> s.phase.Receiving?)
    ensures InTurn(s0, Apply(s, e))
  {
    if !s.phase.Gone? && !e.Exit? {
      EventMoves(s, e);
      hide Apply, Enabled;
      var added, k: nat :| Drawn(s0, s, added, k);
      if e.Send? {
        var job := s.submitters[e.p].job;
        assert ((s0.channel + added) + [job])[k..] == s.channel + [job];
        assert (s0.channel + added) + [job] == s0.channel + (added + [job]);
        assert Drawn(s0, Apply(s, e), added + [job], k);
      } else if e.Receive? || e.Pull? {
        assert Drawn(s0, Apply(s, e), added, k + 1);
      } else {
        assert Drawn(s0, Apply(s, e), added, k);
      }
    } else {
      StaysGone(s, e);
    }
  }

  lemma StaysGone(s: State, e: Event)
    requires Enabled(s, e) && (s.phase.Gone? || e.Exit?)
    ensures Apply(s, e).phase.Gone?
  {
    hide Count, Held, Only, GiveBackAll, RemoveAt;
  }

  lemma {:induction false} RunDraws(s0: State, s: State, es: seq<Event>)
    requires InTurn(s0, s) && RunEnabled(s, es) && SameTurn(s, es)
    ensures InTurn(s0, Run(s, es))
    decreases |es|
  {
    if es != [] {
      hide InTurn, Apply, Enabled;
      EventDraws(s0, s, es[0]);
      RunDraws(s0, Apply(s, es[0]), es[1..]);
    }
  }

  /** Nobody waits a turn: whatever had been sent when a turn of the loop begins
      has been taken from its queue, in the order sent, when that turn steps. */
  lemma BegunByStep(s: State, es: seq<Event>, c: Class)
    requires Valid(s) && s.phase.Receiving? && RunEnabled(s, es) && SameTurn(s, es) && Run(s, es).phase.Stepping?
    ensures IsPrefix(Only(s.sent, c), Only(Run(s, es).begun, c))
    ensures forall job <- s.channel :: job.class_ == c ==> job in Run(s, es).begun
  {
    var s' := Run(s, es);
    assert Drawn(s, s, [], 0) by { assert s.sent + [] == s.sent && (s.channel + [])[0..] == s.channel; }
    RunKeeps(s, es);
    RunDraws(s, s, es);
    hide Run, RunEnabled, SameTurn, Drawn, Valid, Only;
    var added, k: nat :| Drawn(s, s', added, k);
    DrawnBegun(s, s', added, k, c);
    forall job <- s.channel | job.class_ == c ensures job in s'.begun {
      ChannelSent(s, job);
      PrefixHas(Only(s.sent, c), Only(s'.begun, c), job);
      OnlyHas(s'.begun, job);
    }
  }

  lemma DrawnBegun(s: State, s': State, added: seq<Entry>, k: nat, c: Class)
    requires Valid(s') && s'.phase.Stepping? && Drawn(s, s', added, k)
    ensures IsPrefix(Only(s.sent, c), Only(s'.begun, c))
  {
    var j := k - |s.channel|;
    assert added == added[..j] + added[j..] && s'.channel == added[j..];
    assert Only(s'.sent, c) == Only(s'.begun, c) + [] + Only(s'.channel, c);
    hide Only, Valid;
    OnlyConcat(s.sent, added, c);
    OnlyConcat(added[..j], added[j..], c);
    SamePrefix(Only(s.sent, c), Only(added[..j], c), Only(s'.channel, c), Only(s'.begun, c));
  }

  /** A job in the channel has been sent. */
  lemma ChannelSent(s: State, job: Entry)
    requires Valid(s) && !s.phase.Gone? && job in s.channel
    ensures job in Only(s.sent, job.class_)
  {
    OnlyHas(s.channel, job);
    hide Only;
    var waiting := if job.class_.LiveClass? then s.live else s.background;
    assert Only(s.sent, job.class_) == Only(s.begun, job.class_) + waiting + Only(s.channel, job.class_);
  }

  lemma PrefixHas(a: seq<Entry>, b: seq<Entry>, job: Entry)
    requires IsPrefix(a, b) && job in a
    ensures job in b
  {
    assert job in b[..|a|];
  }

  lemma SamePrefix(x: seq<Entry>, y: seq<Entry>, z: seq<Entry>, b: seq<Entry>)
    requires x + (y + z) == b + [] + z
    ensures b == x + y && IsPrefix(x, b)
  {
    assert b == (b + [] + z)[..|b|] == (x + (y + z))[..|x| + |y|] == x + y;
  }

  lemma {:induction false} OnlyHas(jobs: seq<Entry>, job: Entry)
    ensures job in jobs <==> job in Only(jobs, job.class_)
  {
    if jobs != [] {
      OnlyHas(ButLast(jobs), job);
      assert jobs == ButLast(jobs) + [Last(jobs)];
    }
  }

  /** A submission is refused only if, when it read the counter, every slot of
      its class was held by a job in the system. */
  lemma RefusedOnlyWhenFull(s: State, p: nat, job: Entry)
    requires Valid(s) && Enabled(s, Load(p, job)) && Enabled(Apply(s, Load(p, job)), Refuse(p))
    ensures Count(Everywhere(s), job.class_) == Slots(s, job.class_)
  {
    assert Taken(s, job.class_) == Count(Everywhere(s), job.class_);
  }

  /** Two submitters cannot both take the slot one reading of the counter
      showed. */
  lemma OneWinner(s: State, p: nat, q: nat)
    requires p != q && Enabled(s, Swap(p)) && Enabled(s, Swap(q))
    requires s.submitters[p].job.class_ == s.submitters[q].job.class_
    ensures !Enabled(Apply(s, Swap(p)), Swap(q))
  {
  }

  /** The queues fit what is free when admission begins. */
  lemma QueuesFit(s: State)
    requires Valid(s)
    ensures Count(s.active, LiveClass) + |s.live| <= s.liveSlots
    ensures Count(s.active, BackgroundClass) + |s.background| <= s.backgroundSlots
  {
    CountEverywhere(s, LiveClass);
    CountEverywhere(s, BackgroundClass);
    CountAll(s.live, LiveClass, LiveClass);
    CountAll(s.background, BackgroundClass, BackgroundClass);
    assert Taken(s, LiveClass) <= Slots(s, LiveClass) && Taken(s, BackgroundClass) <= Slots(s, BackgroundClass);
  }

  // ----- the admission loops

  function Startable(jobs: seq<Entry>, ok: Entry -> bool): seq<Entry> {
    if jobs == [] then [] else Startable(ButLast(jobs), ok) + if ok(Last(jobs)) then [Last(jobs)] else []
  }

  /** Both loops of one pass, from the state the invariant gives them: every
      queued job is started, or dropped if it cannot be; none is left over. */
  method Admit(live: seq<Entry>, background: seq<Entry>, active: seq<Entry>, liveSlots: nat, backgroundSlots: nat,
               ok: Entry -> bool)
    returns (live': seq<Entry>, background': seq<Entry>, active': seq<Entry>)
    requires AllOf(live, LiveClass) && AllOf(background, BackgroundClass)
    requires Count(active, LiveClass) + |live| <= liveSlots
    requires Count(active, BackgroundClass) + |background| <= backgroundSlots
    ensures live' == [] && background' == []
    ensures active' == active + Startable(live, ok) + Startable(background, ok)
  {
    live', background', active' := live, background, active;
    var liveActive := Count(active, LiveClass);
    CountBoth(active);
    var backgroundActive := |active| - liveActive;
    ghost var n := 0;
    while liveActive < liveSlots
      invariant n + |live'| == |live| && live' == live[n..] && liveActive + |live'| <= liveSlots
      invariant active' == active + Startable(live[..n], ok)
      decreases |live'|
    {
      if live' == [] {
        break;
      }
      var job := live'[0];
      live' := live'[1..];
      assert ButLast(live[..n + 1]) == live[..n];
      n := n + 1;
      if ok(job) {
        active' := active' + [job];
        liveActive := liveActive + 1;
      }
    }
    assert live[..n] == live;
    n := 0;
    while live' == [] && backgroundActive < backgroundSlots
      invariant n + |background'| == |background| && background' == background[n..] &&
        backgroundActive + |background'| <= backgroundSlots
      invariant active' == active + Startable(live, ok) + Startable(background[..n], ok)
      decreases |background'|
    {
      if background' == [] {
        break;
      }
      var job := background'[0];
      background' := background'[1..];
      assert ButLast(background[..n + 1]) == background[..n];
      n := n + 1;
      if ok(job) {
        active' := active' + [job];
        backgroundActive := backgroundActive + 1;
      }
    }
    assert background[..n] == background;
  }
}
