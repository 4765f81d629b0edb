/** Every run stops once nothing new comes in, and when a run without faults has
    stopped every job has met its fate. */
module DeliveryLiveness {
  import opened Sums
  import opened Wrappers
  import opened WebhookJob
  import opened Delivery
  import opened DeliverySafety
  import opened DeliveryPlaces
  import opened DeliveryExclusive
  import opened DeliveryAttempts
  import opened DeliveryHoldings
  import opened DeliveryReclaims

  /** No crash, no failing command; new workers may still join. */
  ghost predicate FaultFree(s: State, e: Event) {
    match e
    case Tick(_) => true
    case Start(p, reply, unacked) => p !in s.workers && reply.Answered? && unacked == {}
    case Crash(_) => false
    case Enqueue(_, _, _, _, _, _, _, add) => add.Answered?
    case TimerFire(_, add) => add.Answered?
    case Read(_, reply, unacked) => reply.Answered? && unacked == {}
    case Process(_, _, ack, _) => ack.Answered?
  }

  /** A step that brings some job nearer to its end. */
  predicate IsProgress(e: Event) { e.TimerFire? || e.Process? || (e.Read? && !e.reply.Refused?) }

  ghost predicate Quiet(s: State, es: seq<Event>)
    requires Legal(s, es)
    decreases |es|
  {
    es == [] || (FaultFree(s, es[0]) && Quiet(Next(s, es[0]), es[1..]))
  }

  // ----- the measure: attempts left, then stage -----

  function Rest(job: Job): nat { if job.attempts < MAX_ATTEMPTS - 1 then 3 * (MAX_ATTEMPTS - 1 - job.attempts) else 0 }

  /** Work still to come from a job in a timer, unread, or in a batch. */
  function Work(): Scale { Scale(job => Rest(job) + 3, job => Rest(job) + 2, job => Rest(job) + 1) }

  lemma {:induction false} EntriesOutweighCopies(stream: seq<Job>, mids: seq<nat>)
    requires Within(mids, |stream|)
    ensures BatchWeight(stream, mids, Work().entry) == BatchWeight(stream, mids, Work().copy) + |mids|
  {
    if mids != [] { EntriesOutweighCopies(stream, mids[1..]); }
  }

  lemma {:induction false} CopiesAreBounded(stream: seq<Job>, mids: seq<nat>)
    requires Within(mids, |stream|) && forall m :: 0 <= m < |stream| ==> stream[m].attempts >= 0
    ensures BatchWeight(stream, mids, Work().copy) <= 28 * |mids|
  {
    if mids != [] { CopiesAreBounded(stream, mids[1..]); }
  }

  // ----- each step of any run, whatever its faults -----

  /** Progress made and work left after the step, against work left before it, work
      that is new, and work that a claim repeats. */
  ghost predicate Falls(s: State, e: Event, n: nat)
    requires Enabled(s, e)
  {
    Total(Next(s, e), Work(), n) + (if IsProgress(e) then 1 else 0) + 28 * |s.claims|
    <= Total(s, Work(), n) + (if e.Enqueue? then 30 else 0) + 28 * |Next(s, e).claims|
  }

  lemma ClaimsStay(s: State, e: Event)
    requires Enabled(s, e) && !e.Start?
    ensures Next(s, e).claims == s.claims
  {
    hide ReadableOf, Range, AsRead;
  }

  lemma StartFalls(s: State, e: Event, n: nat)
    requires Sound(s) && e.Start? && e.p < n
    ensures Falls(s, e, n) && |Next(s, e).claims| <= |s.claims| + 10
  {
    hide Sound, Total, StartStep, BatchWeight, Stale, Within;
    StartTotal(s, e, Work(), n);
    AttemptsInRange(s);
    CopiesAreBounded(s.stream, StaleNow(s));
  }

  lemma ReadFalls(s: State, e: Event, n: nat)
    requires s.cursor <= |s.stream| && e.Read? && Enabled(s, e) && e.p < n
    ensures Falls(s, e, n)
  {
    ClaimsStay(s, e);
    hide Total, Hand, BatchWeight, ReadableOf;
    if !e.reply.Refused? {
      ReadTotal(s, e, Work(), n);
      EntriesOutweighCopies(s.stream, Fetched(s));
    }
  }

  lemma ProcessFalls(s: State, e: Event, n: nat)
    requires e.Process? && Enabled(s, e) && e.p < n
    ensures Falls(s, e, n)
  {
    ClaimsStay(s, e);
    hide Total, ProcessStep;
    ProcessTotal(s, e, Work(), n);
  }

  lemma EnqueueFalls(s: State, e: Event, n: nat)
    requires Sound(s) && e.Enqueue? && Enabled(s, e)
    ensures Falls(s, e, n)
  {
    ClaimsStay(s, e);
    hide Sound, Total, EnqueueStep;
    EnqueueTotal(s, e, Work(), n);
  }

  lemma TimerFalls(s: State, e: Event, n: nat)
    requires Sound(s) && e.TimerFire? && Enabled(s, e)
    ensures Falls(s, e, n)
  {
    ClaimsStay(s, e);
    hide Sound, Total, TimerStep;
    TimerTotal(s, e, Work(), n);
  }

  lemma CrashFalls(s: State, e: Event, n: nat)
    requires e.Crash? && Enabled(s, e)
    ensures Falls(s, e, n)
  {
    ClaimsStay(s, e);
    hide Total, CrashStep;
    CrashTotal(s, e, Work(), n);
  }

  /** Every step of every run, thefts and all faults included, makes the work left
      fall by the progress it makes, but for what an enqueue or a claim adds. */
  lemma WorkFalls(s: State, e: Event, n: nat)
    requires Sound(s) && Enabled(s, e) && NamesBelow(e, n)
    ensures Falls(s, e, n)
    ensures |Next(s, e).claims| <= |s.claims| + if e.Start? then 10 else 0
  {
    assert s.cursor <= |s.stream|;
    hide Sound, Falls;
    if !e.Start? { ClaimsStay(s, e); }
    match e
    case Tick(_) => TickFalls(s, e, n);
    case Start(_, _, _) => StartFalls(s, e, n);
    case Crash(_) => CrashFalls(s, e, n);
    case Enqueue(_, _, _, _, _, _, _, _) => EnqueueFalls(s, e, n);
    case TimerFire(_, _) => TimerFalls(s, e, n);
    case Read(_, _, _) => ReadFalls(s, e, n);
    case Process(_, _, _, _) => ProcessFalls(s, e, n);
  }

  lemma TickFalls(s: State, e: Event, n: nat)
    requires e.Tick?
    ensures Falls(s, e, n)
  {
    hide Sum;
  }

  // ----- whole runs -----

  function Progress(es: seq<Event>): nat {
    if es == [] then 0 else (if IsProgress(es[0]) then 1 else 0) + Progress(es[1..])
  }

  function Enqueues(es: seq<Event>): nat {
    if es == [] then 0 else (if es[0].Enqueue? then 1 else 0) + Enqueues(es[1..])
  }

  function Starts(es: seq<Event>): nat {
    if es == [] then 0 else (if es[0].Start? then 1 else 0) + Starts(es[1..])
  }

  predicate AllBelow(es: seq<Event>, n: nat) { forall i :: 0 <= i < |es| ==> NamesBelow(es[i], n) }

  lemma {:induction false} SomeBound(es: seq<Event>) returns (n: nat)
    ensures AllBelow(es, n)
  {
    n := 0;
    if es != [] {
      n := SomeBound(es[1..]);
      assert forall i :: 0 < i < |es| ==> NamesBelow(es[1..][i - 1], n) && es[1..][i - 1] == es[i];
      if es[0].Start? || es[0].Read? || es[0].Process? { n := n + es[0].p + 1; }
    }
  }

  lemma {:induction false} WorkRun(s: State, es: seq<Event>, n: nat)
    requires Sound(s) && Legal(s, es) && AllBelow(es, n)
    ensures Progress(es) + Total(Run(s, es), Work(), n) + 28 * |s.claims|
         <= Total(s, Work(), n) + 30 * Enqueues(es) + 28 * |Run(s, es).claims|
    ensures |Run(s, es).claims| <= |s.claims| + 10 * Starts(es)
    decreases |es|
  {
    hide Sound, Total, Next, IsProgress, NamesBelow;
    if es != [] {
      assert NamesBelow(es[0], n);
      WorkFalls(s, es[0], n);
      SoundStep(s, es[0]);
      assert AllBelow(es[1..], n);
      WorkRun(Next(s, es[0]), es[1..], n);
    }
  }

  lemma NothingToDo(minDelay: nat, n: nat)
    ensures Total(Init(minDelay), Work(), n) == 0
  {
    SumZero(WorkerWeights(map[], [], Work().copy), n);
  }

  /** Every run, with crashes, thefts and failing commands or without: it makes at
      most thirty steps for every job enqueued and twenty-eight for every reclaiming.
      A starting worker reclaims at most ten jobs, so with no new jobs and no new
      workers every run stops. */
  lemma EveryRunStops(minDelay: nat, es: seq<Event>)
    requires Legal(Init(minDelay), es)
    ensures Progress(es) <= 30 * Enqueues(es) + 28 * |Run(Init(minDelay), es).claims|
    ensures |Run(Init(minDelay), es).claims| <= 10 * Starts(es)
  {
    var n := SomeBound(es);
    InitSound(minDelay);
    NothingToDo(minDelay, n);
    WorkRun(Init(minDelay), es, n);
  }

  // ----- without faults nothing is stray -----

  ghost predicate NoneStray(s: State) {
    forall m :: m in s.pending ==>
      s.pending[m].consumer in s.workers && m in s.workers[s.pending[m].consumer].batch
  }

  ghost predicate Clean(s: State) {
    NoneStray(s) && s.vanished == {}
  }

  lemma CleanRead(s: State, p: nat)
    requires Framed(s) && Clean(s) && Enabled(s, Read(p, Answered, {}))
    ensures Clean(ReadStep(s, p, Answered, {}))
  {
    hide Hand, ReadableOf, Range, Distinct;
    var s', mids := ReadStep(s, p, Answered, {}), Range(s.cursor, Min(s.cursor + BATCH_SIZE, |s.stream|));
    HandEffect(s, p, mids, Answered, {});
    ReadableOfContents(s.stream, mids);
    forall m | m in s'.pending
      ensures s'.pending[m].consumer in s'.workers && m in s'.workers[s'.pending[m].consumer].batch
    {
      if m in mids {
        assert s'.pending[m] == Claim(p, s.now) && Readable(s.stream[m]);
      }
    }
  }

  lemma CleanProcess(s: State, e: Event)
    requires Clean(s) && e.Process? && Enabled(s, e) && e.ack.Answered?
    ensures Clean(ProcessStep(s, e))
  {
    var s', mid := ProcessStep(s, e), s.workers[e.p].batch[0];
    assert s'.pending == s.pending - {mid} && s'.vanished == s.vanished && s'.claims == s.claims;
    var batch := s.workers[e.p].batch;
    assert forall m :: m in batch && m != mid ==> m in batch[1..];
  }

  lemma CleanStart(s: State, p: nat)
    requires Clean(s) && p !in s.workers
    ensures Clean(StartStep(s, p, Answered, {}))
  {
    hide Hand, ReadableOf, Stale;
    var s', mids := StartStep(s, p, Answered, {}), StaleNow(s);
    HandEffect(s, p, mids, Answered, {});
    ReadableOfContents(s.stream, mids);
    forall m | m in s'.pending
      ensures s'.pending[m].consumer in s'.workers && m in s'.workers[s'.pending[m].consumer].batch
    {
      if m in mids {
        assert s'.pending[m] == Claim(p, s.now) && Readable(s.stream[m]);
      }
    }
  }

  lemma CleanAdd(s: State, e: Event)
    requires Clean(s) && Enabled(s, e) && FaultFree(s, e) && (e.Tick? || e.Enqueue? || e.TimerFire?)
    ensures Clean(Next(s, e))
  {
    var s' := Next(s, e);
    assert s'.pending == s.pending && s'.workers == s.workers && s'.vanished == s.vanished && s'.claims == s.claims;
  }

  lemma CleanStep(s: State, e: Event)
    requires Sound(s) && Clean(s) && Enabled(s, e) && FaultFree(s, e)
    ensures Clean(Next(s, e))
  {
    hide Sound, Clean, StartStep, ReadStep, ProcessStep;
    match e
    case Tick(_) => CleanAdd(s, e);
    case Start(p, _, _) => CleanStart(s, p);
    case Enqueue(_, _, _, _, _, _, _, _) => CleanAdd(s, e);
    case TimerFire(_, _) => CleanAdd(s, e);
    case Read(p, _, _) => SoundMeansBelowLimit(s); CleanRead(s, p);
    case Process(_, _, _, _) => CleanProcess(s, e);
  }

  /** A fault-free step leaves nothing stray, and the work left falls. */
  lemma QuietStep(s: State, e: Event, n: nat)
    requires Sound(s) && Clean(s) && Enabled(s, e) && FaultFree(s, e) && NamesBelow(e, n)
    ensures Clean(Next(s, e)) && Falls(s, e, n)
  {
    hide Sound, Clean, Falls, FaultFree, NamesBelow, Next;
    CleanStep(s, e);
    WorkFalls(s, e, n);
  }

  lemma {:induction false} QuietRun(s: State, es: seq<Event>)
    requires Sound(s) && Clean(s) && Legal(s, es) && Quiet(s, es)
    ensures Clean(Run(s, es)) && Sound(Run(s, es))
    decreases |es|
  {
    hide Sound, Clean, Next, FaultFree, Falls;
    if es != [] {
      CleanStep(s, es[0]);
      SoundStep(s, es[0]);
      QuietRun(Next(s, es[0]), es[1..]);
    }
  }

  function Later(s: State, d: nat): State { s.(now := s.now + d) }

  /** After a wait of d this step is possible. */
  ghost predicate CanGo(s: State, d: nat, e: Event) {
    IsProgress(e) && FaultFree(Later(s, d), e) && Enabled(Later(s, d), e)
  }

  /** Nothing can happen, now or after any wait. */
  ghost predicate Stuck(s: State) { forall d: nat, e: Event :: !CanGo(s, d, e) }

  lemma StuckMeansIdle(s: State, p: nat)
    requires Sound(s) && Stuck(s) && p in s.workers
    ensures s.workers[p].batch == []
  {
    assert BatchSound(s.workers[p], s.stream, s.cursor, s.now);
    if s.workers[p].batch != [] {
      assert s.workers[p].batch[0] in s.workers[p].batch;
      assert CanGo(s, 0, Process(p, true, Answered, ""));
    }
  }

  lemma CanRead(s: State, p: nat)
    requires p in s.workers && s.workers[p].batch == [] && s.cursor < |s.stream|
    ensures CanGo(s, 0, Read(p, Answered, {}))
  { }

  lemma StuckMeansRead(s: State)
    requires Stuck(s) && s.workers.Keys != {} && s.cursor <= |s.stream|
    requires forall p :: p in s.workers ==> s.workers[p].batch == []
    ensures s.cursor == |s.stream|
  {
    hide CanGo;
    var p :| p in s.workers;
    if s.cursor < |s.stream| { CanRead(s, p); }
  }

  lemma StuckMeansFired(s: State)
    requires Stuck(s)
    ensures s.timers.Keys == {}
  {
    if k :| k in s.timers {
      assert CanGo(s, s.timers[k].fireAt, TimerFire(k, Answered));
    }
  }

  lemma EmptyMeansDone(s: State, id: string)
    requires s.timers.Keys == {} && s.pending.Keys == {} && s.cursor == |s.stream|
    requires s.vanished == {} && exists place :: At(s, id, place)
    ensures id in s.delivered + s.dropped + s.skipped
  {
    var place :| At(s, id, place);
  }

  lemma StuckMeansDone(s: State, id: string)
    requires Sound(s) && Clean(s) && Stuck(s) && s.workers.Keys != {} && Somewhere(s, id)
    ensures id in s.delivered + s.dropped + s.skipped
  {
    forall p | p in s.workers ensures s.workers[p].batch == [] { StuckMeansIdle(s, p); }
    StuckMeansRead(s);
    StuckMeansFired(s);
    assert NoneStray(s);
    EmptyMeansDone(s, id);
  }

  /** When a fault-free run has stopped, with a worker alive, every job enqueued has
      been delivered, dropped after at least ten failures, or skipped; skipped are
      exactly those enqueued without an event type. Slow sends, late workers and the
      thefts they lead to make no difference. */
  lemma StoppedRunsAreComplete(minDelay: nat, es: seq<Event>, id: string)
    requires Legal(Init(minDelay), es) && Quiet(Init(minDelay), es)
    requires var s := Run(Init(minDelay), es);
             Stuck(s) && s.workers.Keys != {} && id in s.births
    ensures var s := Run(Init(minDelay), es);
            && id in s.delivered + s.dropped + s.skipped
            && (id in s.skipped <==> s.births[id].eventType == "")
            && (id in s.delivered ==> exists i :: 0 <= i < |s.sends| && s.sends[i].job.jobID == id && s.sends[i].ok)
            && (id in s.dropped ==> Failures(s.sends, id) >= 10)
            && SendCount(s.sends, id) <= 10 * (1 + s.claims[id])
  {
    hide Legal, Quiet, Run, Sound, Stuck, FatesFit;
    InitSound(minDelay);
    InitClean(minDelay);
    QuietRun(Init(minDelay), es);
    NothingIsLost(minDelay, es, id);
    StuckMeansDone(Run(Init(minDelay), es), id);
    SendsAreBounded(minDelay, es, id);
    FatesFitRun(Init(minDelay), es);
    FateOfSkipped(Run(Init(minDelay), es), id);
    if id in Run(Init(minDelay), es).delivered { DeliveredWasSent(minDelay, es, id); }
  }

  lemma InitClean(minDelay: nat)
    ensures Clean(Init(minDelay)) && FatesFit(Init(minDelay))
  { }

  lemma FateOfSkipped(s: State, id: string)
    requires FatesFit(s) && id in s.births && id in s.delivered + s.dropped + s.skipped
    ensures id in s.skipped <==> s.births[id].eventType == ""
  { }

  // ----- without theft: the exact numbers -----

  lemma HeldIsNotStale(s: State, e: Event, m: nat)
    requires NoneStray(s) && e.Start? && FaultFree(s, e) && NoTheft(s, e)
    ensures m !in StaleNow(s)
  {
    if m in s.pending {
      var q := s.pending[m].consumer;
      assert q in s.workers && m in s.workers[q].batch;
    }
  }

  lemma NothingStale(s: State, e: Event)
    requires NoneStray(s) && e.Start? && FaultFree(s, e) && NoTheft(s, e)
    ensures StaleNow(s) == []
  {
    if StaleNow(s) != [] { HeldIsNotStale(s, e, StaleNow(s)[0]); }
  }

  lemma {:induction false} QuietMeansUnclaimed(s: State, es: seq<Event>)
    requires Sound(s) && Clean(s) && s.claims == multiset{}
    requires Legal(s, es) && Quiet(s, es) && TheftFree(s, es)
    ensures Run(s, es).claims == multiset{}
    decreases |es|
  {
    hide Sound, Clean, Next, FaultFree, Falls, NoTheft;
    if es != [] {
      CleanStep(s, es[0]);
      SoundStep(s, es[0]);
      NothingClaimed(s, es[0]);
      QuietMeansUnclaimed(Next(s, es[0]), es[1..]);
    }
  }

  lemma NothingClaimed(s: State, e: Event)
    requires Clean(s) && Enabled(s, e) && FaultFree(s, e) && NoTheft(s, e)
    ensures Next(s, e).claims == s.claims
  {
    if e.Start? {
      NothingStale(s, e);
      hide Hand, Stale;
      HandShape(s, e.p, [], e.reply, e.unacked);
      assert multiset(IdsOf(s.stream, [])) == multiset{};
    } else {
      ClaimsStay(s, e);
    }
  }

  /** A fault-free run without theft makes at most thirty steps for every job
      enqueued. */
  lemma FaultFreeRunsStop(minDelay: nat, es: seq<Event>)
    requires Legal(Init(minDelay), es) && TheftFree(Init(minDelay), es) && Quiet(Init(minDelay), es)
    ensures Progress(es) <= 30 * Enqueues(es)
  {
    hide Legal, Quiet, TheftFree, Run, Sound;
    InitSound(minDelay);
    InitClean(minDelay);
    QuietMeansUnclaimed(Init(minDelay), es);
    EveryRunStops(minDelay, es);
  }

  /** And when it has stopped, a job was dropped exactly if ten sends have failed, and
      none was sent more often than ten times. */
  lemma StoppedRunsAreExact(minDelay: nat, es: seq<Event>, id: string)
    requires Legal(Init(minDelay), es) && TheftFree(Init(minDelay), es) && Quiet(Init(minDelay), es)
    requires var s := Run(Init(minDelay), es);
             Stuck(s) && s.workers.Keys != {} && id in s.births
    ensures var s := Run(Init(minDelay), es);
            && id in s.delivered + s.dropped + s.skipped
            && (id in s.skipped <==> s.births[id].eventType == "")
            && (id in s.dropped <==> Failures(s.sends, id) == MAX_ATTEMPTS)
            && SendCount(s.sends, id) <= MAX_ATTEMPTS
  {
    hide Legal, Quiet, TheftFree, Run, Sound, Stuck;
    StoppedRunsAreComplete(minDelay, es, id);
    InitSound(minDelay);
    InitClean(minDelay);
    QuietMeansUnclaimed(Init(minDelay), es);
    AttemptsCountFailures(minDelay, es, id);
  }

  /** One worker alone, or workers that start only while no other has work in hand:
      whatever the sends take, all of it holds. */
  lemma OneWorkerAtAnyPace(minDelay: nat, es: seq<Event>, id: string)
    requires Legal(Init(minDelay), es) && StartsAlone(Init(minDelay), es) && id in Run(Init(minDelay), es).births
    ensures ExactlyOnePlace(Run(Init(minDelay), es), id) && AttemptsMatch(Run(Init(minDelay), es), id)
    ensures Quiet(Init(minDelay), es) ==> Progress(es) <= 30 * Enqueues(es)
  {
    hide ExactlyOnePlace, AttemptsMatch, Legal, Run, TheftFree, StartsAlone, Quiet;
    StartingAloneIsNoTheft(Init(minDelay), es);
    EveryJobInExactlyOnePlace(minDelay, es, id);
    AttemptsCountFailures(minDelay, es, id);
    if Quiet(Init(minDelay), es) { FaultFreeRunsStop(minDelay, es); }
  }
}
