/** What holds of the number of sends in every run, thefts included: each reclaiming
    of a job can at most start ten sends more, and no job is dropped before ten of
    its sends have failed. */
module DeliveryReclaims {
  import opened Sums
  import opened WebhookJob
  import opened Delivery
  import opened DeliverySafety
  import opened DeliveryPlaces
  import opened DeliveryAttempts
  import opened DeliveryHoldings

  // ----- the sends still open to whoever holds a job -----

  function Share(job: Job, id: string): nat {
    if job.jobID == id && job.attempts < 10 then 10 - job.attempts else 0
  }

  function ShareOf(id: string): Weight { job => Share(job, id) }

  function Shares(id: string): Scale { Scale(ShareOf(id), ShareOf(id), ShareOf(id)) }

  ghost predicate RationedAt(s: State, id: string, n: nat) {
    SendCount(s.sends, id) + Total(s, Shares(id), n) <= 10 + 10 * s.claims[id]
  }

  ghost predicate Rationed(s: State, id: string) { forall n: nat :: RationedAt(s, id, n) }

  // ----- each step -----

  lemma JobsAreBorn(s: State)
    requires Sound(s)
    ensures forall k :: k in s.timers ==> s.timers[k].job.jobID in s.births
    ensures forall m :: 0 <= m < |s.stream| ==> s.stream[m].jobID in s.births
  {
    assert forall k :: k in s.timers ==> Ripe(s.births, s.timers[k].job, s.timers[k].fireAt);
    assert forall m :: 0 <= m < |s.stream| ==> Ripe(s.births, s.stream[m], s.now);
  }

  /** Nobody holds a job that was not accepted, and none was sent. */
  lemma UnknownIsNowhere(s: State, id: string, n: nat)
    requires Sound(s) && id !in s.births
    ensures SendCount(s.sends, id) == 0 && Total(s, Shares(id), n) == 0
  {
    hide Sound, Sum, SendCount;
    forall i | 0 <= i < |s.sends| ensures s.sends[i].job.jobID != id { SendIsRipe(s, i); }
    CountNone(s.sends, id);
    JobsAreBorn(s);
    var w := ShareOf(id);
    SumZero(TimerWeights(s.timers, w), s.serial);
    SumZero(EntryWeights(s.stream, s.cursor, w), |s.stream|);
    var f := WorkerWeights(s.workers, s.stream, w);
    forall p: nat ensures f(p) == 0 {
      if p in s.workers { NothingInBatch(s.stream, s.workers[p].batch, id); }
    }
    SumZero(f, n);
  }

  lemma {:induction false} NothingInBatch(stream: seq<Job>, batch: seq<nat>, id: string)
    requires forall m :: 0 <= m < |stream| ==> stream[m].jobID != id
    ensures BatchWeight(stream, batch, ShareOf(id)) == 0
  {
    if batch != [] { NothingInBatch(stream, batch[1..], id); }
  }

  lemma RationedEnqueue(s: State, e: Event, id: string, n: nat)
    requires Sound(s) && RationedAt(s, id, n) && e.Enqueue? && Enabled(s, e)
    ensures RationedAt(Next(s, e), id, n)
  {
    hide Sound, Total, SendCount, EnqueueStep;
    if id == e.jobID { UnknownIsNowhere(s, id, n); }
    EnqueueEffect(s, e, NewJob(e));
    EnqueueTotal(s, e, Shares(id), n);
  }

  /** A claim pays for every send that its batch may lead to. */
  lemma {:induction false} ClaimPays(stream: seq<Job>, mids: seq<nat>, id: string)
    requires Within(mids, |stream|) && forall m :: 0 <= m < |stream| ==> stream[m].attempts >= 0
    ensures BatchWeight(stream, mids, ShareOf(id)) <= 10 * multiset(IdsOf(stream, mids))[id]
  {
    if mids != [] {
      ClaimPays(stream, mids[1..], id);
      assert IdsOf(stream, mids) == [stream[mids[0]].jobID] + IdsOf(stream, mids[1..]);
    }
  }

  lemma RationedStart(s: State, e: Event, id: string, n: nat)
    requires Sound(s) && RationedAt(s, id, n) && e.Start? && e.p < n
    ensures RationedAt(Next(s, e), id, n)
  {
    hide Sound, Total, SendCount, StartStep, BatchWeight, Stale, Within, IdsOf;
    StartTotal(s, e, Shares(id), n);
    AttemptsInRange(s);
    ClaimPays(s.stream, StaleNow(s), id);
  }

  lemma RationedRead(s: State, e: Event, id: string, n: nat)
    requires s.cursor <= |s.stream| && RationedAt(s, id, n) && e.Read? && Enabled(s, e) && e.p < n
    ensures RationedAt(Next(s, e), id, n)
  {
    hide Total, SendCount, Hand, Range, BatchWeight;
    if !e.reply.Refused? {
      ReadTotal(s, e, Shares(id), n);
      HandShape(s, e.p, Fetched(s), e.reply, e.unacked);
    }
  }

  lemma HeadInRange(s: State, e: Event)
    requires Sound(s) && e.Process? && Enabled(s, e)
    ensures 0 <= s.stream[s.workers[e.p].batch[0]].attempts < 10
  {
    hide Sound;
    AttemptsInRange(s);
  }

  lemma RationedProcess(s: State, e: Event, id: string, n: nat)
    requires Sound(s) && RationedAt(s, id, n) && e.Process? && Enabled(s, e) && e.p < n
    ensures RationedAt(Next(s, e), id, n)
  {
    hide Sound, Total, SendCount, ProcessStep, Failures;
    HeadInRange(s, e);
    SendTally(s, e);
    ProcessTotal(s, e, Shares(id), n);
  }

  lemma RationedTimer(s: State, e: Event, id: string, n: nat)
    requires Sound(s) && RationedAt(s, id, n) && e.TimerFire? && Enabled(s, e)
    ensures RationedAt(Next(s, e), id, n)
  {
    hide Sound, Total, SendCount;
    TimerTotal(s, e, Shares(id), n);
  }

  lemma RationedAtStep(s: State, e: Event, id: string, n: nat)
    requires Sound(s) && RationedAt(s, id, n) && Enabled(s, e) && NamesBelow(e, n)
    ensures RationedAt(Next(s, e), id, n)
  {
    assert s.cursor <= |s.stream|;
    hide Sound, SendCount, Sum, BatchWeight;
    match e
    case Tick(_) =>
    case Start(_, _, _) => RationedStart(s, e, id, n);
    case Crash(_) => CrashTotal(s, e, Shares(id), n);
    case Enqueue(_, _, _, _, _, _, _, _) => RationedEnqueue(s, e, id, n);
    case TimerFire(_, _) => RationedTimer(s, e, id, n);
    case Read(_, _, _) => RationedRead(s, e, id, n);
    case Process(_, _, _, _) => RationedProcess(s, e, id, n);
  }

  lemma RationedStep(s: State, e: Event, id: string)
    requires Sound(s) && Rationed(s, id) && Enabled(s, e)
    ensures Rationed(Next(s, e), id)
  {
    hide Sound, Next, Total, SendCount;
    forall n: nat ensures RationedAt(Next(s, e), id, n) {
      var enough := if e.Start? || e.Read? || e.Process? then n + e.p + 1 else n;
      assert RationedAt(s, id, enough);
      RationedAtStep(s, e, id, enough);
      FewerWorkers(Next(s, e), Shares(id), n, enough);
    }
  }

  // ----- failures -----

  /** Attempt numbers never run ahead of the acknowledged failures. */
  ghost predicate Earned(s: State) {
    && (forall k :: k in s.timers ==> s.timers[k].job.attempts <= Failures(s.sends, s.timers[k].job.jobID))
    && (forall m :: 0 <= m < |s.stream| ==> s.stream[m].attempts <= Failures(s.sends, s.stream[m].jobID))
    && (forall id :: id in s.dropped ==> Failures(s.sends, id) >= MAX_ATTEMPTS)
  }

  lemma EarnedProcess(s: State, e: Event)
    requires Earned(s) && e.Process? && Enabled(s, e)
    ensures Earned(Next(s, e))
  {
    hide ProcessStep, Failures, SendCount;
    ProcessEffect(s, e);
    SendTally(s, e);
  }

  lemma EarnedStep(s: State, e: Event)
    requires Earned(s) && Enabled(s, e)
    ensures Earned(Next(s, e))
  {
    hide ProcessStep, Failures, Stale, Range, Hand, EnqueueStep;
    match e
    case Tick(_) =>
    case Start(p, reply, unacked) => HandShape(s, p, StaleNow(s), reply, unacked);
    case Crash(_) =>
    case Enqueue(_, _, _, _, _, _, _, _) => EnqueueEffect(s, e, NewJob(e));
    case TimerFire(_, _) =>
    case Read(p, reply, unacked) =>
      if s.cursor <= |s.stream| { HandShape(s, p, Fetched(s), reply, unacked); }
    case Process(_, _, _, _) => EarnedProcess(s, e);
  }

  lemma {:induction false} EarnedRun(s: State, es: seq<Event>, id: string)
    requires Sound(s) && Earned(s) && Rationed(s, id) && Legal(s, es)
    ensures Earned(Run(s, es)) && Rationed(Run(s, es), id)
    decreases |es|
  {
    hide Sound, Earned, Rationed, Next;
    if es != [] {
      SoundStep(s, es[0]);
      EarnedStep(s, es[0]);
      RationedStep(s, es[0], id);
      EarnedRun(Next(s, es[0]), es[1..], id);
    }
  }

  /** In every run, thefts included: a job is sent at most ten times, and ten times
      more for every time it was reclaimed; its attempt numbers never exceed its
      acknowledged failures; and it is dropped only after ten of them. */
  lemma SendsAreBounded(minDelay: nat, es: seq<Event>, id: string)
    requires Legal(Init(minDelay), es)
    ensures var s := Run(Init(minDelay), es);
            && SendCount(s.sends, id) <= 10 * (1 + s.claims[id])
            && (id in s.dropped ==> Failures(s.sends, id) >= 10)
            && (forall k: nat :: At(s, id, InTimer(k)) ==> s.timers[k].job.attempts <= Failures(s.sends, id))
            && (forall m: nat :: At(s, id, InStream(m)) ==> s.stream[m].attempts <= Failures(s.sends, id))
  {
    var init, s := Init(minDelay), Run(Init(minDelay), es);
    InitSound(minDelay);
    forall n: nat ensures RationedAt(init, id, n) { UnknownIsNowhere(init, id, n); }
    EarnedRun(init, es, id);
    assert RationedAt(s, id, 0);
  }
}
