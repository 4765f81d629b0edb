/** What timers, unread entries and batches hold between them, weighed job by job,
    and how each step changes the total. Copies count: a job that a theft has put
    into two batches weighs twice. */
module DeliveryHoldings {
  import opened Sums
  import opened Wrappers
  import opened WebhookJob
  import opened Delivery
  import opened DeliverySafety
  import opened DeliveryAttempts

  type Weight = Job -> nat

  /** What a job weighs in a timer, unread in the stream, and in a batch. */
  datatype Scale = Scale(timer: Weight, entry: Weight, copy: Weight)

  function TimerWeight(timers: map<nat, Timer>, k: nat, w: Weight): nat {
    if k in timers then w(timers[k].job) else 0
  }

  function TimerWeights(timers: map<nat, Timer>, w: Weight): nat -> nat {
    k => TimerWeight(timers, k, w)
  }

  function EntryWeights(stream: seq<Job>, cursor: nat, w: Weight): nat -> nat {
    m => if cursor <= m < |stream| then w(stream[m]) else 0
  }

  function BatchWeight(stream: seq<Job>, batch: seq<nat>, w: Weight): nat {
    if batch == [] then 0
    else (if batch[0] < |stream| then w(stream[batch[0]]) else 0) + BatchWeight(stream, batch[1..], w)
  }

  lemma HeadWeight(stream: seq<Job>, batch: seq<nat>, w: Weight)
    ensures BatchWeight(stream, [], w) == 0
    ensures batch != [] && batch[0] < |stream| ==>
              BatchWeight(stream, batch, w) == w(stream[batch[0]]) + BatchWeight(stream, batch[1..], w)
  { }

  function WorkerWeights(workers: map<nat, Worker>, stream: seq<Job>, w: Weight): nat -> nat {
    p => if p in workers then BatchWeight(stream, workers[p].batch, w) else 0
  }

  function InTimers(timers: map<nat, Timer>, w: Weight, serial: nat): nat {
    Sum(TimerWeights(timers, w), serial)
  }

  function Unread(stream: seq<Job>, cursor: nat, w: Weight): nat {
    Sum(EntryWeights(stream, cursor, w), |stream|)
  }

  function InBatches(workers: map<nat, Worker>, stream: seq<Job>, w: Weight, n: nat): nat {
    Sum(WorkerWeights(workers, stream, w), n)
  }

  /** Of the timers, of the unread entries, and of the batches of the workers below n. */
  function Total(s: State, scale: Scale, n: nat): nat {
    InTimers(s.timers, scale.timer, s.serial)
    + Unread(s.stream, s.cursor, scale.entry)
    + InBatches(s.workers, s.stream, scale.copy, n)
  }

  lemma FewerWorkers(s: State, scale: Scale, m: nat, n: nat)
    requires m <= n
    ensures Total(s, scale, m) <= Total(s, scale, n)
  {
    SumGrows(WorkerWeights(s.workers, s.stream, scale.copy), m, n);
  }

  // ----- one more, one less -----

  lemma {:induction false} BatchWeightStays(stream: seq<Job>, job: Job, batch: seq<nat>, w: Weight)
    requires Within(batch, |stream|)
    ensures BatchWeight(stream + [job], batch, w) == BatchWeight(stream, batch, w)
  {
    if batch != [] { BatchWeightStays(stream, job, batch[1..], w); }
  }

  lemma WorkersStay(s: State, job: Job, w: Weight, n: nat)
    requires forall p :: p in s.workers ==> Within(s.workers[p].batch, |s.stream|)
    ensures InBatches(s.workers, s.stream + [job], w, n) == InBatches(s.workers, s.stream, w, n)
  {
    hide BatchWeight, Within;
    var f, g := WorkerWeights(s.workers, s.stream + [job], w), WorkerWeights(s.workers, s.stream, w);
    forall p: nat ensures f(p) == g(p) {
      if p in s.workers { BatchWeightStays(s.stream, job, s.workers[p].batch, w); }
    }
    SumDiffers(f, g, n, n);
  }

  lemma EntryAdded(stream: seq<Job>, cursor: nat, job: Job, w: Weight)
    requires cursor <= |stream|
    ensures Unread(stream + [job], cursor, w) == Unread(stream, cursor, w) + w(job)
  {
    SumDiffers(EntryWeights(stream + [job], cursor, w), EntryWeights(stream, cursor, w), |stream|, |stream|);
  }

  lemma TimerAdded(timers: map<nat, Timer>, serial: nat, timer: Timer, w: Weight)
    ensures InTimers(timers[serial := timer], w, serial + 1) == InTimers(timers, w, serial) + w(timer.job)
  {
    SumDiffers(TimerWeights(timers[serial := timer], w), TimerWeights(timers, w), serial, serial);
  }

  lemma TimerGone(timers: map<nat, Timer>, serial: nat, k: nat, w: Weight)
    requires k in timers && k < serial
    ensures InTimers(timers - {k}, w, serial) + w(timers[k].job) == InTimers(timers, w, serial)
  {
    SumDiffers(TimerWeights(timers - {k}, w), TimerWeights(timers, w), k, serial);
  }

  lemma WorkerChanged(s: State, p: nat, worker: Worker, w: Weight, n: nat)
    requires p < n
    ensures InBatches(s.workers[p := worker], s.stream, w, n)
            + (if p in s.workers then BatchWeight(s.stream, s.workers[p].batch, w) else 0)
         == InBatches(s.workers, s.stream, w, n) + BatchWeight(s.stream, worker.batch, w)
  {
    SumDiffers(WorkerWeights(s.workers[p := worker], s.stream, w), WorkerWeights(s.workers, s.stream, w), p, n);
  }

  lemma {:induction false} ReadableWeight(stream: seq<Job>, mids: seq<nat>, w: Weight)
    requires Within(mids, |stream|)
    ensures BatchWeight(stream, ReadableOf(stream, mids), w) <= BatchWeight(stream, mids, w)
  {
    if mids != [] {
      ReadableWeight(stream, mids[1..], w);
      var rest := ReadableOf(stream, mids[1..]);
      if Readable(stream[mids[0]]) {
        assert ReadableOf(stream, mids) == [mids[0]] + rest && ([mids[0]] + rest)[1..] == rest;
      } else {
        assert ReadableOf(stream, mids) == rest;
      }
    }
  }

  /** What is read leaves the unread entries. */
  lemma {:induction false} ReadWeight(stream: seq<Job>, i: nat, j: nat, w: Weight)
    requires i <= j <= |stream|
    ensures Unread(stream, i, w) == Unread(stream, j, w) + BatchWeight(stream, Range(i, j), w)
    decreases j - i
  {
    if i < j {
      ReadWeight(stream, i + 1, j, w);
      SumDiffers(EntryWeights(stream, i, w), EntryWeights(stream, i + 1, w), i, |stream|);
      assert Range(i, j) == [i] + Range(i + 1, j) && Range(i, j)[1..] == Range(i + 1, j);
    }
  }

  /** A hand-over leaves all but the batch of its worker alone. */
  lemma HandShape(s: State, p: nat, mids: seq<nat>, reply: Reply, unacked: set<nat>)
    requires Within(mids, |s.stream|)
    ensures var s' := Hand(s, p, mids, reply, unacked);
            && s'.workers == s.workers[p := Worker(if reply.Answered? then ReadableOf(s.stream, mids) else [], s.now)]
            && s'.stream == s.stream && s'.cursor == s.cursor && s'.timers == s.timers && s'.serial == s.serial
            && s'.sends == s.sends && s'.claims == s.claims && s'.dropped == s.dropped
  {
    hide ReadableOf;
  }

  lemma HandedWeight(s: State, p: nat, mids: seq<nat>, reply: Reply, unacked: set<nat>, w: Weight, n: nat)
    requires Within(mids, |s.stream|) && p < n
    ensures var s' := Hand(s, p, mids, reply, unacked);
            InBatches(s'.workers, s'.stream, w, n)
            <= InBatches(s.workers, s.stream, w, n) + BatchWeight(s.stream, mids, w)
  {
    hide InBatches, BatchWeight, Hand, ReadableOf, Within;
    HandShape(s, p, mids, reply, unacked);
    HeadWeight(s.stream, [], w);
    ReadableWeight(s.stream, mids, w);
    WorkerChanged(s, p, Worker(if reply.Answered? then ReadableOf(s.stream, mids) else [], s.now), w, n);
  }

  // ----- each step -----

  lemma TimerTotal(s: State, e: Event, scale: Scale, n: nat)
    requires Sound(s) && e.TimerFire? && Enabled(s, e)
    ensures var job := s.timers[e.k].job;
            Total(Next(s, e), scale, n) + scale.timer(job) <= Total(s, scale, n) + scale.entry(AsRead(job))
  {
    hide InTimers, Unread, InBatches, BelowLimit, Within, Distinct, Sound, AsRead;
    SoundMeansBelowLimit(s);
    var job := AsRead(s.timers[e.k].job);
    TimerGone(s.timers, s.serial, e.k, scale.timer);
    EntryAdded(s.stream, s.cursor, job, scale.entry);
    WorkersStay(s, job, scale.copy, n);
  }

  lemma CrashTotal(s: State, e: Event, scale: Scale, n: nat)
    requires e.Crash? && Enabled(s, e)
    ensures Total(Next(s, e), scale, n) <= Total(s, scale, n)
  {
    hide Sum;
    var s' := CrashStep(s, e.p);
    SumAtMost(TimerWeights(s'.timers, scale.timer), TimerWeights(s.timers, scale.timer), s.serial);
    SumAtMost(WorkerWeights(s'.workers, s'.stream, scale.copy), WorkerWeights(s.workers, s.stream, scale.copy), n);
  }

  function NewJob(e: Event): Job
    requires e.Enqueue?
  {
    Job(e.jobID, e.eventType, e.userID, e.data, 0, e.createdAt, "")
  }

  lemma EnqueueTotal(s: State, e: Event, scale: Scale, n: nat)
    requires Sound(s) && e.Enqueue? && Enabled(s, e)
    ensures Total(Next(s, e), scale, n)
         <= Total(s, scale, n) + Max(scale.timer(NewJob(e)), scale.entry(AsRead(NewJob(e))))
  {
    hide Sound, InTimers, Unread, InBatches, EnqueueStep, BelowLimit, Within, Distinct, AsRead;
    SoundMeansBelowLimit(s);
    var job := NewJob(e);
    EnqueueEffect(s, e, job);
    TimerAdded(s.timers, s.serial, Timer(e.p, s.now + Max(s.minDelay, e.offset), job), scale.timer);
    EntryAdded(s.stream, s.cursor, AsRead(job), scale.entry);
    WorkersStay(s, AsRead(job), scale.copy, n);
  }

  function Fetched(s: State): seq<nat>
    requires s.cursor <= |s.stream|
  {
    Range(s.cursor, Min(s.cursor + BATCH_SIZE, |s.stream|))
  }

  lemma ReadTotal(s: State, e: Event, scale: Scale, n: nat)
    requires s.cursor <= |s.stream| && e.Read? && Enabled(s, e) && !e.reply.Refused? && e.p < n
    ensures Total(Next(s, e), scale, n) + BatchWeight(s.stream, Fetched(s), scale.entry)
         <= Total(s, scale, n) + BatchWeight(s.stream, Fetched(s), scale.copy)
  {
    hide InTimers, Unread, InBatches, BatchWeight, Hand, Range;
    ReadWeight(s.stream, s.cursor, Min(s.cursor + BATCH_SIZE, |s.stream|), scale.entry);
    HandShape(s, e.p, Fetched(s), e.reply, e.unacked);
    HandedWeight(s, e.p, Fetched(s), e.reply, e.unacked, scale.copy, n);
  }

  lemma StartTotal(s: State, e: Event, scale: Scale, n: nat)
    requires e.Start? && e.p < n
    ensures Total(Next(s, e), scale, n)
         <= Total(s, scale, n) + if e.reply.Refused? then 0 else BatchWeight(s.stream, StaleNow(s), scale.copy)
    ensures Next(s, e).claims
         == if e.reply.Refused? then s.claims else s.claims + multiset(IdsOf(s.stream, StaleNow(s)))
    ensures Next(s, e).sends == s.sends
  {
    hide InTimers, Unread, InBatches, BatchWeight, Hand, Stale, Within, IdsOf;
    if e.reply.Refused? {
      HeadWeight(s.stream, [], scale.copy);
      WorkerChanged(s, e.p, Worker([], s.now), scale.copy, n);
    } else {
      HandShape(s, e.p, StaleNow(s), e.reply, e.unacked);
      HandedWeight(s, e.p, StaleNow(s), e.reply, e.unacked, scale.copy, n);
    }
  }

  /** A send uses up its copy, and may put the job into a timer once more. */
  lemma ProcessTotal(s: State, e: Event, scale: Scale, n: nat)
    requires e.Process? && Enabled(s, e) && e.p < n
    ensures var job := s.stream[s.workers[e.p].batch[0]];
            var again := !e.ok && e.ack.Answered? && job.attempts + 1 < MAX_ATTEMPTS;
            var retry := job.(attempts := job.attempts + 1, lastError := e.error);
            Total(Next(s, e), scale, n) + scale.copy(job)
            <= Total(s, scale, n) + if again then scale.timer(retry) else 0
  {
    hide InTimers, Unread, InBatches, BatchWeight, ProcessStep;
    ProcessEffect(s, e);
    var mid, batch := s.workers[e.p].batch[0], s.workers[e.p].batch;
    WorkerChanged(s, e.p, Worker(batch[1..], s.now), scale.copy, n);
    HeadWeight(s.stream, batch, scale.copy);
    var retry := s.stream[mid].(attempts := s.stream[mid].attempts + 1, lastError := e.error);
    TimerAdded(s.timers, s.serial, Timer(e.p, s.now + RETRY_DELAY, retry), scale.timer);
  }

  // ----- small facts for its users -----

  lemma AttemptsInRange(s: State)
    requires Sound(s)
    ensures forall m :: 0 <= m < |s.stream| ==> 0 <= s.stream[m].attempts < 10
    ensures forall k :: k in s.timers ==> 0 <= s.timers[k].job.attempts < 10
  {
    assert forall m :: 0 <= m < |s.stream| ==> Ripe(s.births, s.stream[m], s.now);
    assert forall k :: k in s.timers ==> Ripe(s.births, s.timers[k].job, s.timers[k].fireAt);
  }

  /** The workers that a step names. */
  predicate NamesBelow(e: Event, n: nat) { e.Start? || e.Read? || e.Process? ==> e.p < n }
}
