/** What every run of the delivery protocol keeps, whatever crashes, restarts,
    lost answers, slow sends and concurrent workers it contains. */
module DeliverySafety {
  import opened Wrappers
  import opened WebhookJob
  import opened Delivery

  type Births = map<string, Birth>

  /** The earliest moment a job with this many failed attempts may be sent. */
  function Due(b: Birth, attempts: int): int {
    b.at + b.delay + attempts * RETRY_DELAY
  }

  /** The job is one that was enqueued, unchanged but for its retry metadata, and
      its time has come by `t`. */
  ghost predicate Ripe(births: Births, job: Job, t: int) {
    && job.jobID in births
    && 0 <= job.attempts < MAX_ATTEMPTS
    && job.eventType == births[job.jobID].eventType
    && job.userID == births[job.jobID].userID
    && AsRead(job).data == Some(births[job.jobID].data)
    && job.createdAt == births[job.jobID].createdAt
    && Due(births[job.jobID], job.attempts) <= t
  }

  ghost predicate Sent(sends: seq<Send>, mid: nat) {
    exists i :: 0 <= i < |sends| && sends[i].mid == mid
  }

  ghost predicate PendingSound(pending: map<nat, Claim>, cursor: nat, now: nat) {
    forall m :: m in pending ==> m < cursor && pending[m].at <= now
  }

  ghost predicate BatchSound(w: Worker, stream: seq<Job>, cursor: nat, now: nat) {
    && w.since <= now && |w.batch| <= BATCH_SIZE && Distinct(w.batch)
    && forall m :: m in w.batch ==> m < cursor && m < |stream| && Readable(stream[m])
  }

  ghost predicate WorkersSound(workers: map<nat, Worker>, stream: seq<Job>, cursor: nat, now: nat) {
    forall p :: p in workers ==> BatchSound(workers[p], stream, cursor, now)
  }

  ghost predicate TimersSound(timers: map<nat, Timer>, serial: nat, births: Births) {
    forall k :: k in timers ==> k < serial && Ripe(births, timers[k].job, timers[k].fireAt)
  }

  ghost predicate StreamSound(stream: seq<Job>, births: Births, now: nat) {
    forall m :: 0 <= m < |stream| ==> Ripe(births, stream[m], now) && AsRead(stream[m]) == stream[m]
  }

  /** Each send was of a job in the stream that had been read, and was not early. */
  ghost predicate SendsSound(sends: seq<Send>, stream: seq<Job>, cursor: nat, births: Births, now: nat) {
    forall i :: 0 <= i < |sends| ==>
      && sends[i].mid < cursor && sends[i].mid < |stream| && sends[i].job == stream[sends[i].mid]
      && sends[i].at <= now && Ripe(births, sends[i].job, sends[i].at)
  }

  /** A message that was read and is no longer pending was sent, unless corrupt. */
  ghost predicate Accounted(stream: seq<Job>, cursor: nat, pending: map<nat, Claim>, sends: seq<Send>) {
    forall m :: 0 <= m < cursor && m < |stream| && m !in pending && Readable(stream[m]) ==> Sent(sends, m)
  }

  ghost predicate BirthsSound(births: Births, now: nat) {
    forall id :: id in births ==> id != "" && births[id].at <= now
  }

  ghost predicate Sound(s: State) {
    && s.cursor <= |s.stream|
    && PendingSound(s.pending, s.cursor, s.now)
    && WorkersSound(s.workers, s.stream, s.cursor, s.now)
    && TimersSound(s.timers, s.serial, s.births)
    && StreamSound(s.stream, s.births, s.now)
    && SendsSound(s.sends, s.stream, s.cursor, s.births, s.now)
    && Accounted(s.stream, s.cursor, s.pending, s.sends)
    && BirthsSound(s.births, s.now)
  }

  /** A job whose time has come may join the stream. */
  lemma SoundAppend(s: State, job: Job)
    requires Sound(s) && Ripe(s.births, job, s.now)
    ensures Sound(s.(stream := s.stream + [AsRead(job)]))
  {
    var stream := s.stream + [AsRead(job)];
    assert WorkersSound(s.workers, stream, s.cursor, s.now) by {
      assert forall p :: p in s.workers ==> BatchSound(s.workers[p], s.stream, s.cursor, s.now);
    }
    assert Ripe(s.births, AsRead(job), s.now);
  }

  lemma SoundDelay(s: State, timer: Timer)
    requires Sound(s) && Ripe(s.births, timer.job, timer.fireAt)
    ensures Sound(s.(timers := s.timers[s.serial := timer], serial := s.serial + 1))
  {
    hide StreamSound, SendsSound, WorkersSound, Accounted, BirthsSound, PendingSound, Ripe;
  }

  lemma SoundTimer(s: State, k: nat, add: Reply)
    requires Sound(s) && Enabled(s, TimerFire(k, add))
    ensures Sound(TimerStep(s, k, add))
  {
    hide StreamSound, SendsSound, WorkersSound, Accounted, BirthsSound, PendingSound;
    assert Ripe(s.births, s.timers[k].job, s.timers[k].fireAt);
    if !add.Refused? { SoundAppend(s.(timers := s.timers - {k}), s.timers[k].job); }
  }

  /** A new birth disturbs nothing already there. */
  lemma SoundBirth(s: State, id: string, b: Birth)
    requires Sound(s) && id !in s.births && id != "" && b.at <= s.now
    ensures Sound(s.(births := s.births[id := b]))
  {
    hide WorkersSound, Accounted, PendingSound;
    var births := s.births[id := b];
    assert forall job, t :: Ripe(s.births, job, t) ==> Ripe(births, job, t);
  }

  /** Enqueueing, field by field. */
  lemma EnqueueEffect(s: State, e: Event, job: Job)
    requires e.Enqueue? && job == Job(e.jobID, e.eventType, e.userID, e.data, 0, e.createdAt, "")
    ensures var s' := EnqueueStep(s, e);
            var delay := Max(s.minDelay, e.offset);
            && s'.timers == (if delay > 0 then s.timers[s.serial := Timer(e.p, s.now + delay, job)] else s.timers)
            && s'.serial == (if delay > 0 then s.serial + 1 else s.serial)
            && s'.stream == (if delay > 0 || e.add.Refused? then s.stream else s.stream + [AsRead(job)])
            && s'.cursor == s.cursor && s'.pending == s.pending && s'.now == s.now && s'.minDelay == s.minDelay
            && s'.workers == s.workers && s'.sends == s.sends && s'.claims == s.claims && s'.dropped == s.dropped
  { }

  lemma SoundEnqueue(s: State, e: Event)
    requires Sound(s) && e.Enqueue? && Enabled(s, e)
    ensures Sound(EnqueueStep(s, e))
  {
    hide Sound;
    var job := Job(e.jobID, e.eventType, e.userID, e.data, 0, e.createdAt, "");
    var delay: nat := Max(s.minDelay, e.offset);
    var b := Birth(s.now, delay, e.eventType, e.userID, AsRead(job).data.value, e.createdAt);
    var born := s.(births := s.births[e.jobID := b]);
    SoundBirth(s, e.jobID, b);
    if delay > 0 { SoundDelay(born, Timer(e.p, s.now + delay, job)); }
    else if !e.add.Refused? { SoundAppend(born, job); }
  }

  /** What a hand-over does to the pending list and to its worker. */
  lemma HandEffect(s: State, p: nat, mids: seq<nat>, reply: Reply, unacked: set<nat>)
    requires Within(mids, |s.stream|)
    ensures var s' := Hand(s, p, mids, reply, unacked);
            var corrupt := if reply.Answered? then set m | m in mids && !Readable(s.stream[m]) && m !in unacked else {};
            && (forall m :: m in s'.pending <==> (m in s.pending || m in mids) && m !in corrupt)
            && (forall m :: m in s'.pending ==> s'.pending[m] == if m in mids then Claim(p, s.now) else s.pending[m])
            && s'.workers == s.workers[p := Worker(if reply.Answered? then ReadableOf(s.stream, mids) else [], s.now)]
            && s'.stream == s.stream && s'.cursor == s.cursor && s'.now == s.now && s'.births == s.births
            && s'.timers == s.timers && s'.serial == s.serial && s'.sends == s.sends
            && s'.vanished == s.vanished && s'.claims == s.claims
  {
    hide ReadableOf;
  }

  lemma HandKeepsCursor(s: State, p: nat, mids: seq<nat>, reply: Reply, unacked: set<nat>)
    requires Within(mids, |s.stream|)
    ensures Hand(s, p, mids, reply, unacked).(cursor := s.cursor) == Hand(s, p, mids, reply, unacked)
  { }

  lemma SoundHand(s: State, p: nat, mids: seq<nat>, reply: Reply, unacked: set<nat>, cursor: nat)
    requires Sound(s) && s.cursor <= cursor <= |s.stream|
    requires Distinct(mids) && |mids| <= BATCH_SIZE
    requires forall m :: m in mids ==> m < cursor
    requires forall m :: s.cursor <= m < cursor ==> m in mids
    requires Within(mids, |s.stream|)
    ensures Sound(Hand(s, p, mids, reply, unacked).(cursor := cursor))
  {
    hide StreamSound, BirthsSound, TimersSound, Ripe, ReadableOf, Hand;
    HandEffect(s, p, mids, reply, unacked);
    var s' := Hand(s, p, mids, reply, unacked).(cursor := cursor);
    ReadableOfContents(s.stream, mids);
    assert WorkersSound(s'.workers, s'.stream, s'.cursor, s'.now) by {
      forall q | q in s'.workers ensures BatchSound(s'.workers[q], s.stream, cursor, s.now) {
        if q != p { assert BatchSound(s.workers[q], s.stream, s.cursor, s.now); }
      }
    }
    assert Accounted(s'.stream, s'.cursor, s'.pending, s'.sends) by {
      assert forall m :: m in s.pending && m !in s'.pending ==> !Readable(s.stream[m]);
      assert forall m :: s.cursor <= m < cursor && m !in s'.pending ==> !Readable(s.stream[m]);
    }
  }

  lemma SentGrows(sends: seq<Send>, x: Send)
    ensures Sent(sends + [x], x.mid)
    ensures forall m :: Sent(sends, m) ==> Sent(sends + [x], m)
  {
    var all := sends + [x];
    assert all[|sends|] == x;
    forall m | Sent(sends, m) ensures Sent(all, m) {
      var i :| 0 <= i < |sends| && sends[i].mid == m;
      assert all[i].mid == m;
    }
  }

  lemma SoundSendHead(s: State, e: Event)
    requires Sound(s) && e.Process? && Enabled(s, e)
    ensures Sound(SendHead(s, e)) && s.workers[e.p].batch[0] < s.cursor
    ensures Sent(SendHead(s, e).sends, s.workers[e.p].batch[0])
  {
    var w := s.workers[e.p];
    assert BatchSound(w, s.stream, s.cursor, s.now);
    assert w.batch[0] in w.batch;
    var x := Send(w.batch[0], s.stream[w.batch[0]], s.now, e.ok, e.ack.Answered?);
    SentGrows(s.sends, x);
    assert SendsSound(s.sends + [x], s.stream, s.cursor, s.births, s.now);
    forall q | q in SendHead(s, e).workers
      ensures BatchSound(SendHead(s, e).workers[q], s.stream, s.cursor, s.now)
    {
      if q != e.p { assert BatchSound(s.workers[q], s.stream, s.cursor, s.now); }
      else { assert forall m :: m in w.batch[1..] ==> m in w.batch; }
    }
  }

  lemma RipeAgain(births: Births, job: Job, now: nat, error: string)
    requires Ripe(births, job, now) && job.attempts + 1 < MAX_ATTEMPTS
    ensures Ripe(births, job.(attempts := job.attempts + 1, lastError := error), now + RETRY_DELAY)
  { }

  lemma SoundRetry(s: State, p: nat, mid: nat, ack: Reply, error: string)
    requires Sound(s) && mid < s.cursor && mid < |s.stream| && Sent(s.sends, mid)
    ensures Sound(RetryStep(s, p, mid, ack, error))
  {
    hide Ripe, WorkersSound, SendsSound, BirthsSound, TimersSound;
    var job, acked := s.stream[mid], s.(pending := s.pending - {mid});
    assert StreamSound(s.stream, s.births, s.now) && Ripe(s.births, job, s.now);
    if ack.Answered? && job.attempts + 1 < MAX_ATTEMPTS {
      RipeAgain(s.births, job, s.now, error);
      SoundDelay(acked, Timer(p, s.now + RETRY_DELAY, job.(attempts := job.attempts + 1, lastError := error)));
    }
  }

  /** What a send leaves behind, whatever becomes of it. */
  lemma ProcessEffect(s: State, e: Event)
    requires e.Process? && Enabled(s, e)
    ensures var s', mid := ProcessStep(s, e), s.workers[e.p].batch[0];
            && s'.stream == s.stream && s'.cursor == s.cursor && s'.now == s.now && s'.minDelay == s.minDelay
            && s'.births == s.births && s'.claims == s.claims && s'.skipped == s.skipped
            && s'.sends == s.sends + [Send(mid, s.stream[mid], s.now, e.ok, e.ack.Answered?)]
            && s'.workers == s.workers[e.p := Worker(s.workers[e.p].batch[1..], s.now)]
            && s'.pending == (if e.ack.Refused? then s.pending else s.pending - {mid})
            && s'.delivered == (if e.ok && !e.ack.Refused? then s.delivered + {s.stream[mid].jobID} else s.delivered)
            && s'.vanished == (if !e.ok && e.ack.ReplyLost? then s.vanished + {s.stream[mid].jobID} else s.vanished)
            && var last := s.stream[mid].attempts + 1 >= MAX_ATTEMPTS;
            && s'.dropped == (if !e.ok && e.ack.Answered? && last then s.dropped + {s.stream[mid].jobID} else s.dropped)
            && var retry := s.stream[mid].(attempts := s.stream[mid].attempts + 1, lastError := e.error);
            && s'.serial == (if !e.ok && e.ack.Answered? && !last then s.serial + 1 else s.serial)
            && s'.timers == (if !e.ok && e.ack.Answered? && !last
                             then s.timers[s.serial := Timer(e.p, s.now + RETRY_DELAY, retry)] else s.timers)
  { }

  lemma SoundProcess(s: State, e: Event)
    requires Sound(s) && e.Process? && Enabled(s, e)
    ensures Sound(ProcessStep(s, e))
  {
    SoundSendHead(s, e);
    var mid := s.workers[e.p].batch[0];
    var t := SendHead(s, e);
    SoundRetry(t, e.p, mid, e.ack, e.error);
    assert Accounted(t.stream, t.cursor, t.pending - {mid}, t.sends);
  }

  lemma SoundTickOrCrash(s: State, e: Event)
    requires Sound(s) && (e.Tick? || e.Crash?) && Enabled(s, e)
    ensures Sound(Next(s, e))
  {
    var s' := Next(s, e);
    assert forall p :: p in s'.workers ==> BatchSound(s.workers[p], s.stream, s.cursor, s.now);
  }

  /** A worker with an empty batch is sound. */
  lemma SoundIdle(s: State, p: nat)
    requires Sound(s)
    ensures Sound(s.(workers := s.workers[p := Worker([], s.now)]))
  {
    hide StreamSound, SendsSound, Accounted, BirthsSound, PendingSound, TimersSound;
    assert forall q :: q in s.workers ==> BatchSound(s.workers[q], s.stream, s.cursor, s.now);
  }

  lemma StaleWereRead(s: State)
    requires Sound(s)
    ensures forall m :: m in StaleNow(s) ==> m < s.cursor
  {
    hide StreamSound, SendsSound, Accounted, BirthsSound, WorkersSound, TimersSound, Stale;
  }

  lemma SoundStart(s: State, e: Event)
    requires Sound(s) && e.Start?
    ensures Sound(StartStep(s, e.p, e.reply, e.unacked))
  {
    hide StreamSound, SendsSound, Accounted, BirthsSound, WorkersSound, TimersSound, PendingSound, Hand, Stale;
    if e.reply.Refused? {
      SoundIdle(s, e.p);
    } else {
      StaleWereRead(s);
      HandKeepsCursor(s, e.p, StaleNow(s), e.reply, e.unacked);
      SoundHand(s, e.p, StaleNow(s), e.reply, e.unacked, s.cursor);
    }
  }

  lemma SoundRead(s: State, e: Event)
    requires Sound(s) && e.Read? && Enabled(s, e)
    ensures Sound(ReadStep(s, e.p, e.reply, e.unacked))
  {
    hide StreamSound, SendsSound, Accounted, BirthsSound, WorkersSound, TimersSound, PendingSound, Hand;
    if !e.reply.Refused? {
      var end := Min(s.cursor + BATCH_SIZE, |s.stream|);
      SoundHand(s, e.p, Range(s.cursor, end), e.reply, e.unacked, end);
    }
  }

  lemma SoundStep(s: State, e: Event)
    requires Sound(s) && Enabled(s, e)
    ensures Sound(Next(s, e))
  {
    hide Sound, StartStep, ReadStep, ProcessStep, CrashStep, EnqueueStep, TimerStep;
    match e
    case Tick(_) => SoundTickOrCrash(s, e);
    case Crash(_) => SoundTickOrCrash(s, e);
    case Start(_, _, _) => SoundStart(s, e);
    case Read(_, _, _) => SoundRead(s, e);
    case Enqueue(_, _, _, _, _, _, _, _) => SoundEnqueue(s, e);
    case TimerFire(k, add) => SoundTimer(s, k, add);
    case Process(_, _, _, _) => SoundProcess(s, e);
  }

  /** Only jobs without an event type are skipped as corrupt, and no such job is
      ever sent. */
  ghost predicate FatesFit(s: State) {
    && (forall id :: id in s.skipped ==> id in s.births && s.births[id].eventType == "")
    && (forall id :: id in s.delivered + s.dropped ==> id in s.births && s.births[id].eventType != "")
  }

  lemma FatesFitHand(s: State, p: nat, mids: seq<nat>, reply: Reply, unacked: set<nat>)
    requires StreamSound(s.stream, s.births, s.now) && BirthsSound(s.births, s.now) && FatesFit(s)
    requires Within(mids, |s.stream|)
    ensures FatesFit(Hand(s, p, mids, reply, unacked))
  {
    assert forall m :: m in mids ==> Ripe(s.births, s.stream[m], s.now);
  }

  lemma FatesFitProcess(s: State, e: Event)
    requires Sound(s) && FatesFit(s) && e.Process? && Enabled(s, e)
    ensures FatesFit(ProcessStep(s, e))
  {
    hide ProcessStep, Accounted, TimersSound, PendingSound, SendsSound;
    ProcessEffect(s, e);
    var mid := s.workers[e.p].batch[0];
    assert BatchSound(s.workers[e.p], s.stream, s.cursor, s.now);
    assert mid in s.workers[e.p].batch;
    assert Ripe(s.births, s.stream[mid], s.now);
  }

  lemma FatesFitEnqueue(s: State, e: Event)
    requires FatesFit(s) && e.Enqueue? && Enabled(s, e)
    ensures FatesFit(EnqueueStep(s, e))
  {
    var s' := EnqueueStep(s, e);
    assert s'.skipped == s.skipped && s'.delivered == s.delivered && s'.dropped == s.dropped;
    assert forall id :: id in s.births ==> id in s'.births && s'.births[id] == s.births[id];
  }

  lemma FatesFitStep(s: State, e: Event)
    requires Sound(s) && FatesFit(s) && Enabled(s, e)
    ensures FatesFit(Next(s, e))
  {
    hide ProcessStep, Hand, Ripe, EnqueueStep, Stale, WorkersSound, Accounted, TimersSound, PendingSound, SendsSound;
    match e
    case Tick(_) =>
    case Crash(_) =>
    case TimerFire(_, _) =>
    case Start(p, reply, unacked) =>
      if !reply.Refused? { FatesFitHand(s, p, StaleNow(s), reply, unacked); }
    case Read(p, reply, unacked) =>
      FatesFitHand(s, p, Range(s.cursor, Min(s.cursor + BATCH_SIZE, |s.stream|)), reply, unacked);
    case Enqueue(_, _, _, _, _, _, _, _) => FatesFitEnqueue(s, e);
    case Process(_, _, _, _) => FatesFitProcess(s, e);
  }

  lemma {:induction false} FatesFitRun(s: State, es: seq<Event>)
    requires Sound(s) && FatesFit(s) && Legal(s, es)
    ensures FatesFit(Run(s, es))
    decreases |es|
  {
    if es != [] {
      SoundStep(s, es[0]);
      FatesFitStep(s, es[0]);
      FatesFitRun(Next(s, es[0]), es[1..]);
    }
  }

  lemma {:induction false} SoundRun(s: State, es: seq<Event>)
    requires Sound(s) && Legal(s, es)
    ensures Sound(Run(s, es))
    decreases |es|
  {
    if es != [] {
      SoundStep(s, es[0]);
      SoundRun(Next(s, es[0]), es[1..]);
    }
  }

  lemma {:induction false} BirthsKept(s: State, es: seq<Event>)
    requires Legal(s, es)
    ensures Run(s, es).minDelay == s.minDelay
    ensures forall id :: id in s.births ==> id in Run(s, es).births && Run(s, es).births[id] == s.births[id]
    decreases |es|
  {
    if es != [] {
      var s' := Next(s, es[0]);
      assert s'.minDelay == s.minDelay;
      assert forall id :: id in s.births ==> id in s'.births && s'.births[id] == s.births[id];
      BirthsKept(s', es[1..]);
    }
  }

  lemma InitSound(minDelay: nat)
    ensures Sound(Init(minDelay))
  { }

  /** What is recorded of an accepted job. */
  lemma NewBirth(s: State, e: Event)
    requires e.Enqueue? && Enabled(s, e) && e.jobID in Next(s, e).births
    ensures Next(s, e).births[e.jobID] == Birth(s.now, Max(s.minDelay, e.offset), e.eventType, e.userID,
                                                if e.data == None then map[] else e.data.value, e.createdAt)
  { }

  lemma SendIsRipe(s: State, i: nat)
    requires Sound(s) && i < |s.sends|
    ensures Ripe(s.births, s.sends[i].job, s.sends[i].at) && AsRead(s.sends[i].job) == s.sends[i].job
  {
    hide Ripe;
  }

  lemma RipeMeans(s: State, i: nat, id: string)
    requires i < |s.sends| && s.sends[i].job.jobID == id
    requires Ripe(s.births, s.sends[i].job, s.sends[i].at) && AsRead(s.sends[i].job) == s.sends[i].job
    ensures id in s.births
    ensures var send, b := s.sends[i], s.births[id];
            && send.job.eventType == b.eventType && send.job.userID == b.userID && send.job.createdAt == b.createdAt
            && send.job.data == Some(b.data) && 0 <= send.job.attempts < MAX_ATTEMPTS
            && send.at >= b.at + b.delay + 3 * SECOND * send.job.attempts
  { }

  /** In every run, faults included, every send of a job carries the event, user
      and data that were enqueued (nil data as the empty map), its attempt number
      is below the limit, and it is not made before the enqueue time plus the
      larger of the two delays plus three seconds for every earlier attempt. */
  lemma SendsAreFaithfulAndNeverEarly(minDelay: nat, before: seq<Event>, e: Event, after: seq<Event>, i: nat)
    requires Legal(Init(minDelay), before) && e.Enqueue?
    requires var s := Run(Init(minDelay), before);
             Enabled(s, e) && e.jobID in Next(s, e).births && Legal(Next(s, e), after)
    requires var s := Run(Init(minDelay), before);
             var sends := Run(Next(s, e), after).sends;
             i < |sends| && sends[i].job.jobID == e.jobID
    ensures var s := Run(Init(minDelay), before);
            var send := Run(Next(s, e), after).sends[i];
            && send.job.eventType == e.eventType && send.job.userID == e.userID && send.job.createdAt == e.createdAt
            && send.job.data == Some(if e.data == None then map[] else e.data.value)
            && 0 <= send.job.attempts < MAX_ATTEMPTS
            && send.at >= s.now + Max(minDelay, e.offset) + 3 * SECOND * send.job.attempts
  {
    hide Sound, Next, Due;
    InitSound(minDelay);
    SoundRun(Init(minDelay), before);
    var s := Run(Init(minDelay), before);
    SoundStep(s, e);
    SoundRun(Next(s, e), after);
    BirthsKept(Init(minDelay), before);
    BirthsKept(Next(s, e), after);
    NewBirth(s, e);
    SendIsRipe(Run(Next(s, e), after), i);
    RipeMeans(Run(Next(s, e), after), i, e.jobID);
  }

  /** A message leaves the pending list only after a send for it, unless it was
      corrupt: in every run, whatever is read and not pending was sent. */
  lemma OnlySentMessagesLeavePending(minDelay: nat, es: seq<Event>, mid: nat)
    requires Legal(Init(minDelay), es)
    requires var s := Run(Init(minDelay), es);
             mid < s.cursor && mid !in s.pending && mid < |s.stream| && Readable(s.stream[mid])
    ensures Sent(Run(Init(minDelay), es).sends, mid)
  {
    SoundRun(Init(minDelay), es);
  }

  // ----- delivered means sent -----

  ghost predicate SentWell(sends: seq<Send>, id: string) {
    exists i :: 0 <= i < |sends| && sends[i].job.jobID == id && sends[i].ok
  }

  ghost predicate DeliveredSound(s: State) { forall id :: id in s.delivered ==> SentWell(s.sends, id) }

  lemma SentWellGrows(sends: seq<Send>, x: Send)
    ensures forall id :: SentWell(sends, id) ==> SentWell(sends + [x], id)
    ensures x.ok ==> SentWell(sends + [x], x.job.jobID)
  {
    var all := sends + [x];
    assert all[|sends|] == x;
    forall id | SentWell(sends, id) ensures SentWell(all, id) {
      var i :| 0 <= i < |sends| && sends[i].job.jobID == id && sends[i].ok;
      assert all[i] == sends[i];
    }
  }

  lemma DeliveredStep(s: State, e: Event)
    requires DeliveredSound(s) && Enabled(s, e)
    ensures DeliveredSound(Next(s, e))
  {
    hide ProcessStep, SentWell, ReadableOf, Stale, Range, AsRead;
    if e.Process? {
      ProcessEffect(s, e);
      var mid := s.workers[e.p].batch[0];
      SentWellGrows(s.sends, Send(mid, s.stream[mid], s.now, e.ok, e.ack.Answered?));
    } else {
      assert Next(s, e).delivered == s.delivered && Next(s, e).sends == s.sends;
    }
  }

  lemma {:induction false} DeliveredRun(s: State, es: seq<Event>)
    requires DeliveredSound(s) && Legal(s, es)
    ensures DeliveredSound(Run(s, es))
    decreases |es|
  {
    hide DeliveredSound, Next;
    if es != [] {
      DeliveredStep(s, es[0]);
      DeliveredRun(Next(s, es[0]), es[1..]);
    }
  }

  /** In every run a job that counts as delivered has had a send that succeeded. */
  lemma DeliveredWasSent(minDelay: nat, es: seq<Event>, id: string)
    requires Legal(Init(minDelay), es) && id in Run(Init(minDelay), es).delivered
    ensures var sends := Run(Init(minDelay), es).sends;
            exists i :: 0 <= i < |sends| && sends[i].job.jobID == id && sends[i].ok
  {
    DeliveredRun(Init(minDelay), es);
    assert SentWell(Run(Init(minDelay), es).sends, id);
  }
}
