/** Counting sends. In runs without theft a job's attempt number is the number of its
    failed sends that were acknowledged, a job is dropped after exactly ten of
    them, and its sends number at most ten plus the times it was reclaimed. */
module DeliveryAttempts {
  import opened Wrappers
  import opened WebhookJob
  import opened Delivery
  import opened DeliverySafety
  import opened DeliveryPlaces
  import opened DeliveryExclusive

  function SendCount(sends: seq<Send>, id: string): nat {
    if sends == [] then 0
    else SendCount(sends[..|sends| - 1], id) + if sends[|sends| - 1].job.jobID == id then 1 else 0
  }

  predicate IsFailure(x: Send, id: string) { x.job.jobID == id && !x.ok && x.acked }

  /** Failed sends whose message was then acknowledged. */
  function Failures(sends: seq<Send>, id: string): nat {
    if sends == [] then 0
    else Failures(sends[..|sends| - 1], id) + if IsFailure(sends[|sends| - 1], id) then 1 else 0
  }

  lemma CountOneMore(sends: seq<Send>, x: Send, id: string)
    ensures SendCount(sends + [x], id) == SendCount(sends, id) + if x.job.jobID == id then 1 else 0
    ensures Failures(sends + [x], id) == Failures(sends, id) + if IsFailure(x, id) then 1 else 0
  {
    assert (sends + [x])[..|sends|] == sends;
  }

  lemma {:induction false} CountNone(sends: seq<Send>, id: string)
    requires forall i :: 0 <= i < |sends| ==> sends[i].job.jobID != id
    ensures SendCount(sends, id) == 0 && Failures(sends, id) == 0
  {
    if sends != [] {
      CountNone(sends[..|sends| - 1], id);
    }
  }

  type Claims = multiset<string>

  /** `due` sends are still to come without any further reclaiming. */
  ghost predicate Tally(sends: seq<Send>, claims: Claims, job: Job, due: nat) {
    && Failures(sends, job.jobID) == job.attempts
    && SendCount(sends, job.jobID) + due <= job.attempts + 1 + claims[job.jobID]
  }

  ghost predicate TimersTallied(s: State) {
    forall k :: k in s.timers ==> Tally(s.sends, s.claims, s.timers[k].job, 1)
  }

  ghost predicate EntriesTallied(s: State) {
    forall m: nat :: LiveEntry(s, m) ==> Tally(s.sends, s.claims, s.stream[m], if s.cursor <= m then 1 else 0)
  }

  ghost predicate BatchTallied(s: State, batch: seq<nat>) {
    forall m :: m in batch && m < |s.stream| ==> Tally(s.sends, s.claims, s.stream[m], 1)
  }

  ghost predicate BatchesTallied(s: State) {
    forall p :: p in s.workers ==> BatchTallied(s, s.workers[p].batch)
  }

  ghost predicate Spent(sends: seq<Send>, claims: Claims, id: string) {
    SendCount(sends, id) <= MAX_ATTEMPTS + claims[id]
  }

  ghost predicate FatesTallied(s: State) {
    && (forall id :: id in s.dropped ==> Failures(s.sends, id) == MAX_ATTEMPTS && Spent(s.sends, s.claims, id))
    && (forall id :: id in s.delivered + s.skipped + s.vanished ==>
          Failures(s.sends, id) < MAX_ATTEMPTS && Spent(s.sends, s.claims, id))
  }

  ghost predicate Tallied(s: State) {
    TimersTallied(s) && EntriesTallied(s) && BatchesTallied(s) && FatesTallied(s)
  }

  /** Attempt numbers of the jobs that are still under way. */
  ghost predicate BelowLimit(s: State) {
    && (forall k :: k in s.timers ==> s.timers[k].job.attempts < MAX_ATTEMPTS)
    && (forall m :: 0 <= m < |s.stream| ==> s.stream[m].attempts < MAX_ATTEMPTS)
  }

  // ----- steps without a send -----

  lemma TalliedTimer(s: State, k: nat, add: Reply)
    requires Tallied(s) && Framed(s) && BelowLimit(s) && Enabled(s, TimerFire(k, add))
    requires forall p :: p in s.workers ==> Within(s.workers[p].batch, |s.stream|)
    ensures Tallied(TimerStep(s, k, add))
  {
    var s' := TimerStep(s, k, add);
    assert Tally(s.sends, s.claims, s.timers[k].job, 1);
    assert forall m: nat :: LiveEntry(s', m) ==> LiveEntry(s, m) || m == |s.stream|;
    forall p | p in s'.workers ensures BatchTallied(s', s'.workers[p].batch) {
      assert BatchTallied(s, s.workers[p].batch);
    }
  }

  lemma TalliedEnqueue(s: State, e: Event)
    requires Tallied(s) && Framed(s) && e.Enqueue? && Enabled(s, e)
    requires forall p :: p in s.workers ==> Within(s.workers[p].batch, |s.stream|)
    requires forall i :: 0 <= i < |s.sends| ==> s.sends[i].job.jobID != e.jobID
    ensures Tallied(EnqueueStep(s, e))
  {
    var s' := EnqueueStep(s, e);
    CountNone(s.sends, e.jobID);
    assert forall m: nat :: LiveEntry(s', m) ==> LiveEntry(s, m) || m == |s.stream|;
    forall p | p in s'.workers ensures BatchTallied(s', s'.workers[p].batch) {
      assert BatchTallied(s, s.workers[p].batch);
    }
  }

  lemma TalliedCrash(s: State, p: nat)
    requires Tallied(s) && BelowLimit(s)
    ensures Tallied(CrashStep(s, p))
  {
    var s' := CrashStep(s, p);
    forall q | q in s'.workers ensures BatchTallied(s', s'.workers[q].batch) {
      assert BatchTallied(s, s.workers[q].batch);
    }
    assert forall m: nat :: LiveEntry(s', m) ==> LiveEntry(s, m);
  }

  /** More claims leave every tally good, and pay for one more send of each. */
  lemma ClaimsOnlyHelp(s: State, more: Claims)
    requires Tallied(s)
    ensures Tallied(s.(claims := s.claims + more))
    ensures forall m: nat :: LiveEntry(s, m) && s.stream[m].jobID in more ==>
                               Tally(s.sends, s.claims + more, s.stream[m], 1)
  {
    var s' := s.(claims := s.claims + more);
    forall q | q in s'.workers ensures BatchTallied(s', s'.workers[q].batch) {
      assert BatchTallied(s, s.workers[q].batch);
    }
    assert forall m: nat :: LiveEntry(s', m) ==> LiveEntry(s, m);
  }

  lemma TalliedHand(s: State, p: nat, mids: seq<nat>, reply: Reply, unacked: set<nat>, cursor: nat)
    requires Tallied(s) && Framed(s) && BelowLimit(s) && s.cursor <= cursor <= |s.stream|
    requires Within(mids, |s.stream|)
    requires forall m :: m in mids ==> LiveEntry(s, m) && Tally(s.sends, s.claims, s.stream[m], 1)
    requires forall m :: s.cursor <= m < cursor ==> m in mids
    ensures Tallied(Hand(s, p, mids, reply, unacked).(cursor := cursor))
  {
    var s' := Hand(s, p, mids, reply, unacked).(cursor := cursor);
    assert forall m: nat :: LiveEntry(s', m) ==> LiveEntry(s, m);
    forall q | q in s'.workers ensures BatchTallied(s', s'.workers[q].batch) {
      if q != p { assert BatchTallied(s, s.workers[q].batch); }
      else { ReadableOfContents(s.stream, mids); }
    }
    assert FatesTallied(s');
  }

  // ----- a send -----

  lemma SendTally(s: State, e: Event)
    requires e.Process? && Enabled(s, e)
    ensures var mid := s.workers[e.p].batch[0];
            var s' := ProcessStep(s, e);
            && s'.claims == s.claims
            && (forall id :: id != s.stream[mid].jobID ==>
                  SendCount(s'.sends, id) == SendCount(s.sends, id) && Failures(s'.sends, id) == Failures(s.sends, id))
            && SendCount(s'.sends, s.stream[mid].jobID) == SendCount(s.sends, s.stream[mid].jobID) + 1
            && Failures(s'.sends, s.stream[mid].jobID)
            == Failures(s.sends, s.stream[mid].jobID) + if !e.ok && e.ack.Answered? then 1 else 0
  {
    hide ProcessStep;
    ProcessEffect(s, e);
    var mid := s.workers[e.p].batch[0];
    var x := Send(mid, s.stream[mid], s.now, e.ok, e.ack.Answered?);
    forall id
      ensures SendCount(s.sends + [x], id) == SendCount(s.sends, id) + (if x.job.jobID == id then 1 else 0)
      ensures Failures(s.sends + [x], id) == Failures(s.sends, id) + (if IsFailure(x, id) then 1 else 0)
    {
      CountOneMore(s.sends, x, id);
    }
  }

  /** The job being sent is nowhere else, so no other tally is disturbed. */
  ghost predicate Alone(s: State, mid: nat)
    requires mid < |s.stream|
  {
    && LiveEntry(s, mid)
    && (forall k :: k in s.timers ==> s.timers[k].job.jobID != s.stream[mid].jobID)
    && (forall m: nat :: LiveEntry(s, m) && m != mid ==> s.stream[m].jobID != s.stream[mid].jobID)
    && s.stream[mid].jobID !in s.delivered + s.dropped + s.skipped + s.vanished
  }

  lemma PlacedAlone(s: State, at: Places, mid: nat)
    requires Placed(s, at) && LiveEntry(s, mid)
    ensures Alone(s, mid)
  {
    var id := s.stream[mid].jobID;
    assert At(s, id, InStream(mid));
    assert forall k :: k in s.timers && s.timers[k].job.jobID == id ==> At(s, id, InTimer(k));
    assert forall m: nat :: LiveEntry(s, m) && s.stream[m].jobID == id ==> At(s, id, InStream(m));
    assert !At(s, id, WasDelivered) && !At(s, id, WasDropped) && !At(s, id, WasSkipped) && !At(s, id, HasVanished);
  }

  lemma HeadTally(s: State, e: Event)
    requires Tallied(s) && e.Process? && Enabled(s, e)
    ensures Tally(s.sends, s.claims, s.stream[s.workers[e.p].batch[0]], 1)
  {
    assert s.workers[e.p].batch[0] in s.workers[e.p].batch;
    assert BatchTallied(s, s.workers[e.p].batch);
  }

  lemma ProcessTimersTallied(s: State, e: Event)
    requires Tallied(s) && Framed(s) && e.Process? && Enabled(s, e)
    requires Alone(s, s.workers[e.p].batch[0])
    ensures TimersTallied(ProcessStep(s, e))
  {
    hide ProcessStep, EntriesTallied, BatchesTallied, FatesTallied;
    var s', mid := ProcessStep(s, e), s.workers[e.p].batch[0];
    ProcessEffect(s, e);
    SendTally(s, e);
    HeadTally(s, e);
    forall k | k in s'.timers ensures Tally(s'.sends, s'.claims, s'.timers[k].job, 1) {
      if k in s.timers { assert Tally(s.sends, s.claims, s.timers[k].job, 1); }
    }
  }

  lemma ProcessEntriesTallied(s: State, e: Event)
    requires Tallied(s) && Framed(s) && e.Process? && Enabled(s, e)
    requires Alone(s, s.workers[e.p].batch[0]) && s.workers[e.p].batch[0] in s.pending
    ensures EntriesTallied(ProcessStep(s, e))
  {
    hide ProcessStep, TimersTallied, BatchesTallied, FatesTallied;
    var s', mid := ProcessStep(s, e), s.workers[e.p].batch[0];
    ProcessEffect(s, e);
    SendTally(s, e);
    HeadTally(s, e);
    forall m: nat | LiveEntry(s', m) ensures Tally(s'.sends, s'.claims, s'.stream[m], if s'.cursor <= m then 1 else 0) {
      assert LiveEntry(s, m);
    }
  }

  lemma ProcessDroppedTallied(s: State, e: Event, id: string)
    requires Tallied(s) && BelowLimit(s) && e.Process? && Enabled(s, e)
    requires Alone(s, s.workers[e.p].batch[0])
    requires id in ProcessStep(s, e).dropped
    ensures Failures(ProcessStep(s, e).sends, id) == MAX_ATTEMPTS && Spent(ProcessStep(s, e).sends, s.claims, id)
  {
    hide ProcessStep, TimersTallied, BatchesTallied, EntriesTallied;
    ProcessEffect(s, e);
    SendTally(s, e);
    if id !in s.dropped { HeadTally(s, e); }
  }

  lemma ProcessEndedTallied(s: State, e: Event, id: string)
    requires Tallied(s) && BelowLimit(s) && e.Process? && Enabled(s, e)
    requires Alone(s, s.workers[e.p].batch[0])
    requires var s' := ProcessStep(s, e); id in s'.delivered + s'.skipped + s'.vanished
    ensures Failures(ProcessStep(s, e).sends, id) < MAX_ATTEMPTS && Spent(ProcessStep(s, e).sends, s.claims, id)
  {
    hide ProcessStep, TimersTallied, BatchesTallied, EntriesTallied;
    ProcessEffect(s, e);
    SendTally(s, e);
    if id !in s.delivered + s.skipped + s.vanished { HeadTally(s, e); }
  }

  lemma ProcessFatesTallied(s: State, e: Event)
    requires Tallied(s) && BelowLimit(s) && e.Process? && Enabled(s, e)
    requires Alone(s, s.workers[e.p].batch[0])
    ensures FatesTallied(ProcessStep(s, e))
  {
    var s' := ProcessStep(s, e);
    assert s'.claims == s.claims;
    forall id | id in s'.dropped ensures Failures(s'.sends, id) == MAX_ATTEMPTS && Spent(s'.sends, s'.claims, id) {
      ProcessDroppedTallied(s, e, id);
    }
    forall id | id in s'.delivered + s'.skipped + s'.vanished
      ensures Failures(s'.sends, id) < MAX_ATTEMPTS && Spent(s'.sends, s'.claims, id)
    {
      ProcessEndedTallied(s, e, id);
    }
  }

  lemma TallyKept(s: State, s': State, job: Job, due: nat)
    requires Tally(s.sends, s.claims, job, due) && s'.claims == s.claims
    requires SendCount(s'.sends, job.jobID) == SendCount(s.sends, job.jobID)
    requires Failures(s'.sends, job.jobID) == Failures(s.sends, job.jobID)
    ensures Tally(s'.sends, s'.claims, job, due)
  { }

  lemma ProcessBatches(s: State, e: Event)
    requires Tallied(s) && Framed(s) && e.Process? && Enabled(s, e)
    requires Alone(s, s.workers[e.p].batch[0]) && Held(s.workers, s.pending)
    requires Distinct(s.workers[e.p].batch)
    ensures BatchesTallied(ProcessStep(s, e))
  {
    hide ProcessStep, TimersTallied, FatesTallied, EntriesTallied, Tally;
    var s', mid := ProcessStep(s, e), s.workers[e.p].batch[0];
    ProcessEffect(s, e);
    SendTally(s, e);
    assert mid in s.workers[e.p].batch && HoldsBatch(e.p, s.workers[e.p], s.pending);
    forall q, m | q in s'.workers && m in s'.workers[q].batch && m < |s.stream|
      ensures Tally(s'.sends, s'.claims, s.stream[m], 1)
    {
      assert HoldsBatch(q, s.workers[q], s.pending) && BatchTallied(s, s.workers[q].batch);
      assert m in s.workers[q].batch && m != mid;
      assert LiveEntry(s, m);
      TallyKept(s, s', s.stream[m], 1);
    }
    forall q | q in s'.workers ensures BatchTallied(s', s'.workers[q].batch) { }
  }

  lemma SoundMeansBelowLimit(s: State)
    requires Sound(s)
    ensures BelowLimit(s) && Framed(s)
    ensures forall p :: p in s.workers ==> Within(s.workers[p].batch, |s.stream|) && Distinct(s.workers[p].batch)
  {
    assert forall m :: 0 <= m < |s.stream| ==> Ripe(s.births, s.stream[m], s.now);
    forall p | p in s.workers ensures Within(s.workers[p].batch, |s.stream|) && Distinct(s.workers[p].batch) {
      var batch := s.workers[p].batch;
      assert BatchSound(s.workers[p], s.stream, s.cursor, s.now);
      assert forall i :: 0 <= i < |batch| ==> batch[i] in batch;
    }
  }

  lemma TalliedProcess(s: State, e: Event)
    requires Exclusive(s) && Tallied(s) && e.Process? && Enabled(s, e)
    ensures Tallied(ProcessStep(s, e))
  {
    var at :| Placed(s, at);
    SoundMeansBelowLimit(s);
    var mid := s.workers[e.p].batch[0];
    assert mid in s.workers[e.p].batch && HoldsBatch(e.p, s.workers[e.p], s.pending);
    PlacedAlone(s, at, mid);
    ProcessTimersTallied(s, e);
    ProcessEntriesTallied(s, e);
    ProcessFatesTallied(s, e);
    ProcessBatches(s, e);
  }

  lemma UnreadTallied(s: State, m: nat)
    requires Tallied(s) && s.cursor <= m < |s.stream|
    ensures LiveEntry(s, m) && Tally(s.sends, s.claims, s.stream[m], 1)
  { }

  lemma TalliedRead(s: State, e: Event)
    requires Framed(s) && BelowLimit(s) && Tallied(s) && e.Read? && Enabled(s, e)
    ensures Tallied(ReadStep(s, e.p, e.reply, e.unacked))
  {
    hide Tallied, BelowLimit, Tally, Hand;
    if !e.reply.Refused? {
      var end := Min(s.cursor + BATCH_SIZE, |s.stream|);
      var mids := Range(s.cursor, end);
      forall m | m in mids ensures LiveEntry(s, m) && Tally(s.sends, s.claims, s.stream[m], 1) {
        UnreadTallied(s, m);
      }
      TalliedHand(s, e.p, mids, e.reply, e.unacked, end);
    }
  }

  lemma TalliedIdle(s: State, p: nat)
    requires Tallied(s)
    ensures Tallied(s.(workers := s.workers[p := Worker([], s.now)]))
  {
    var s' := s.(workers := s.workers[p := Worker([], s.now)]);
    forall q | q in s'.workers ensures BatchTallied(s', s'.workers[q].batch) {
      if q != p { assert BatchTallied(s, s.workers[q].batch); }
    }
    assert forall m: nat :: LiveEntry(s', m) ==> LiveEntry(s, m);
  }

  lemma StaleTallied(s: State)
    requires Tallied(s) && Framed(s)
    ensures var t := s.(claims := s.claims + multiset(IdsOf(s.stream, StaleNow(s))));
            Tallied(t) && forall m :: m in StaleNow(s) ==> LiveEntry(t, m) && Tally(t.sends, t.claims, t.stream[m], 1)
  {
    var mids := StaleNow(s);
    var ids := IdsOf(s.stream, mids);
    ClaimsOnlyHelp(s, multiset(ids));
    var t := s.(claims := s.claims + multiset(ids));
    forall m | m in mids ensures LiveEntry(t, m) && Tally(t.sends, t.claims, t.stream[m], 1) {
      assert LiveEntry(s, m);
      var i :| 0 <= i < |mids| && mids[i] == m;
      assert ids[i] == s.stream[m].jobID;
      assert s.stream[m].jobID in ids;
    }
  }

  lemma TalliedStart(s: State, e: Event)
    requires Tallied(s) && BelowLimit(s) && Framed(s) && e.Start?
    ensures Tallied(StartStep(s, e.p, e.reply, e.unacked))
  {
    if e.reply.Refused? {
      TalliedIdle(s, e.p);
    } else {
      StaleTallied(s);
      var t := s.(claims := s.claims + multiset(IdsOf(s.stream, StaleNow(s))));
      TalliedHand(t, e.p, StaleNow(s), e.reply, e.unacked, s.cursor);
      assert StartStep(s, e.p, e.reply, e.unacked)
             == Hand(t, e.p, StaleNow(s), e.reply, e.unacked).(cursor := s.cursor);
    }
  }

  lemma TalliedTick(s: State, d: nat)
    requires Tallied(s)
    ensures Tallied(s.(now := s.now + d))
  {
    var s' := s.(now := s.now + d);
    assert forall q :: q in s.workers ==> BatchTallied(s, s.workers[q].batch);
    assert forall q :: q in s'.workers ==> BatchTallied(s', s'.workers[q].batch);
    assert forall m: nat :: LiveEntry(s', m) ==> LiveEntry(s, m);
  }

  lemma TalliedStep(s: State, e: Event)
    requires Exclusive(s) && Tallied(s) && Enabled(s, e)
    ensures Tallied(Next(s, e))
  {
    SoundMeansBelowLimit(s);
    match e
    case Tick(d) => TalliedTick(s, d);
    case Start(_, _, _) => TalliedStart(s, e);
    case Crash(p) => TalliedCrash(s, p);
    case Enqueue(_, _, _, _, _, _, _, _) =>
      assert forall i :: 0 <= i < |s.sends| ==> Ripe(s.births, s.sends[i].job, s.sends[i].at);
      TalliedEnqueue(s, e);
    case TimerFire(k, add) => TalliedTimer(s, k, add);
    case Read(_, _, _) => TalliedRead(s, e);
    case Process(_, _, _, _) => TalliedProcess(s, e);
  }

  lemma {:induction false} TalliedRun(s: State, es: seq<Event>)
    requires Exclusive(s) && Tallied(s)
    requires Legal(s, es) && TheftFree(s, es)
    ensures Tallied(Run(s, es)) && Exclusive(Run(s, es))
    decreases |es|
  {
    hide Exclusive, Tallied, NoTheft, Next;
    if es != [] {
      TalliedStep(s, es[0]);
      ExclusiveStep(s, es[0]);
      TalliedRun(Next(s, es[0]), es[1..]);
    }
  }

  ghost predicate AttemptsMatch(s: State, id: string) {
    && (forall k: nat :: At(s, id, InTimer(k)) ==> s.timers[k].job.attempts == Failures(s.sends, id) < MAX_ATTEMPTS)
    && (forall m: nat :: At(s, id, InStream(m)) ==> s.stream[m].attempts == Failures(s.sends, id) < MAX_ATTEMPTS)
    && (id in s.dropped <==> Failures(s.sends, id) == MAX_ATTEMPTS)
    && SendCount(s.sends, id) <= MAX_ATTEMPTS + s.claims[id]
  }

  lemma TalliedMatch(s: State, id: string)
    requires Tallied(s) && BelowLimit(s) && ExactlyOnePlace(s, id)
    ensures AttemptsMatch(s, id)
  {
    var place :| At(s, id, place);
    assert id in s.dropped <==> place == WasDropped by {
      assert id in s.dropped ==> At(s, id, WasDropped);
    }
    match place
    case InTimer(k) => assert Tally(s.sends, s.claims, s.timers[k].job, 1);
    case InStream(m) => assert LiveEntry(s, m) && Tally(s.sends, s.claims, s.stream[m], if s.cursor <= m then 1 else 0);
    case _ =>
  }

  /** In every run without theft: the attempt number of a job under way is the
      number of its failed, acknowledged sends; a job is dropped exactly when that
      number has reached the limit; and its sends exceed the limit only by
      reclaiming. */
  lemma AttemptsCountFailures(minDelay: nat, es: seq<Event>, id: string)
    requires Legal(Init(minDelay), es) && TheftFree(Init(minDelay), es)
    requires id in Run(Init(minDelay), es).births
    ensures AttemptsMatch(Run(Init(minDelay), es), id)
  {
    InitExclusive(minDelay);
    TalliedRun(Init(minDelay), es);
    var s := Run(Init(minDelay), es);
    SoundMeansBelowLimit(s);
    PlacedMeansOne(s, id);
    TalliedMatch(s, id);
  }
}
