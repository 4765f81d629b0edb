/** A pace that rules theft out. A run is timely for a bound D when no worker spends
    longer than D on one job. When a whole batch fits into the idle limit, a
    starting worker can never take a message that a live worker still has in hand. */
module DeliveryTimely {
  import opened Wrappers
  import opened WebhookJob
  import opened Delivery
  import opened DeliverySafety
  import opened DeliveryExclusive

  /** Time never passes while a worker has been on its current job for D. */
  ghost predicate Punctual(s: State, e: Event, D: nat) {
    e.Tick? ==> forall p :: p in s.workers && s.workers[p].batch != [] ==> s.now + e.d <= s.workers[p].since + D
  }

  ghost predicate Timely(s: State, es: seq<Event>, D: nat)
    requires Legal(s, es)
    decreases |es|
  {
    es == [] || (Punctual(s, es[0], D) && Timely(Next(s, es[0]), es[1..], D))
  }

  /** The time n more jobs may take. */
  function Times(n: nat, D: nat): nat {
    if n == 0 then 0 else D + Times(n - 1, D)
  }

  lemma {:induction false} TimesIsProduct(n: nat, D: nat)
    ensures Times(n, D) == n * D
  {
    if n > 0 {
      TimesIsProduct(n - 1, D);
      assert n * D == D + (n - 1) * D;
    }
  }

  lemma TimesAtMostBatch(n: nat, D: nat)
    requires n <= BATCH_SIZE
    ensures Times(n, D) <= BATCH_SIZE * D
  {
    TimesIsProduct(n, D);
  }

  ghost predicate OnTime(w: Worker, pending: map<nat, Claim>, now: nat, D: nat) {
    && |w.batch| <= BATCH_SIZE
    && (w.batch != [] ==> now <= w.since + D)
    && forall m :: m in w.batch && m in pending ==> w.since + Times(|w.batch|, D) <= pending[m].at + BATCH_SIZE * D
  }

  ghost predicate AllOnTime(s: State, D: nat) {
    forall p :: p in s.workers ==> OnTime(s.workers[p], s.pending, s.now, D)
  }

  /** The heart of the matter: what a starting worker claims, no other holds. */
  lemma ClaimedAreFree(s: State, D: nat, q: nat, m: nat)
    requires Held(s.workers, s.pending) && AllOnTime(s, D) && BATCH_SIZE * D < STALE_IDLE
    requires q in s.workers && m in StaleNow(s)
    ensures m !in s.workers[q].batch
  {
    var w := s.workers[q];
    assert HoldsBatch(q, w, s.pending) && OnTime(w, s.pending, s.now, D);
    assert w.batch != [] ==> Times(|w.batch|, D) >= D;
  }

  lemma NothingStolen(s: State, D: nat, e: Event)
    requires Held(s.workers, s.pending) && AllOnTime(s, D) && BATCH_SIZE * D < STALE_IDLE
    ensures NoTheft(s, e)
  {
    if e.Start? {
      forall q, m | q in s.workers && q != e.p && m in StaleNow(s) ensures m !in s.workers[q].batch {
        ClaimedAreFree(s, D, q, m);
      }
    }
  }

  lemma HandOnTime(s: State, D: nat, p: nat, mids: seq<nat>, reply: Reply, unacked: set<nat>)
    requires AllOnTime(s, D) && Within(mids, |s.stream|) && |mids| <= BATCH_SIZE
    requires forall q, m :: q in s.workers && q != p && m in mids ==> m !in s.workers[q].batch
    ensures AllOnTime(Hand(s, p, mids, reply, unacked), D)
  {
    hide Hand, ReadableOf, Distinct, Times;
    HandEffect(s, p, mids, reply, unacked);
    var s' := Hand(s, p, mids, reply, unacked);
    forall q | q in s'.workers ensures OnTime(s'.workers[q], s'.pending, s'.now, D) {
      if q == p {
        ReadableOfContents(s.stream, mids);
        TimesAtMostBatch(|s'.workers[p].batch|, D);
        assert forall m :: m in s'.workers[p].batch ==> m in mids;
      } else {
        assert s'.workers[q] == s.workers[q] && OnTime(s.workers[q], s.pending, s.now, D);
        assert forall m :: m in s.workers[q].batch ==> m !in mids;
      }
    }
  }

  lemma ProcessOnTime(s: State, D: nat, e: Event)
    requires AllOnTime(s, D) && Held(s.workers, s.pending) && e.Process? && Enabled(s, e)
    ensures AllOnTime(ProcessStep(s, e), D)
  {
    hide ProcessStep;
    ProcessEffect(s, e);
    var s', batch := ProcessStep(s, e), s.workers[e.p].batch;
    assert OnTime(s.workers[e.p], s.pending, s.now, D) && HoldsBatch(e.p, s.workers[e.p], s.pending);
    assert Times(|batch|, D) == D + Times(|batch| - 1, D);
    forall q | q in s'.workers ensures OnTime(s'.workers[q], s'.pending, s'.now, D) {
      if q == e.p { assert forall m :: m in batch[1..] ==> m in batch; }
      else { assert OnTime(s.workers[q], s.pending, s.now, D); }
    }
  }

  lemma StartOnTime(s: State, D: nat, e: Event)
    requires AllOnTime(s, D) && e.Start? && NoTheft(s, e)
    ensures AllOnTime(StartStep(s, e.p, e.reply, e.unacked), D)
  {
    hide Hand, Stale, Times;
    var s' := StartStep(s, e.p, e.reply, e.unacked);
    if e.reply.Refused? {
      assert forall q :: q in s.workers ==> OnTime(s.workers[q], s.pending, s.now, D);
    } else {
      HandOnTime(s, D, e.p, StaleNow(s), e.reply, e.unacked);
      var handed := Hand(s, e.p, StaleNow(s), e.reply, e.unacked);
      assert forall q :: q in handed.workers ==> OnTime(handed.workers[q], handed.pending, handed.now, D);
    }
  }

  lemma ReadOnTime(s: State, D: nat, e: Event)
    requires Sound(s) && AllOnTime(s, D) && e.Read? && Enabled(s, e)
    ensures AllOnTime(ReadStep(s, e.p, e.reply, e.unacked), D)
  {
    hide Hand, Times, StreamSound, SendsSound, Accounted, TimersSound;
    if !e.reply.Refused? {
      var end := Min(s.cursor + BATCH_SIZE, |s.stream|);
      var mids := Range(s.cursor, end);
      forall q, m | q in s.workers && q != e.p && m in mids ensures m !in s.workers[q].batch {
        assert BatchSound(s.workers[q], s.stream, s.cursor, s.now);
      }
      HandOnTime(s, D, e.p, mids, e.reply, e.unacked);
      var handed := Hand(s, e.p, mids, e.reply, e.unacked);
      assert forall q :: q in handed.workers ==> OnTime(handed.workers[q], handed.pending, handed.now, D);
    }
  }

  lemma OnTimeStep(s: State, D: nat, e: Event)
    requires Sound(s) && Held(s.workers, s.pending) && AllOnTime(s, D)
    requires Enabled(s, e) && Punctual(s, e, D) && NoTheft(s, e)
    ensures AllOnTime(Next(s, e), D)
  {
    hide Sound, ProcessStep, StartStep, ReadStep, ReadableOf, AsRead, Times;
    if e.Start? {
      StartOnTime(s, D, e);
    } else if e.Read? {
      ReadOnTime(s, D, e);
    } else if e.Process? {
      ProcessOnTime(s, D, e);
    } else {
      var s' := Next(s, e);
      assert s'.pending == s.pending;
      forall q | q in s'.workers ensures OnTime(s'.workers[q], s'.pending, s'.now, D) {
        assert s'.workers[q] == s.workers[q] && OnTime(s.workers[q], s.pending, s.now, D);
      }
    }
  }

  lemma {:induction false} TimelyRun(s: State, es: seq<Event>, D: nat)
    requires Sound(s) && Held(s.workers, s.pending) && AllOnTime(s, D)
    requires Legal(s, es) && Timely(s, es, D) && BATCH_SIZE * D < STALE_IDLE
    ensures TheftFree(s, es)
    ensures Held(Run(s, es).workers, Run(s, es).pending) && AllOnTime(Run(s, es), D)
    decreases |es|
  {
    hide Sound, Held, AllOnTime, NoTheft, Next, Punctual;
    if es != [] {
      NothingStolen(s, D, es[0]);
      SoundStep(s, es[0]);
      HeldStep(s, es[0]);
      OnTimeStep(s, D, es[0]);
      TimelyRun(Next(s, es[0]), es[1..], D);
    }
  }

  /** When a full batch takes less than the idle limit, no timely run has a theft. */
  lemma TimelyRunsAreTheftFree(minDelay: nat, es: seq<Event>, D: nat)
    requires Legal(Init(minDelay), es) && Timely(Init(minDelay), es, D) && BATCH_SIZE * D < STALE_IDLE
    ensures TheftFree(Init(minDelay), es)
  {
    TimelyRun(Init(minDelay), es, D);
  }

  /** Then a starting worker never claims a message that a live worker still has... */
  lemma StartNeverStealsFromALiveWorker(minDelay: nat, es: seq<Event>, D: nat, q: nat, m: nat)
    requires Legal(Init(minDelay), es) && Timely(Init(minDelay), es, D) && BATCH_SIZE * D < STALE_IDLE
    requires q in Run(Init(minDelay), es).workers && m in Run(Init(minDelay), es).workers[q].batch
    ensures m !in StaleNow(Run(Init(minDelay), es))
  {
    TimelyRun(Init(minDelay), es, D);
    var s := Run(Init(minDelay), es);
    if m in StaleNow(s) { ClaimedAreFree(s, D, q, m); }
  }

  /** ...and every accepted job is in exactly one place. */
  lemma OnePlaceInTimelyRuns(minDelay: nat, es: seq<Event>, D: nat, id: string)
    requires Legal(Init(minDelay), es) && Timely(Init(minDelay), es, D) && BATCH_SIZE * D < STALE_IDLE
    requires id in Run(Init(minDelay), es).births
    ensures ExactlyOnePlace(Run(Init(minDelay), es), id)
  {
    TimelyRunsAreTheftFree(minDelay, es, D);
    EveryJobInExactlyOnePlace(minDelay, es, id);
  }
}
