/** The bound on the time per job is exact: when a batch can take as long as the
    idle limit, there is a timely run, without any crash or failing command, that
    puts one job in two places. Ten jobs are read, nine take the full time each,
    and a worker started at the end of the tenth claims it; both workers then see
    it fail, and XACK, which does not mind an entry acknowledged before, lets both
    schedule a retry. */
module DeliveryBound {
  import opened Wrappers
  import opened WebhookJob
  import opened Delivery
  import opened DeliverySafety
  import opened DeliveryPlaces
  import opened DeliveryExclusive
  import opened DeliveryTimely
  import opened DeliveryAttempts
  import opened DeliveryLiveness

  /** A timely run; `quiet` asks that it have no crash and no failing command. */
  ghost predicate InTime(minDelay: nat, es: seq<Event>, D: nat, quiet: bool) {
    && Legal(Init(minDelay), es) && Timely(Init(minDelay), es, D)
    && (quiet ==> Quiet(Init(minDelay), es))
  }

  ghost predicate AlwaysOnePlace(D: nat, quiet: bool) {
    forall minDelay: nat, es: seq<Event>, id: string ::
      InTime(minDelay, es, D, quiet) && id in Run(Init(minDelay), es).births
      ==> ExactlyOnePlace(Run(Init(minDelay), es), id)
  }

  /** By a timely run without any fault. */
  ghost predicate Reachable(s: State, D: nat) {
    exists es :: InTime(0, es, D, true) && Run(Init(0), es) == s
  }

  lemma {:induction false} RunAppend(s: State, es: seq<Event>, e: Event, D: nat)
    requires Legal(s, es) && Timely(s, es, D) && Quiet(s, es)
    requires Enabled(Run(s, es), e) && Punctual(Run(s, es), e, D) && FaultFree(Run(s, es), e)
    ensures Legal(s, es + [e]) && Timely(s, es + [e], D) && Quiet(s, es + [e])
    ensures Run(s, es + [e]) == Next(Run(s, es), e)
    decreases |es|
  {
    hide Next, Punctual, FaultFree;
    if es == [] {
      assert [] + [e] == [e] && [e][1..] == [];
      assert Legal(Next(s, e), []);
    } else {
      RunAppend(Next(s, es[0]), es[1..], e, D);
      assert (es + [e])[0] == es[0] && (es + [e])[1..] == es[1..] + [e];
    }
  }

  lemma ReachNext(s: State, e: Event, D: nat)
    requires Reachable(s, D) && Enabled(s, e) && Punctual(s, e, D) && FaultFree(s, e)
    ensures Reachable(Next(s, e), D)
  {
    hide Legal, Timely, Quiet, Run, Next, FaultFree, Punctual;
    var es :| InTime(0, es, D, true) && Run(Init(0), es) == s;
    RunAppend(Init(0), es, e, D);
    assert InTime(0, es + [e], D, true);
  }

  /** Distinct ids. */
  function Name(j: nat): (id: string)
    ensures id != "" && |id| == j + 1
  {
    seq(j + 1, i => 'x')
  }

  ghost predicate Named(s: State) {
    && (forall j :: 0 <= j < |s.stream| ==>
          s.stream[j].jobID == Name(j) && s.stream[j].eventType != "" && s.stream[j].attempts == 0)
    && (forall id :: id in s.births ==> exists j: nat :: j < |s.stream| && id == Name(j))
    && s.minDelay == 0 && s.timers == map[]
  }

  /** n jobs wait unread. */
  ghost predicate Waiting(s: State, n: nat) {
    && Named(s) && |s.stream| == n && s.cursor == 0 && s.now == 0
    && s.pending == map[] && s.workers == map[0 := Worker([], 0)]
  }

  /** i of n jobs are done, in the full time each. */
  ghost predicate Crawling(s: State, i: nat, n: nat, D: nat) {
    && i <= n
    && Named(s) && |s.stream| == s.cursor == n && s.now == i * D
    && s.pending == Given(Range(i, n), 0, 0)
    && s.workers == map[0 := Worker(Range(i, n), i * D)]
  }

  lemma EnqueueOne(s: State, n: nat, D: nat) returns (s': State)
    requires Reachable(s, D) && Waiting(s, n)
    ensures Reachable(s', D) && Waiting(s', n + 1)
  {
    var e := Enqueue(0, Name(n), "event", "", None, "", 0, Answered);
    assert Name(n) !in s.births;
    ReachNext(s, e, D);
    s' := Next(s, e);
    forall id | id in s'.births ensures exists j: nat :: j < |s'.stream| && id == Name(j) {
      if id != Name(n) {
        var j: nat :| j < |s.stream| && id == Name(j);
        assert j < |s'.stream| && id == Name(j);
      }
    }
  }

  lemma {:induction false} EnqueueMany(n: nat, D: nat) returns (s: State)
    ensures Reachable(s, D) && Waiting(s, n)
  {
    if n == 0 {
      var init := Init(0);
      assert InTime(0, [], D, true) && Run(init, []) == init;
      assert StaleNow(init) == [];
      ReachNext(init, Start(0, Answered, {}), D);
      s := Next(init, Start(0, Answered, {}));
    } else {
      s := EnqueueMany(n - 1, D);
      s := EnqueueOne(s, n - 1, D);
    }
  }

  lemma {:induction false} AllReadable(stream: seq<Job>, mids: seq<nat>)
    requires Within(mids, |stream|) && forall m :: m in mids ==> Readable(stream[m])
    ensures ReadableOf(stream, mids) == mids
  {
    if mids != [] {
      assert mids[0] in mids;
      AllReadable(stream, mids[1..]);
    }
  }

  lemma HandAll(s: State, mids: seq<nat>)
    requires s.pending == map[] && s.now == 0
    requires Within(mids, |s.stream|) && forall m :: m in mids ==> Readable(s.stream[m])
    ensures Hand(s, 0, mids, Answered, {}).pending == Given(mids, 0, 0)
  {
    var corrupt := set m | m in mids && !Readable(s.stream[m]) && m !in {};
    assert corrupt == {};
    assert (map[] + Given(mids, 0, s.now)) - corrupt == Given(mids, 0, 0);
  }

  lemma ReadAll(s: State, n: nat, D: nat)
    requires Waiting(s, n) && 0 < n <= BATCH_SIZE
    ensures Crawling(ReadStep(s, 0, Answered, {}), 0, n, D)
  {
    hide ReadableOf, Given;
    var mids := Range(0, n);
    assert forall m :: m in mids ==> Readable(s.stream[m]);
    hide Range;
    AllReadable(s.stream, mids);
    HandAll(s, mids);
  }

  lemma DropFirst(i: nat, n: nat)
    requires i < n
    ensures Range(i, n)[0] == i && Range(i, n)[1..] == Range(i + 1, n)
    ensures Given(Range(i, n), 0, 0) - {i} == Given(Range(i + 1, n), 0, 0)
  {
    assert Range(i, n) == [i] + Range(i + 1, n);
  }

  lemma DeliverOne(s: State, i: nat, n: nat, D: nat)
    requires Crawling(s.(now := i * D), i, n, D) && i < n && s.now == (i + 1) * D
    requires s.workers[0].batch[0] == i
    ensures Crawling(ProcessStep(s, Process(0, true, Answered, "")), i + 1, n, D)
  {
    hide ProcessStep, Range, Given;
    DropFirst(i, n);
    var e := Process(0, true, Answered, "");
    ProcessEffect(s, e);
    var s' := ProcessStep(s, e);
    assert Named(s');
    assert s'.workers == map[0 := Worker(Range(i + 1, n), s.now)];
    assert s'.pending == s.pending - {i};
  }

  lemma CrawlOne(s: State, i: nat, n: nat, D: nat) returns (s': State)
    requires Reachable(s, D) && Crawling(s, i, n, D) && i < n
    ensures Reachable(s', D) && Crawling(s', i + 1, n, D)
  {
    hide ProcessStep, Range, Given, Reachable, Named;
    ReachNext(s, Tick(D), D);
    var late := s.(now := s.now + D);
    assert (i + 1) * D == i * D + D;
    assert late.(now := i * D) == s;
    DropFirst(i, n);
    ReachNext(late, Process(0, true, Answered, ""), D);
    DeliverOne(late, i, n, D);
    s' := ProcessStep(late, Process(0, true, Answered, ""));
  }

  lemma {:induction false} CrawlMany(i: nat, n: nat, D: nat) returns (s: State)
    requires i <= n <= BATCH_SIZE && 0 < n
    ensures Reachable(s, D) && Crawling(s, i, n, D)
  {
    if i == 0 {
      s := EnqueueMany(n, D);
      ReachNext(s, Read(0, Answered, {}), D);
      ReadAll(s, n, D);
      s := ReadStep(s, 0, Answered, {});
    } else {
      s := CrawlMany(i - 1, n, D);
      s := CrawlOne(s, i - 1, n, D);
    }
  }

  lemma {:induction false} OnlyStale(pending: map<nat, Claim>, now: nat, from: nat, end: nat, count: nat,
                                     scan: nat, m: nat)
    requires from <= m < end && pending.Keys == {m} && now - pending[m].at >= STALE_IDLE && count > 0 && scan > 0
    ensures Stale(pending, now, from, end, count, scan) == [m]
    decreases m - from
  {
    if from < m { OnlyStale(pending, now, from + 1, end, count, scan, m); }
    else { NoneStale(pending, now, m + 1, end, count - 1, scan - 1); }
  }

  lemma {:induction false} NoneStale(pending: map<nat, Claim>, now: nat, from: nat, end: nat, count: nat, scan: nat)
    requires from <= end && forall m :: m in pending ==> m < from
    ensures Stale(pending, now, from, end, count, scan) == []
    decreases end - from
  {
    if from < end && count > 0 && scan > 0 { NoneStale(pending, now, from + 1, end, count, scan); }
  }

  /** The last job of the batch runs out its time and a second worker claims it. */
  lemma Stolen(D: nat) returns (s: State)
    requires BATCH_SIZE * D >= STALE_IDLE
    ensures Reachable(s, D) && Named(s) && |s.stream| == s.cursor == BATCH_SIZE
    ensures s.workers.Keys == {0, 1} && s.workers[0].batch == [9] && s.workers[1].batch == [9]
  {
    s := CrawlMany(9, BATCH_SIZE, D);
    assert s.pending == map[9 := Claim(0, 0)];
    assert Range(9, BATCH_SIZE) == [9] + Range(10, BATCH_SIZE) == [9];
    ReachNext(s, Tick(D), D);
    s := Next(s, Tick(D));
    OnlyStale(s.pending, s.now, 0, BATCH_SIZE, BATCH_SIZE, CLAIM_SCAN, 9);
    AllReadable(s.stream, [9]);
    ReachNext(s, Start(1, Answered, {}), D);
    s := Next(s, Start(1, Answered, {}));
  }

  /** A first send fails: one more timer and one more failure. */
  lemma FailedSend(s: State, e: Event)
    requires e.Process? && Enabled(s, e) && !e.ok && e.ack.Answered? && s.stream[s.workers[e.p].batch[0]].attempts == 0
    ensures var s', mid := ProcessStep(s, e), s.workers[e.p].batch[0];
            && s'.serial == s.serial + 1 && s'.timers.Keys == s.timers.Keys + {s.serial}
            && s'.timers[s.serial].job.jobID == s.stream[mid].jobID && s'.timers[s.serial].job.attempts == 1
            && (forall k :: k in s.timers && k != s.serial ==> s'.timers[k] == s.timers[k])
            && s'.stream == s.stream && s'.workers == s.workers[e.p := Worker(s.workers[e.p].batch[1..], s.now)]
            && Failures(s'.sends, s.stream[mid].jobID) == Failures(s.sends, s.stream[mid].jobID) + 1
  {
    hide ProcessStep, Failures;
    ProcessEffect(s, e);
    SendTally(s, e);
  }

  /** Both workers see the send fail, and both schedule the retry as the second
      attempt, though two sends have failed. */
  lemma TwoTimers(D: nat) returns (s: State)
    requires BATCH_SIZE * D >= STALE_IDLE
    ensures Reachable(s, D) && s.serial >= 2
    ensures At(s, Name(9), InTimer(s.serial - 2)) && At(s, Name(9), InTimer(s.serial - 1))
    ensures s.timers[s.serial - 1].job.attempts == 1 && Failures(s.sends, Name(9)) >= 2
  {
    hide Reachable, Failures, ProcessStep, Name;
    s := Stolen(D);
    assert s.stream[9].jobID == Name(9) && s.stream[9].attempts == 0;
    hide Named;
    var first := Process(0, false, Answered, "timeout");
    ReachNext(s, first, D);
    FailedSend(s, first);
    var t := ProcessStep(s, first);
    var second := Process(1, false, Answered, "timeout");
    ReachNext(t, second, D);
    FailedSend(t, second);
    s := ProcessStep(t, second);
  }

  lemma TimersAreBirths(s: State, k: nat)
    requires Sound(s) && k in s.timers
    ensures s.timers[k].job.jobID in s.births
  {
    assert Ripe(s.births, s.timers[k].job, s.timers[k].fireAt);
  }

  /** A timely run to a state with two timers for one job, as a run from the start. */
  lemma TwoTimersRun(D: nat) returns (es: seq<Event>, id: string)
    requires BATCH_SIZE * D >= STALE_IDLE
    ensures InTime(0, es, D, true) && id in Run(Init(0), es).births
    ensures !ExactlyOnePlace(Run(Init(0), es), id) && !AttemptsMatch(Run(Init(0), es), id)
  {
    hide Legal, Timely, Quiet, Run, Sound, Failures;
    var s := TwoTimers(D);
    id := Name(9);
    es :| InTime(0, es, D, true) && Run(Init(0), es) == s;
    InitSound(0);
    SoundRun(Init(0), es);
    assert InTimer(s.serial - 2) != InTimer(s.serial - 1);
    TimersAreBirths(s, s.serial - 1);
  }

  /** Every timely run keeps every job in exactly one place if and only if a full
      batch takes less than the idle limit, and so it is of the runs without any
      crash or failing command alone. With the ten-second client timeout and one
      request per job it does (10 x 10 s < 120 s); with two requests per job, as in
      the SMS callback test, it does not (10 x 20 s). */
  lemma OnePlaceIffBatchFits(D: nat, quiet: bool)
    ensures AlwaysOnePlace(D, quiet) <==> D < 12_000
  {
    hide ExactlyOnePlace, Legal, Timely, Quiet, Run;
    if BATCH_SIZE * D < STALE_IDLE {
      forall minDelay: nat, es: seq<Event>, id: string |
        InTime(minDelay, es, D, quiet) && id in Run(Init(minDelay), es).births
        ensures ExactlyOnePlace(Run(Init(minDelay), es), id)
      {
        OnePlaceInTimelyRuns(minDelay, es, D, id);
      }
    } else {
      var es, id := TwoTimersRun(D);
      assert InTime(0, es, D, quiet);
    }
  }

  ghost predicate AlwaysCounted(D: nat, quiet: bool) {
    forall minDelay: nat, es: seq<Event>, id: string ::
      InTime(minDelay, es, D, quiet) && id in Run(Init(minDelay), es).births
      ==> AttemptsMatch(Run(Init(minDelay), es), id)
  }

  /** The same bound decides whether attempt numbers count failures in every timely
      run, with faults or without: two workers with one job count one failure each. */
  lemma AttemptsCountIffBatchFits(D: nat, quiet: bool)
    ensures AlwaysCounted(D, quiet) <==> D < 12_000
  {
    hide AttemptsMatch, Legal, Timely, Quiet, Run;
    if BATCH_SIZE * D < STALE_IDLE {
      forall minDelay: nat, es: seq<Event>, id: string |
        InTime(minDelay, es, D, quiet) && id in Run(Init(minDelay), es).births
        ensures AttemptsMatch(Run(Init(minDelay), es), id)
      {
        TimelyRunsAreTheftFree(minDelay, es, D);
        AttemptsCountFailures(minDelay, es, id);
      }
    } else {
      var es, id := TwoTimersRun(D);
      assert InTime(0, es, D, quiet);
    }
  }
}
