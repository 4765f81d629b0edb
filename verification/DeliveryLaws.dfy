/** What one step of the delivery does, in milliseconds, counts and positions: when a
    job may be added, what a read and a claim take, and what a send leads to. */
module DeliveryLaws {
  import opened Wrappers
  import opened WebhookJob
  import opened Delivery
  import opened DeliverySafety

  /** The timer can fire after a wait of d milliseconds exactly from `delay` on, and
      then adds this job at the end of the stream. */
  ghost predicate FiresAfter(s: State, k: nat, delay: nat, job: Job) {
    forall d: nat ::
      var waited := Next(s, Tick(d));
      && (Enabled(waited, TimerFire(k, Answered)) <==> d >= delay)
      && (d >= delay ==> Next(waited, TimerFire(k, Answered)).stream == s.stream + [job])
  }

  lemma TimerFiresAfter(s: State, k: nat, delay: nat)
    requires k in s.timers && s.timers[k].fireAt == s.now + delay
    ensures FiresAfter(s, k, delay, AsRead(s.timers[k].job))
  {
    hide AsRead;
  }

  /** An accepted job with a delay, the queue's or its own, can be added when the
      longer of the two has passed, in milliseconds, and not before; it is then what
      was enqueued, with no attempt made. Without a delay it is added at once. */
  lemma EnqueuedAfterItsDelay(s: State, e: Event)
    requires e.Enqueue? && Enabled(s, e) && e.add.Answered?
    ensures var s' := Next(s, e);
            var delay := if s.minDelay > e.offset then s.minDelay else e.offset;
            var job := Job(e.jobID, e.eventType, e.userID, Some(if e.data == None then map[] else e.data.value),
                           0, e.createdAt, "");
            if delay <= 0 then s'.stream == s.stream + [job] && s'.timers == s.timers
            else
              && s'.stream == s.stream && s.serial in s'.timers
              && s'.timers == s.timers[s.serial := s'.timers[s.serial]]
              && FiresAfter(s', s.serial, delay, job)
  {
    hide FiresAfter;
    var s' := Next(s, e);
    if s.serial in s'.timers && Max(s.minDelay, e.offset) > 0 {
      TimerFiresAfter(s', s.serial, Max(s.minDelay, e.offset));
    }
  }

  /** A send that failed, before the tenth, and was acknowledged: the entry is no
      longer pending, and the job can be added again after a wait of three seconds,
      not before, with one attempt more and the error that was seen. */
  lemma RetryIsThreeSecondsLater(s: State, e: Event)
    requires Sound(s) && e.Process? && Enabled(s, e) && !e.ok && e.ack.Answered?
    requires s.stream[s.workers[e.p].batch[0]].attempts + 1 < 10
    ensures var s', mid := Next(s, e), s.workers[e.p].batch[0];
            var job := s.stream[mid];
            && s'.pending == s.pending - {mid} && s'.stream == s.stream
            && s.serial !in s.timers && s.serial in s'.timers
            && s'.timers == s.timers[s.serial := s'.timers[s.serial]]
            && FiresAfter(s', s.serial, 3000, job.(attempts := job.attempts + 1, lastError := e.error))
  {
    hide Sound, FiresAfter;
    var s', mid := Next(s, e), s.workers[e.p].batch[0];
    SoundTimersAndJobs(s, mid);
    TimerFiresAfter(s', s.serial, 3000);
  }

  lemma SoundTimersAndJobs(s: State, mid: nat)
    requires Sound(s) && mid < |s.stream|
    ensures s.serial !in s.timers && AsRead(s.stream[mid]) == s.stream[mid]
  { }

  /** The tenth failed send is the last, and a lost or refused acknowledgement makes
      no timer either. */
  lemma NoRetryOtherwise(s: State, e: Event)
    requires e.Process? && Enabled(s, e)
    ensures var s', job := Next(s, e), s.stream[s.workers[e.p].batch[0]];
            && (e.ok || !e.ack.Answered? || job.attempts + 1 >= 10 ==> s'.timers == s.timers)
            && (!e.ok && e.ack.Answered? && job.attempts + 1 >= 10 ==> s'.dropped == s.dropped + {job.jobID})
            && (e.ok && !e.ack.Refused? ==>
                  s'.delivered == s.delivered + {job.jobID} && s'.pending == s.pending - {s.workers[e.p].batch[0]})
            && (e.ack.Refused? ==> s'.pending == s.pending && s'.delivered == s.delivered && s'.dropped == s.dropped)
            && s'.workers == s.workers[e.p := Worker(s.workers[e.p].batch[1..], s.now)]
            && |s'.sends| == |s.sends| + 1 && s'.sends[|s.sends|].job == job && s'.sends[|s.sends|].at == s.now
  { }

  // ----- reads and claims -----

  predicate Rising(mids: seq<nat>) { forall i, j :: 0 <= i < j < |mids| ==> mids[i] < mids[j] }

  lemma {:induction false} ReadableOfRises(stream: seq<Job>, mids: seq<nat>)
    requires Within(mids, |stream|) && Rising(mids)
    ensures Rising(ReadableOf(stream, mids))
  {
    if mids != [] {
      var rest := mids[1..];
      assert forall i :: 0 <= i < |rest| ==> rest[i] == mids[i + 1];
      ReadableOfRises(stream, rest);
      ReadableOfContents(stream, rest);
      forall m | m in ReadableOf(stream, rest) ensures mids[0] < m { var i :| 0 <= i < |rest| && rest[i] == m; }
      RisingWith(mids[0], ReadableOf(stream, rest));
      assert ReadableOf(stream, mids) == if Readable(stream[mids[0]]) then [mids[0]] + ReadableOf(stream, rest)
                                         else ReadableOf(stream, rest);
    }
  }

  lemma RisingWith(m: nat, mids: seq<nat>)
    requires Rising(mids) && forall x :: x in mids ==> m < x
    ensures Rising([m] + mids)
  {
    assert forall i :: 0 <= i < |mids| ==> mids[i] in mids;
  }

  lemma {:induction false} StaleRises(pending: map<nat, Claim>, now: nat, from: nat, end: nat, count: nat, scan: nat)
    requires from <= end
    ensures Rising(Stale(pending, now, from, end, count, scan))
    decreases end - from
  {
    if from < end && count > 0 && scan > 0 {
      var stale := from in pending && now - pending[from].at >= STALE_IDLE;
      var count', scan' := if stale then count - 1 else count, if from in pending then scan - 1 else scan;
      StaleRises(pending, now, from + 1, end, count', scan');
      var mids, rest := Stale(pending, now, from, end, count, scan), Stale(pending, now, from + 1, end, count', scan');
      assert mids == if stale then [from] + rest else rest;
      hide Rising;
      RisingWith(from, rest);
    }
  }

  /** What a worker that is handed these messages gets, and what becomes of each. */
  lemma HandedOver(s: State, p: nat, mids: seq<nat>, m: nat)
    requires Within(mids, |s.stream|) && Rising(mids) && m < |s.stream|
    ensures var s', taken := Hand(s, p, mids, Answered, {}), m in mids;
            && p in s'.workers
            && (m in s'.workers[p].batch <==> taken && Readable(s.stream[m])) && Rising(s'.workers[p].batch)
            && (m in s'.pending <==> if taken then Readable(s.stream[m]) else m in s.pending)
            && (m in s'.pending ==> s'.pending[m] == if taken then Claim(p, s.now) else s.pending[m])
            && s'.stream == s.stream && s'.timers == s.timers && s'.cursor == s.cursor
  {
    hide ReadableOf, Readable, Rising;
    ReadableOfContents(s.stream, mids);
    ReadableOfRises(s.stream, mids);
  }

  lemma RangeRises(a: nat, b: nat, m: nat)
    requires a <= b
    ensures Rising(Range(a, b)) && (m in Range(a, b) <==> a <= m < b)
  { }

  /** A read takes the next ten entries, or all there are: they become pending for
      the reader, and those that parse are its batch, in the order of the stream. */
  lemma ReadTakesTheNextTen(s: State, p: nat, m: nat)
    requires Enabled(s, Read(p, Answered, {})) && s.cursor <= |s.stream| && m < |s.stream|
    ensures var s' := Next(s, Read(p, Answered, {}));
            var taken := s.cursor <= m < s.cursor + 10;
            && s'.cursor == (if s.cursor + 10 <= |s.stream| then s.cursor + 10 else |s.stream|)
            && (m in s'.workers[p].batch <==> taken && Readable(s.stream[m])) && Rising(s'.workers[p].batch)
            && (m in s'.pending <==> if taken then Readable(s.stream[m]) else m in s.pending)
            && (m in s'.pending ==> s'.pending[m] == if taken then Claim(p, s.now) else s.pending[m])
            && s'.stream == s.stream && s'.timers == s.timers
  {
    var mids := Range(s.cursor, Min(s.cursor + BATCH_SIZE, |s.stream|));
    RangeRises(s.cursor, Min(s.cursor + BATCH_SIZE, |s.stream|), m);
    hide Range, Hand, Readable, Rising;
    HandedOver(s, p, mids, m);
  }

  function StaleCount(pending: map<nat, Claim>, now: nat, from: nat, end: nat): nat
    requires from <= end
    decreases end - from
  {
    if from == end then 0
    else
      (if from in pending && now - pending[from].at >= 120_000 then 1 else 0) + StaleCount(pending, now, from + 1, end)
  }

  /** What a claim takes, exactly: an entry that has been pending for two minutes,
      with fewer than `count` such entries and fewer than `scan` pending entries at
      all before it. */
  lemma {:induction false} ClaimedIff(pending: map<nat, Claim>, now: nat, from: nat, end: nat, count: nat, scan: nat,
                                      m: nat)
    requires from <= end
    ensures m in Stale(pending, now, from, end, count, scan) <==>
            && from <= m < end && m in pending && now - pending[m].at >= 120_000
            && StaleCount(pending, now, from, m) < count && PendingCount(pending, from, m) < scan
    decreases end - from
  {
    if from < end && count > 0 && scan > 0 {
      var stale := from in pending && now - pending[from].at >= STALE_IDLE;
      var count', scan' := if stale then count - 1 else count, if from in pending then scan - 1 else scan;
      ClaimedIff(pending, now, from + 1, end, count', scan', m);
      var mids, rest := Stale(pending, now, from, end, count, scan), Stale(pending, now, from + 1, end, count', scan');
      assert mids == if stale then [from] + rest else rest;
      hide Stale;
      assert m in mids <==> (stale && m == from) || m in rest;
    }
  }

  /** A starting worker claims the first ten entries that have been pending for two
      minutes, whoever had them, among the first hundred pending: they are its own
      from now on, and those that parse are its batch, the oldest first. */
  lemma StartClaimsTheStale(s: State, p: nat, m: nat)
    requires m < |s.stream|
    ensures var s' := Next(s, Start(p, Answered, {}));
            var claimed := m in s.pending && s.now - s.pending[m].at >= 120_000
                           && StaleCount(s.pending, s.now, 0, m) < 10 && PendingCount(s.pending, 0, m) < 100;
            && (m in s'.workers[p].batch <==> claimed && Readable(s.stream[m])) && Rising(s'.workers[p].batch)
            && (m in s'.pending <==> m in s.pending && (claimed ==> Readable(s.stream[m])))
            && (m in s'.pending ==> s'.pending[m] == if claimed then Claim(p, s.now) else s.pending[m])
            && s'.cursor == s.cursor && s'.stream == s.stream && s'.timers == s.timers
  {
    var mids := StaleNow(s);
    ClaimedIff(s.pending, s.now, 0, |s.stream|, 10, 100, m);
    StaleRises(s.pending, s.now, 0, |s.stream|, 10, 100);
    hide Stale, StaleCount, PendingCount, Hand, Readable, Rising;
    HandedOver(s, p, mids, m);
  }
}
