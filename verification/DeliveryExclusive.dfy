/** When no starting worker takes a message that another still has in hand, every
    job is in exactly one place: crashes, lost replies, failing commands and sends
    of any length included. */
module DeliveryExclusive {
  import opened Wrappers
  import opened WebhookJob
  import opened Delivery
  import opened DeliverySafety
  import opened DeliveryPlaces

  /** What a starting worker claims, no other worker still has in its batch. */
  ghost predicate NoTheft(s: State, e: Event) {
    e.Start? && !e.reply.Refused? ==>
      forall q, m :: q in s.workers && q != e.p && m in StaleNow(s) ==> m !in s.workers[q].batch
  }

  ghost predicate TheftFree(s: State, es: seq<Event>)
    requires Legal(s, es)
    decreases |es|
  {
    es == [] || (NoTheft(s, es[0]) && TheftFree(Next(s, es[0]), es[1..]))
  }

  // ----- who holds what -----

  ghost predicate HoldsBatch(p: nat, w: Worker, pending: map<nat, Claim>) {
    forall m :: m in w.batch ==> m in pending && pending[m].consumer == p
  }

  ghost predicate Held(workers: map<nat, Worker>, pending: map<nat, Claim>) {
    forall p :: p in workers ==> HoldsBatch(p, workers[p], pending)
  }

  // ----- one place per job -----

  type Places = map<string, Place>

  /** Every accepted job is where `at` says, and no job is anywhere else. */
  ghost predicate Placed(s: State, at: Places) {
    && at.Keys == s.births.Keys
    && forall id, place :: At(s, id, place) <==> id in at && at[id] == place
  }

  // ----- the steps keep who holds what -----

  lemma HandKeepsHeld(s: State, p: nat, mids: seq<nat>, reply: Reply, unacked: set<nat>)
    requires Held(s.workers, s.pending) && Within(mids, |s.stream|)
    requires forall q, m :: q in s.workers && q != p && m in mids ==> m !in s.workers[q].batch
    ensures Held(Hand(s, p, mids, reply, unacked).workers, Hand(s, p, mids, reply, unacked).pending)
  {
    hide Hand, ReadableOf, Distinct;
    HandEffect(s, p, mids, reply, unacked);
    var s' := Hand(s, p, mids, reply, unacked);
    forall q | q in s'.workers ensures HoldsBatch(q, s'.workers[q], s'.pending) {
      if q == p {
        ReadableOfContents(s.stream, mids);
        assert forall m :: m in s'.workers[p].batch ==> m in mids;
      } else {
        assert s'.workers[q] == s.workers[q];
        assert HoldsBatch(q, s.workers[q], s.pending);
        assert forall m :: m in s.workers[q].batch ==> m !in mids;
      }
    }
  }

  lemma ProcessKeepsHeld(s: State, e: Event)
    requires Sound(s) && Held(s.workers, s.pending) && e.Process? && Enabled(s, e)
    ensures Held(ProcessStep(s, e).workers, ProcessStep(s, e).pending)
  {
    hide ProcessStep, StreamSound, SendsSound, Accounted, TimersSound;
    ProcessEffect(s, e);
    var s', batch := ProcessStep(s, e), s.workers[e.p].batch;
    assert BatchSound(s.workers[e.p], s.stream, s.cursor, s.now) && HoldsBatch(e.p, s.workers[e.p], s.pending);
    assert batch[0] in batch;
    forall q | q in s'.workers ensures HoldsBatch(q, s'.workers[q], s'.pending) {
      if q == e.p {
        assert forall m :: m in batch[1..] ==> m in batch && m != batch[0];
      } else {
        assert HoldsBatch(q, s.workers[q], s.pending);
      }
    }
  }

  lemma StartKeepsHeld(s: State, e: Event)
    requires Held(s.workers, s.pending) && e.Start? && NoTheft(s, e)
    ensures var s' := StartStep(s, e.p, e.reply, e.unacked);
            Held(s'.workers, s'.pending)
  {
    hide Hand, Stale;
    if e.reply.Refused? {
      assert forall q :: q in s.workers ==> HoldsBatch(q, s.workers[q], s.pending);
    } else {
      HandKeepsHeld(s, e.p, StaleNow(s), e.reply, e.unacked);
    }
  }

  lemma ReadKeepsHeld(s: State, e: Event)
    requires Sound(s) && Held(s.workers, s.pending)
    requires e.Read? && Enabled(s, e)
    ensures var s' := ReadStep(s, e.p, e.reply, e.unacked);
            Held(s'.workers, s'.pending)
  {
    hide Held, Hand, StreamSound, SendsSound, Accounted, TimersSound;
    if !e.reply.Refused? {
      var mids := Range(s.cursor, Min(s.cursor + BATCH_SIZE, |s.stream|));
      forall q, m | q in s.workers && q != e.p && m in mids
        ensures m !in s.workers[q].batch
      {
        assert BatchSound(s.workers[q], s.stream, s.cursor, s.now);
      }
      HandKeepsHeld(s, e.p, mids, e.reply, e.unacked);
    }
  }

  lemma HeldStep(s: State, e: Event)
    requires Sound(s) && Held(s.workers, s.pending) && Enabled(s, e) && NoTheft(s, e)
    ensures Held(Next(s, e).workers, Next(s, e).pending)
  {
    hide Sound, ProcessStep, StartStep, ReadStep, ReadableOf, AsRead;
    if e.Start? {
      StartKeepsHeld(s, e);
    } else if e.Read? {
      ReadKeepsHeld(s, e);
    } else if e.Process? {
      ProcessKeepsHeld(s, e);
    } else {
      var s' := Next(s, e);
      assert s'.pending == s.pending;
      forall q | q in s'.workers ensures HoldsBatch(q, s'.workers[q], s'.pending) {
        assert s'.workers[q] == s.workers[q] && HoldsBatch(q, s.workers[q], s.pending);
      }
    }
  }

  // ----- one place -----

  /** The little of `Sound` that places depend on. */
  ghost predicate Framed(s: State) {
    && s.cursor <= |s.stream|
    && (forall k :: k in s.timers ==> k < s.serial)
    && (forall m :: m in s.pending ==> m < s.cursor)
  }

  /** A step that puts one job somewhere and leaves all others where they are. */
  lemma Moved(s: State, s': State, at: Places, id: string, to: Place)
    requires Placed(s, at) && s'.births.Keys == s.births.Keys + {id}
    requires forall i, place :: At(s', i, place) <==> if i == id then place == to else At(s, i, place)
    ensures Placed(s', at[id := to])
  { }

  lemma NotMoved(s: State, s': State, at: Places)
    requires Placed(s, at) && s'.births.Keys == s.births.Keys
    requires forall i, place :: At(s', i, place) <==> At(s, i, place)
    ensures Placed(s', at)
  { }

  /** A fired timer puts its job into the stream, or forgets it. */
  lemma TimerMoves(s: State, at: Places, k: nat, add: Reply, i: string, place: Place)
    requires Framed(s) && Placed(s, at) && Enabled(s, TimerFire(k, add))
    ensures At(TimerStep(s, k, add), i, place)
       <==> if i == s.timers[k].job.jobID then place == (if add.Refused? then HasVanished else InStream(|s.stream|))
            else At(s, i, place)
  {
    assert At(s, s.timers[k].job.jobID, InTimer(k));
    assert At(s, i, place) <==> i in at && at[i] == place;
  }

  lemma PlacedTimer(s: State, at: Places, k: nat, add: Reply) returns (at': Places)
    requires Framed(s) && Placed(s, at) && Enabled(s, TimerFire(k, add))
    ensures Placed(TimerStep(s, k, add), at')
  {
    hide At, Framed, Placed;
    var s', id := TimerStep(s, k, add), s.timers[k].job.jobID;
    var to := if add.Refused? then HasVanished else InStream(|s.stream|);
    forall i, place ensures At(s', i, place) <==> if i == id then place == to else At(s, i, place) {
      TimerMoves(s, at, k, add, i, place);
    }
    TimerJobIsBorn(s, at, k);
    Moved(s, s', at, id, to);
    at' := at[id := to];
  }

  lemma TimerJobIsBorn(s: State, at: Places, k: nat)
    requires Placed(s, at) && k in s.timers
    ensures s.births.Keys + {s.timers[k].job.jobID} == s.births.Keys
  {
    assert At(s, s.timers[k].job.jobID, InTimer(k));
  }

  predicate Accepted(s: State, e: Event)
    requires e.Enqueue?
  {
    Max(s.minDelay, e.offset) > 0 || !e.add.Refused?
  }

  /** An accepted job starts in a timer or in the stream. */
  lemma EnqueueMoves(s: State, at: Places, e: Event, i: string, place: Place)
    requires Framed(s) && Placed(s, at) && e.Enqueue? && Enabled(s, e) && Accepted(s, e)
    ensures At(EnqueueStep(s, e), i, place)
       <==> if i == e.jobID
            then place == (if Max(s.minDelay, e.offset) > 0 then InTimer(s.serial) else InStream(|s.stream|))
            else At(s, i, place)
  {
    assert At(s, i, place) <==> i in at && at[i] == place;
  }

  lemma PlacedEnqueue(s: State, at: Places, e: Event) returns (at': Places)
    requires Framed(s) && Placed(s, at) && e.Enqueue? && Enabled(s, e)
    ensures Placed(EnqueueStep(s, e), at')
  {
    hide At, Framed, Placed;
    at' := at;
    if Accepted(s, e) {
      var s' := EnqueueStep(s, e);
      var to := if Max(s.minDelay, e.offset) > 0 then InTimer(s.serial) else InStream(|s.stream|);
      forall i, place ensures At(s', i, place) <==> if i == e.jobID then place == to else At(s, i, place) {
        EnqueueMoves(s, at, e, i, place);
      }
      Moved(s, s', at, e.jobID, to);
      at' := at[e.jobID := to];
    }
  }

  /** Corrupt messages acknowledged on the way leave the stream for good. */
  function AfterSkip(at: Places, corrupt: set<nat>): Places {
    map id | id in at :: if at[id].InStream? && at[id].m in corrupt then WasSkipped else at[id]
  }

  /** A hand-over as the places see it: some pending entries more, some fewer. */
  lemma SkipPlaced(s: State, at: Places, s': State, corrupt: set<nat>)
    requires Placed(s, at)
    requires s'.timers == s.timers && s'.stream == s.stream && s'.births == s.births
    requires s'.delivered == s.delivered && s'.dropped == s.dropped && s'.vanished == s.vanished
    requires forall m: nat :: LiveEntry(s', m) <==> LiveEntry(s, m) && m !in corrupt
    requires forall m :: m in corrupt ==> LiveEntry(s, m)
    requires s'.skipped == s.skipped + (set m | m in corrupt && m < |s.stream| :: s.stream[m].jobID)
    ensures Placed(s', AfterSkip(at, corrupt))
  {
    var at' := AfterSkip(at, corrupt);
    assert at'.Keys == at.Keys;
    forall i, place ensures At(s', i, place) <==> i in at' && at'[i] == place {
      assert At(s, i, place) <==> i in at && at[i] == place;
      if place.WasSkipped? {
        if i in at && at[i].InStream? && at[i].m in corrupt { assert At(s, i, at[i]); }
        if m :| m in corrupt && s.stream[m].jobID == i { assert At(s, i, InStream(m)); }
      }
    }
  }

  lemma PlacedHand(s: State, at: Places, p: nat, mids: seq<nat>, reply: Reply, unacked: set<nat>, cursor: nat)
    returns (at': Places)
    requires Framed(s) && Placed(s, at) && s.cursor <= cursor <= |s.stream|
    requires Within(mids, |s.stream|)
    requires forall m :: m in mids ==> LiveEntry(s, m) && m < cursor
    requires forall m :: s.cursor <= m < cursor ==> m in mids
    ensures Placed(Hand(s, p, mids, reply, unacked).(cursor := cursor), at')
  {
    hide Placed, At;
    var s' := Hand(s, p, mids, reply, unacked).(cursor := cursor);
    var corrupt := if reply.Answered? then set m | m in mids && !Readable(s.stream[m]) && m !in unacked else {};
    at' := AfterSkip(at, corrupt);
    assert forall m :: m in s'.pending <==> (m in s.pending || m in mids) && m !in corrupt;
    SkipPlaced(s, at, s', corrupt);
  }

  lemma PlacedRead(s: State, at: Places, e: Event) returns (at': Places)
    requires Framed(s) && Placed(s, at) && e.Read? && Enabled(s, e)
    ensures Placed(ReadStep(s, e.p, e.reply, e.unacked), at')
  {
    hide Placed, Hand;
    at' := at;
    if !e.reply.Refused? {
      var end := Min(s.cursor + BATCH_SIZE, |s.stream|);
      var mids := Range(s.cursor, end);
      assert forall m :: m in mids ==> LiveEntry(s, m) && m < end;
      at' := PlacedHand(s, at, e.p, mids, e.reply, e.unacked, end);
    }
  }

  lemma PlacedStart(s: State, at: Places, e: Event) returns (at': Places)
    requires Framed(s) && Placed(s, at) && e.Start?
    ensures Placed(StartStep(s, e.p, e.reply, e.unacked), at')
  {
    hide Placed, Hand;
    at' := at;
    if e.reply.Refused? {
      NotMoved(s, StartStep(s, e.p, e.reply, e.unacked), at);
    } else {
      at' := PlacedHand(s, at, e.p, StaleNow(s), e.reply, e.unacked, s.cursor);
      HandKeepsCursor(s, e.p, StaleNow(s), e.reply, e.unacked);
      NotMoved(Hand(s, e.p, StaleNow(s), e.reply, e.unacked), StartStep(s, e.p, e.reply, e.unacked), at');
    }
  }

  /** A crash forgets the jobs of its process's timers and no others. */
  lemma PlacedCrash(s: State, at: Places, p: nat) returns (at': Places)
    requires Framed(s) && Placed(s, at)
    ensures Placed(CrashStep(s, p), at')
  {
    var s' := CrashStep(s, p);
    at' := map id | id in at ::
             if at[id].InTimer? && at[id].k in s.timers && s.timers[at[id].k].owner == p then HasVanished else at[id];
    assert at'.Keys == at.Keys;
    forall i, place ensures At(s', i, place) <==> i in at' && at'[i] == place {
      assert At(s, i, place) <==> i in at && at[i] == place;
      if place.HasVanished? {
        if i in at && at[i].InTimer? { assert At(s, i, at[i]); }
        if k :| k in s.timers && s.timers[k].owner == p && s.timers[k].job.jobID == i { assert At(s, i, InTimer(k)); }
      }
    }
  }

  lemma ProcessMoves(s: State, at: Places, e: Event, i: string, place: Place)
    requires Framed(s) && Placed(s, at) && e.Process? && Enabled(s, e) && !e.ack.Refused?
    requires s.workers[e.p].batch[0] in s.pending
    ensures At(ProcessStep(s, e), i, place)
       <==> if i == s.stream[s.workers[e.p].batch[0]].jobID then place == AfterSend(s, e) else At(s, i, place)
  {
    var mid := s.workers[e.p].batch[0];
    assert At(s, s.stream[mid].jobID, InStream(mid));
    assert At(s, i, place) <==> i in at && at[i] == place;
  }

  lemma PlacedProcess(s: State, at: Places, e: Event) returns (at': Places)
    requires Framed(s) && Placed(s, at) && e.Process? && Enabled(s, e)
    requires s.workers[e.p].batch[0] in s.pending
    ensures Placed(ProcessStep(s, e), at')
  {
    hide Framed, Placed;
    var s', mid := ProcessStep(s, e), s.workers[e.p].batch[0];
    at' := at;
    if e.ack.Refused? {
      NotMoved(s, s', at);
    } else {
      hide At;
      var id, to := s.stream[mid].jobID, AfterSend(s, e);
      forall i, place ensures At(s', i, place) <==> if i == id then place == to else At(s, i, place) {
        ProcessMoves(s, at, e, i, place);
      }
      EntryJobIsBorn(s, at, mid);
      Moved(s, s', at, id, to);
      at' := at[id := to];
    }
  }

  lemma EntryJobIsBorn(s: State, at: Places, m: nat)
    requires Placed(s, at) && LiveEntry(s, m)
    ensures s.births.Keys + {s.stream[m].jobID} == s.births.Keys
  {
    assert At(s, s.stream[m].jobID, InStream(m));
  }

  lemma PlacedStep(s: State, at: Places, e: Event) returns (at': Places)
    requires Framed(s) && Placed(s, at) && Enabled(s, e)
    requires e.Process? ==> s.workers[e.p].batch[0] in s.pending
    ensures Placed(Next(s, e), at')
  {
    match e
    case Tick(_) => NotMoved(s, Next(s, e), at); at' := at;
    case Start(_, _, _) => at' := PlacedStart(s, at, e);
    case Crash(p) => at' := PlacedCrash(s, at, p);
    case Enqueue(_, _, _, _, _, _, _, _) => at' := PlacedEnqueue(s, at, e);
    case TimerFire(k, add) => at' := PlacedTimer(s, at, k, add);
    case Read(_, _, _) => at' := PlacedRead(s, at, e);
    case Process(_, _, _, _) => at' := PlacedProcess(s, at, e);
  }

  // ----- runs -----

  ghost predicate Exclusive(s: State) {
    && Sound(s)
    && Held(s.workers, s.pending)
    && exists at :: Placed(s, at)
  }

  lemma ExclusiveStep(s: State, e: Event)
    requires Exclusive(s) && Enabled(s, e) && NoTheft(s, e)
    ensures Exclusive(Next(s, e))
  {
    var at :| Placed(s, at);
    assert Framed(s);
    if e.Process? {
      assert HoldsBatch(e.p, s.workers[e.p], s.pending);
      assert s.workers[e.p].batch[0] in s.workers[e.p].batch;
    }
    hide Sound, Placed, Next, Held, NoTheft, Framed;
    SoundStep(s, e);
    HeldStep(s, e);
    var at' := PlacedStep(s, at, e);
  }

  lemma {:induction false} ExclusiveRun(s: State, es: seq<Event>)
    requires Exclusive(s) && Legal(s, es) && TheftFree(s, es)
    ensures Exclusive(Run(s, es))
    decreases |es|
  {
    hide Exclusive, NoTheft;
    if es != [] {
      ExclusiveStep(s, es[0]);
      ExclusiveRun(Next(s, es[0]), es[1..]);
    }
  }

  lemma InitExclusive(minDelay: nat)
    ensures Exclusive(Init(minDelay))
  {
    assert Placed(Init(minDelay), map[]);
  }

  ghost predicate ExactlyOnePlace(s: State, id: string) {
    && (exists place :: At(s, id, place))
    && (forall a, b :: At(s, id, a) && At(s, id, b) ==> a == b)
  }

  /** In every run without theft every accepted job is in exactly one place. None is
      duplicated, none is lost without trace, and none has two unacknowledged
      entries. */
  lemma EveryJobInExactlyOnePlace(minDelay: nat, es: seq<Event>, id: string)
    requires Legal(Init(minDelay), es) && TheftFree(Init(minDelay), es)
    requires id in Run(Init(minDelay), es).births
    ensures ExactlyOnePlace(Run(Init(minDelay), es), id)
  {
    InitExclusive(minDelay);
    ExclusiveRun(Init(minDelay), es);
    PlacedMeansOne(Run(Init(minDelay), es), id);
  }

  lemma PlacedMeansOne(s: State, id: string)
    requires id in s.births && exists at :: Placed(s, at)
    ensures ExactlyOnePlace(s, id)
  {
    var at :| Placed(s, at);
    assert At(s, id, at[id]);
  }

  // ----- runs that are free of theft, however long the sends -----

  /** A worker starts only while no other has work in hand: a single worker, at
      whatever pace, restarts included. */
  ghost predicate StartsAlone(s: State, es: seq<Event>)
    requires Legal(s, es)
    decreases |es|
  {
    es == [] ||
    ((es[0].Start? ==> forall q :: q in s.workers && q != es[0].p ==> s.workers[q].batch == [])
     && StartsAlone(Next(s, es[0]), es[1..]))
  }

  lemma {:induction false} StartingAloneIsNoTheft(s: State, es: seq<Event>)
    requires Legal(s, es) && StartsAlone(s, es)
    ensures TheftFree(s, es)
    decreases |es|
  {
    hide Next, Stale;
    if es != [] { StartingAloneIsNoTheft(Next(s, es[0]), es[1..]); }
  }
}
