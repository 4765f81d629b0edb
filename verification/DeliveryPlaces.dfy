/** Where jobs are, in any run: no accepted job is ever in no place at all, and
    the only steps that make one vanish are named. Nothing here depends on time. */
module DeliveryPlaces {
  import opened Wrappers
  import opened WebhookJob
  import opened Delivery
  import opened DeliverySafety

  /** Unread, or read and not acknowledged. */
  predicate LiveEntry(s: State, m: nat) {
    m < |s.stream| && (s.cursor <= m || m in s.pending)
  }

  /** Where a job is. */
  datatype Place = InTimer(k: nat) | InStream(m: nat) | WasDelivered | WasDropped | WasSkipped | HasVanished

  /** The job with this id is at this place, read off the running system. */
  predicate At(s: State, id: string, place: Place) {
    match place
    case InTimer(k) => k in s.timers && s.timers[k].job.jobID == id
    case InStream(m) => LiveEntry(s, m) && s.stream[m].jobID == id
    case WasDelivered => id in s.delivered
    case WasDropped => id in s.dropped
    case WasSkipped => id in s.skipped
    case HasVanished => id in s.vanished
  }

  ghost predicate Somewhere(s: State, id: string) { exists place :: At(s, id, place) }

  /** In some place other than oblivion. */
  ghost predicate Present(s: State, id: string) { exists place :: At(s, id, place) && !place.HasVanished? }

  // ----- one step -----

  /** Where processJob leaves the job it sent. */
  function AfterSend(s: State, e: Event): Place
    requires e.Process? && Enabled(s, e) && !e.ack.Refused?
  {
    if e.ok then WasDelivered
    else if e.ack.ReplyLost? then HasVanished
    else if s.stream[s.workers[e.p].batch[0]].attempts + 1 >= MAX_ATTEMPTS then WasDropped
    else InTimer(s.serial)
  }

  /** The places of which a step makes a job vanish: a crash, its process's timers;
      a refused XADD, the timer that fired; a failed send whose ack takes effect
      while its reply is lost, the entry. */
  predicate Forgets(s: State, e: Event, place: Place)
    requires Enabled(s, e)
  {
    match e
    case Crash(p) => place.InTimer? && place.k in s.timers && s.timers[place.k].owner == p
    case TimerFire(k, add) => add.Refused? && place == InTimer(k)
    case Process(p, ok, ack, _) => !ok && ack.ReplyLost? && place == InStream(s.workers[p].batch[0])
    case _ => false
  }

  lemma TimerPlace(s: State, e: Event, id: string, place: Place)
    requires Sound(s) && e.TimerFire? && Enabled(s, e) && At(s, id, place)
    ensures At(Next(s, e), id,
               if place != InTimer(e.k) then place
               else if e.add.Refused? then HasVanished
               else InStream(|s.stream|))
  { }

  lemma CrashPlace(s: State, e: Event, id: string, place: Place)
    requires e.Crash? && Enabled(s, e) && At(s, id, place)
    ensures At(Next(s, e), id, if Forgets(s, e, place) then HasVanished else place)
  { }

  lemma ProcessPlace(s: State, e: Event, id: string, place: Place)
    requires Sound(s) && e.Process? && Enabled(s, e) && At(s, id, place)
    ensures At(Next(s, e), id,
               if place != InStream(s.workers[e.p].batch[0]) || e.ack.Refused? then place else AfterSend(s, e))
  {
    hide ProcessStep, StreamSound, WorkersSound, SendsSound, Accounted, BirthsSound, PendingSound;
    ProcessEffect(s, e);
  }

  /** A hand-over keeps every place but that of a corrupt entry it acknowledges. */
  lemma HandPlace(s: State, p: nat, mids: seq<nat>, reply: Reply, unacked: set<nat>, cursor: nat,
                  id: string, place: Place)
    returns (place': Place)
    requires Within(mids, |s.stream|) && s.cursor <= cursor <= |s.stream|
    requires forall m :: s.cursor <= m < cursor ==> m in mids
    requires At(s, id, place)
    ensures At(Hand(s, p, mids, reply, unacked).(cursor := cursor), id, place')
    ensures place'.HasVanished? <==> place.HasVanished?
  {
    var corrupt := if reply.Answered? then set m | m in mids && !Readable(s.stream[m]) && m !in unacked else {};
    place' := if place.InStream? && place.m in corrupt then WasSkipped else place;
  }

  lemma ReadPlace(s: State, e: Event, id: string, place: Place) returns (place': Place)
    requires s.cursor <= |s.stream| && e.Read? && Enabled(s, e) && At(s, id, place)
    ensures At(Next(s, e), id, place') && (place'.HasVanished? <==> place.HasVanished?)
  {
    hide At, Hand;
    place' := place;
    if !e.reply.Refused? {
      var end := Min(s.cursor + BATCH_SIZE, |s.stream|);
      place' := HandPlace(s, e.p, Range(s.cursor, end), e.reply, e.unacked, end, id, place);
    }
  }

  /** Places depend on nothing a worker holds. */
  lemma SamePlace(s: State, s': State, id: string, place: Place)
    requires At(s, id, place)
    requires s'.timers == s.timers && s'.stream == s.stream && s'.cursor == s.cursor && s'.pending == s.pending
    requires s'.delivered == s.delivered && s'.dropped == s.dropped && s'.skipped == s.skipped
             && s'.vanished == s.vanished
    ensures At(s', id, place)
  { }

  lemma StartPlace(s: State, e: Event, id: string, place: Place) returns (place': Place)
    requires s.cursor <= |s.stream| && e.Start? && At(s, id, place)
    ensures At(Next(s, e), id, place') && (place'.HasVanished? <==> place.HasVanished?)
  {
    hide At, Hand, Stale;
    var s' := StartStep(s, e.p, e.reply, e.unacked);
    place' := place;
    if e.reply.Refused? {
      SamePlace(s, s', id, place);
    } else {
      var handed := Hand(s, e.p, StaleNow(s), e.reply, e.unacked);
      place' := HandPlace(s, e.p, StaleNow(s), e.reply, e.unacked, s.cursor, id, place);
      HandKeepsCursor(s, e.p, StaleNow(s), e.reply, e.unacked);
      SamePlace(handed, s', id, place');
    }
  }

  lemma EnqueuePlace(s: State, e: Event, id: string, place: Place)
    requires Sound(s) && e.Enqueue? && Enabled(s, e) && At(s, id, place)
    ensures At(Next(s, e), id, place)
  {
    hide StreamSound, WorkersSound, SendsSound, Accounted, BirthsSound;
  }

  /** No step leaves a job without a place, and a job is sent to oblivion only by
      the steps that forget its place. */
  lemma PlaceAfter(s: State, e: Event, id: string, place: Place) returns (place': Place)
    requires Sound(s) && Enabled(s, e) && At(s, id, place)
    ensures At(Next(s, e), id, place')
    ensures place'.HasVanished? <==> place.HasVanished? || Forgets(s, e, place)
  {
    hide At, TimerStep, StartStep, ReadStep, ProcessStep, CrashStep, EnqueueStep;
    hide StreamSound, WorkersSound, TimersSound, SendsSound, Accounted, BirthsSound, PendingSound;
    place' := place;
    match e
    case Tick(_) => SamePlace(s, s.(now := s.now + e.d), id, place);
    case Start(_, _, _) => place' := StartPlace(s, e, id, place);
    case Crash(_) => CrashPlace(s, e, id, place); place' := if Forgets(s, e, place) then HasVanished else place;
    case Enqueue(_, _, _, _, _, _, _, _) => EnqueuePlace(s, e, id, place);
    case TimerFire(k, add) =>
      TimerPlace(s, e, id, place);
      place' := if place != InTimer(k) then place else if add.Refused? then HasVanished else InStream(|s.stream|);
    case Read(_, _, _) => place' := ReadPlace(s, e, id, place);
    case Process(p, _, ack, _) =>
      ProcessPlace(s, e, id, place);
      place' := if place != InStream(s.workers[p].batch[0]) || ack.Refused? then place else AfterSend(s, e);
  }

  // ----- whole runs -----

  ghost predicate NoneLost(s: State) { forall id :: id in s.births ==> Somewhere(s, id) }

  lemma EnqueueGivesPlace(s: State, e: Event)
    requires s.cursor <= |s.stream| && e.Enqueue? && Enabled(s, e) && e.jobID in Next(s, e).births
    ensures Somewhere(Next(s, e), e.jobID)
  {
    var s' := EnqueueStep(s, e);
    if s'.serial > s.serial { assert At(s', e.jobID, InTimer(s.serial)); }
    else if s'.stream != s.stream { assert At(s', e.jobID, InStream(|s.stream|)); }
  }

  lemma BornBefore(s: State, e: Event, id: string)
    requires Enabled(s, e) && id in Next(s, e).births
    ensures id in s.births || (e.Enqueue? && id == e.jobID)
  {
    hide ReadableOf, Stale, Range, AsRead;
  }

  lemma NoneLostStep(s: State, e: Event)
    requires Sound(s) && NoneLost(s) && Enabled(s, e)
    ensures NoneLost(Next(s, e))
  {
    assert s.cursor <= |s.stream|;
    hide Sound, At, Next;
    forall id | id in Next(s, e).births ensures Somewhere(Next(s, e), id) {
      BornBefore(s, e, id);
      if id in s.births {
        var place :| At(s, id, place);
        var place' := PlaceAfter(s, e, id, place);
      } else {
        EnqueueGivesPlace(s, e);
      }
    }
  }

  lemma {:induction false} NoneLostRun(s: State, es: seq<Event>)
    requires Sound(s) && NoneLost(s) && Legal(s, es)
    ensures NoneLost(Run(s, es))
    decreases |es|
  {
    hide Sound, NoneLost;
    if es != [] {
      SoundStep(s, es[0]);
      NoneLostStep(s, es[0]);
      NoneLostRun(Next(s, es[0]), es[1..]);
    }
  }

  /** In every run, whatever crashes, thefts, slow sends and failing commands it
      contains, every accepted job is in a timer, live in the stream, or has met a
      fate: none is ever lost without trace. */
  lemma NothingIsLost(minDelay: nat, es: seq<Event>, id: string)
    requires Legal(Init(minDelay), es) && id in Run(Init(minDelay), es).births
    ensures exists place :: At(Run(Init(minDelay), es), id, place)
  {
    NoneLostRun(Init(minDelay), es);
    assert Somewhere(Run(Init(minDelay), es), id);
  }

  /** After a step that forgets places, the job's other places are old ones. */
  lemma OtherPlacesAreOld(s: State, e: Event, id: string, place: Place)
    requires Sound(s) && Enabled(s, e)
             && (e.Crash? || (e.TimerFire? && e.add.Refused?) || (e.Process? && !e.ok && e.ack.ReplyLost?))
    requires At(Next(s, e), id, place) && !place.HasVanished?
    ensures At(s, id, place) && !Forgets(s, e, place)
  {
    hide ProcessStep, StreamSound, TimersSound, SendsSound, Accounted, BirthsSound;
    if e.Process? {
      ProcessEffect(s, e);
      assert BatchSound(s.workers[e.p], s.stream, s.cursor, s.now) && s.workers[e.p].batch[0] in s.workers[e.p].batch;
    }
  }

  lemma HistoryTells(s: State, e: Event, id: string)
    requires Enabled(s, e) && id !in s.vanished
    ensures id in Next(s, e).vanished <==>
            || (e.Crash? && exists k :: k in s.timers && s.timers[k].owner == e.p && s.timers[k].job.jobID == id)
            || (e.TimerFire? && e.add.Refused? && s.timers[e.k].job.jobID == id)
            || (e.Process? && !e.ok && e.ack.ReplyLost? && s.stream[s.workers[e.p].batch[0]].jobID == id)
  {
    hide ReadableOf, Stale, Range, AsRead, ProcessStep;
    if e.Process? { ProcessEffect(s, e); }
  }

  /** Whatever the state and the step, a job that is somewhere is somewhere
      afterwards, and it is still present exactly when the step does not forget all
      of its places. The steps that forget are a crash, for the timers of its
      process; a refused XADD, for the timer that fired; and a failed send whose ack
      took effect and whose reply was lost, for its entry. What is no longer present
      is recorded as vanished, and a crash leaves all other places as they are. */
  lemma HowJobsVanish(s: State, e: Event, id: string)
    requires Sound(s) && Enabled(s, e) && Present(s, id)
    ensures Present(Next(s, e), id)
            <==> exists place :: At(s, id, place) && !place.HasVanished? && !Forgets(s, e, place)
    ensures !Present(Next(s, e), id) ==> At(Next(s, e), id, HasVanished)
    ensures e.Crash? ==> forall place :: At(s, id, place) && !Forgets(s, e, place) ==> At(Next(s, e), id, place)
    ensures id !in s.vanished ==>
              (id in Next(s, e).vanished <==>
                 || (e.Crash? && exists k :: k in s.timers && s.timers[k].owner == e.p && s.timers[k].job.jobID == id)
                 || (e.TimerFire? && e.add.Refused? && s.timers[e.k].job.jobID == id)
                 || (e.Process? && !e.ok && e.ack.ReplyLost? && s.stream[s.workers[e.p].batch[0]].jobID == id))
  {
    if id !in s.vanished { HistoryTells(s, e, id); }
    hide Sound, At, Next;
    var place :| At(s, id, place) && !place.HasVanished?;
    var after := PlaceAfter(s, e, id, place);
    if other :| At(s, id, other) && !other.HasVanished? && !Forgets(s, e, other) {
      var kept := PlaceAfter(s, e, id, other);
    } else if found :| At(Next(s, e), id, found) && !found.HasVanished? {
      assert Forgets(s, e, place);
      OtherPlacesAreOld(s, e, id, found);
    }
    if e.Crash? {
      forall kept | At(s, id, kept) && !Forgets(s, e, kept)
        ensures At(Next(s, e), id, kept)
      {
        CrashPlace(s, e, id, kept);
      }
    }
  }

  // ----- runs in which no job can vanish -----

  ghost predicate Careful(e: Event) {
    && !e.Crash? && !(e.TimerFire? && e.add.Refused?) && !(e.Process? && !e.ok && e.ack.ReplyLost?)
  }

  lemma {:induction false} CarefulRun(s: State, es: seq<Event>)
    requires Sound(s) && NoneLost(s) && s.vanished == {} && Legal(s, es)
    requires forall i :: 0 <= i < |es| ==> Careful(es[i])
    ensures Run(s, es).vanished == {} && NoneLost(Run(s, es))
    decreases |es|
  {
    hide Sound, NoneLost;
    if es != [] {
      SoundStep(s, es[0]);
      NoneLostStep(s, es[0]);
      CarefulStep(s, es[0]);
      CarefulRun(Next(s, es[0]), es[1..]);
    }
  }

  lemma CarefulStep(s: State, e: Event)
    requires Enabled(s, e) && Careful(e)
    ensures Next(s, e).vanished == s.vanished
  {
    hide ReadableOf, Stale, Range, AsRead;
  }

  /** Without a crash, a refused timer or a lost reply to the ack of a failed send,
      restarts, thefts and all other failures included, no job ever vanishes. */
  lemma CarefulRunsLoseNothing(minDelay: nat, es: seq<Event>, id: string)
    requires Legal(Init(minDelay), es) && forall i :: 0 <= i < |es| ==> Careful(es[i])
    requires id in Run(Init(minDelay), es).births
    ensures Present(Run(Init(minDelay), es), id)
  {
    CarefulRun(Init(minDelay), es);
    assert Somewhere(Run(Init(minDelay), es), id);
  }
}
