/** The queue and the worker as the program has them: objects over a Redis server,
    updated in place. A ghost `model` follows the state machine of `Delivery`; every
    method's contract names the step it performs, and `Valid` says how the real
    fields stand for the model. One process runs alone against the server here;
    other processes exist in the state machine only. */
module DeliveryQueue {
  import opened Wrappers
  import opened WebhookJob
  import opened Delivery
  import opened DeliverySafety

  datatype Message = Message(id: nat, values: Fields)

  /** The next entries of a stream of this length, at most `count` of them. */
  function NewIds(cursor: nat, count: nat, length: nat): (mids: seq<nat>)
    requires cursor <= length
    ensures Within(mids, length)
  {
    Range(cursor, Min(cursor + count, length))
  }

  /** The messages with these ids, in this order. */
  predicate IsAnswer(messages: seq<Message>, mids: seq<nat>, entries: seq<Fields>)
    requires Within(mids, |entries|)
  {
    |messages| == |mids| && forall i :: 0 <= i < |mids| ==> messages[i] == Message(mids[i], entries[mids[i]])
  }

  /** The server's side, following the Redis Streams documentation. A refused
      command does nothing; one whose reply is lost has been carried out. */
  class RedisStream {
    var entries: seq<Fields>
    var lastDelivered: nat
    var pel: map<nat, Claim>

    constructor ()
      ensures entries == [] && lastDelivered == 0 && pel == map[]
    {
      entries, lastDelivered, pel := [], 0, map[];
    }

    method XAdd(values: Fields, reply: Reply) returns (ok: bool)
      modifies this`entries
      ensures ok == reply.Answered?
      ensures entries == if reply.Refused? then old(entries) else old(entries) + [values]
    {
      if !reply.Refused? { entries := entries + [values]; }
      ok := reply.Answered?;
    }

    method XAck(mid: nat, reply: Reply) returns (ok: bool)
      modifies this`pel
      ensures ok == reply.Answered?
      ensures pel == if reply.Refused? then old(pel) else old(pel) - {mid}
    {
      if !reply.Refused? { pel := pel - {mid}; }
      ok := reply.Answered?;
    }

    method Deliver(mids: seq<nat>, consumer: nat, now: nat, reply: Reply) returns (messages: Option<seq<Message>>)
      requires Within(mids, |entries|)
      modifies this`pel
      ensures pel == if reply.Refused? then old(pel) else old(pel) + Given(mids, consumer, now)
      ensures messages.Some? == reply.Answered?
      ensures messages.Some? ==> IsAnswer(messages.value, mids, entries)
    {
      if !reply.Refused? { pel := pel + Given(mids, consumer, now); }
      var es := entries;
      var taken := seq(|mids|, i requires 0 <= i < |mids| && Within(mids, |es|) => Message(mids[i], es[mids[i]]));
      messages := if reply.Answered? then Some(taken) else None;
    }

    method XReadGroup(consumer: nat, count: nat, now: nat, reply: Reply) returns (messages: Option<seq<Message>>)
      requires lastDelivered <= |entries|
      modifies this`pel, this`lastDelivered
      ensures var end := Min(old(lastDelivered) + count, |entries|);
              var mids := NewIds(old(lastDelivered), count, |entries|);
              && lastDelivered == (if reply.Refused? then old(lastDelivered) else end)
              && pel == (if reply.Refused? then old(pel) else old(pel) + Given(mids, consumer, now))
              && messages.Some? == reply.Answered?
              && (messages.Some? ==> IsAnswer(messages.value, mids, entries))
    {
      var end := Min(lastDelivered + count, |entries|);
      var mids := NewIds(lastDelivered, count, |entries|);
      if !reply.Refused? { lastDelivered := end; }
      messages := Deliver(mids, consumer, now, reply);
    }

    /** Takes over the oldest entries that have been pending for too long. */
    method XAutoClaim(consumer: nat, count: nat, now: nat, reply: Reply) returns (messages: Option<seq<Message>>)
      modifies this`pel
      ensures var mids := Stale(old(pel), now, 0, |entries|, count, CLAIM_SCAN);
              && Within(mids, |entries|)
              && pel == (if reply.Refused? then old(pel) else old(pel) + Given(mids, consumer, now))
              && messages.Some? == reply.Answered?
              && (messages.Some? ==> IsAnswer(messages.value, mids, entries))
    {
      hide Stale;
      var mids := Stale(pel, now, 0, |entries|, count, CLAIM_SCAN);
      messages := Deliver(mids, consumer, now, reply);
    }
  }

  /** A goroutine asleep until it may add its fields to the stream. */
  datatype DelayedAdd = DelayedAdd(fireAt: nat, fields: Fields)

  // ----- how real fields stand for the model -----

  ghost predicate EntriesMatch(json: JsonLibrary, entries: seq<Fields>, stream: seq<Job>) {
    && |entries| == |stream|
    && forall m :: 0 <= m < |stream| ==>
         ParseStreamMessage(json, entries[m]) == if Readable(stream[m]) then Some(stream[m]) else None
  }

  ghost predicate TimersMatch(json: JsonLibrary, consumer: nat, delayed: map<nat, DelayedAdd>,
                              timers: map<nat, Timer>) {
    && delayed.Keys == timers.Keys
    && forall k :: k in timers ==>
         && timers[k].fireAt == delayed[k].fireAt && timers[k].owner == consumer
         && delayed[k].fields == ToStreamFields(json, timers[k].job)
  }

  lemma AddedMatches(json: JsonLibrary, entries: seq<Fields>, stream: seq<Job>, job: Job)
    requires Faithful(json) && 0 <= job.attempts < MAX_ATTEMPTS && EntriesMatch(json, entries, stream)
    ensures EntriesMatch(json, entries + [ToStreamFields(json, job)], stream + [AsRead(job)])
  {
    ParseOfToStreamFields(json, job);
  }

  lemma TimerEffect(s: State, k: nat, add: Reply)
    requires Sound(s) && Enabled(s, TimerFire(k, add))
    ensures var s' := TimerStep(s, k, add);
            && Sound(s') && 0 <= s.timers[k].job.attempts < MAX_ATTEMPTS
            && s'.timers == s.timers - {k} && s'.serial == s.serial
            && s'.stream == (if add.Refused? then s.stream else s.stream + [AsRead(s.timers[k].job)])
            && s'.cursor == s.cursor && s'.pending == s.pending && s'.now == s.now && s'.minDelay == s.minDelay
            && s'.workers == s.workers
  {
    hide WorkersSound, SendsSound, StreamSound, Accounted, PendingSound;
    SoundTimer(s, k, add);
    assert Ripe(s.births, s.timers[k].job, s.timers[k].fireAt);
  }

  ghost predicate IsBatch(jobs: seq<(nat, Job)>, batch: seq<nat>, stream: seq<Job>) {
    && |jobs| == |batch| && Within(batch, |stream|)
    && forall i :: 0 <= i < |jobs| ==> jobs[i] == (batch[i], stream[batch[i]])
  }

  ghost function Corrupt(stream: seq<Job>, mids: seq<nat>, unacked: set<nat>): set<nat>
    requires Within(mids, |stream|)
  {
    set m | m in mids && !Readable(stream[m]) && m !in unacked
  }

  lemma {:induction false} ReadableOfOneMore(stream: seq<Job>, mids: seq<nat>, m: nat)
    requires Within(mids, |stream|) && m < |stream|
    ensures Within(mids + [m], |stream|)
    ensures ReadableOf(stream, mids + [m]) == ReadableOf(stream, mids) + Kept(stream, m)
  {
    if mids == [] {
      assert mids + [m] == [m];
      assert ReadableOf(stream, [m]) == Kept(stream, m) + ReadableOf(stream, []);
    } else {
      ReadableOfOneMore(stream, mids[1..], m);
      var more := mids + [m];
      assert more[1..] == mids[1..] + [m] && more[0] == mids[0];
      hide Readable;
      var head, rest, last := Kept(stream, mids[0]), ReadableOf(stream, mids[1..]), Kept(stream, m);
      calc {
        ReadableOf(stream, more);
        head + ReadableOf(stream, more[1..]);
        head + (rest + last);
        (head + rest) + last;
        ReadableOf(stream, mids) + last;
      }
    }
  }

  function Kept(stream: seq<Job>, m: nat): seq<nat>
    requires m < |stream|
  {
    if Readable(stream[m]) then [m] else []
  }

  lemma CorruptOneMore(stream: seq<Job>, mids: seq<nat>, m: nat, unacked: set<nat>)
    requires Within(mids, |stream|) && m < |stream|
    ensures Within(mids + [m], |stream|)
    ensures forall pel: map<nat, Claim> ::
              pel - Corrupt(stream, mids + [m], unacked)
              == if !Readable(stream[m]) && m !in unacked then (pel - Corrupt(stream, mids, unacked)) - {m}
                 else pel - Corrupt(stream, mids, unacked)
  {
    assert Corrupt(stream, mids + [m], unacked)
        == Corrupt(stream, mids, unacked) + if !Readable(stream[m]) && m !in unacked then {m} else {};
  }

  lemma BatchOneMore(jobs: seq<(nat, Job)>, batch: seq<nat>, stream: seq<Job>, m: nat)
    requires IsBatch(jobs, batch, stream) && m < |stream|
    ensures IsBatch(jobs + [(m, stream[m])], batch + [m], stream)
  { }

  /** Everything a hand-over of messages changes, field by field. */
  ghost predicate IsHanded(s: State, s': State, p: nat, mids: seq<nat>, reply: Reply, unacked: set<nat>)
    requires Within(mids, |s.stream|)
  {
    var given := s.pending + Given(mids, p, s.now);
    && s'.pending == (if reply.Refused? then s.pending
                      else if reply.ReplyLost? then given
                      else given - Corrupt(s.stream, mids, unacked))
    && p in s'.workers && s'.workers[p].batch == (if reply.Answered? then ReadableOf(s.stream, mids) else [])
    && s'.stream == s.stream && s'.timers == s.timers && s'.serial == s.serial && s'.now == s.now
    && s'.minDelay == s.minDelay && s'.births == s.births
  }

  function Unread(s: State): seq<nat>
    requires s.cursor <= |s.stream|
  {
    NewIds(s.cursor, BATCH_SIZE, |s.stream|)
  }

  /** A read that finds nothing new waits, and changes nothing. */
  function AfterRead(s: State, p: nat, reply: Reply, unacked: set<nat>): State {
    if s.cursor < |s.stream| then ReadStep(s, p, reply, unacked) else s
  }

  lemma ReadEffect(s: State, p: nat, reply: Reply, unacked: set<nat>)
    requires Sound(s) && p in s.workers && s.workers[p].batch == [] && s.cursor < |s.stream|
    ensures var s' := ReadStep(s, p, reply, unacked);
            && Sound(s') && Within(Unread(s), |s.stream|) && IsHanded(s, s', p, Unread(s), reply, unacked)
            && s'.cursor == if reply.Refused? then s.cursor else Min(s.cursor + BATCH_SIZE, |s.stream|)
  {
    hide WorkersSound, SendsSound, StreamSound, Accounted, PendingSound, TimersSound, BirthsSound,
         ReadableOf, Given, Range;
    assert Enabled(s, Read(p, reply, unacked));
    SoundRead(s, Read(p, reply, unacked));
  }

  lemma StartEffect(s: State, p: nat, reply: Reply, unacked: set<nat>)
    requires Sound(s)
    ensures var s' := StartStep(s, p, reply, unacked);
            && Sound(s') && IsHanded(s, s', p, StaleNow(s), reply, unacked) && s'.cursor == s.cursor
  {
    hide Sound, Stale, ReadableOf;
    SoundStep(s, Start(p, reply, unacked));
  }

  /** The same enqueueing on real fields and on the model. */
  lemma EnqueueMatches(json: JsonLibrary, entries: seq<Fields>, delayed: map<nat, DelayedAdd>, s: State,
                       e: Event, job: Job)
    requires Faithful(json) && Sound(s) && e.Enqueue? && Enabled(s, e)
    requires EntriesMatch(json, entries, s.stream) && TimersMatch(json, e.p, delayed, s.timers)
    requires job == Job(e.jobID, e.eventType, e.userID, e.data, 0, e.createdAt, "")
    ensures var s' := EnqueueStep(s, e);
            var delay: nat := Max(s.minDelay, e.offset);
            var fields := ToStreamFields(json, job);
            && EntriesMatch(json, if delay > 0 || e.add.Refused? then entries else entries + [fields], s'.stream)
            && TimersMatch(json, e.p,
                           if delay > 0 then delayed[s.serial := DelayedAdd(s.now + delay, fields)] else delayed,
                           s'.timers)
  {
    hide ToStreamFields, ParseStreamMessage, Sound;
    EnqueueEffect(s, e, job);
    AddedMatches(json, entries, s.stream, job);
  }

  class Queue {
    const redis: RedisStream
    const json: JsonLibrary
    const consumer: nat
    const minDelay: nat
    var clock: nat
    var timers: map<nat, DelayedAdd>
    var serial: nat
    ghost var model: State

    ghost predicate Valid()
      reads this, redis
    {
      && Faithful(json) && Sound(model)
      && EntriesMatch(json, redis.entries, model.stream)
      && TimersMatch(json, consumer, timers, model.timers)
      && redis.lastDelivered == model.cursor && redis.pel == model.pending
      && serial == model.serial && clock == model.now && minDelay == model.minDelay
      && consumer in model.workers
    }

    /** NewQueue clamps a negative minimum delay to zero, and accepts a stream and a
        group that earlier processes have left behind: whatever entries and pending
        messages a run without living timers leads to. `time` is the clock's, and
        `first` the first timer number that no earlier process has used. */
    constructor (server: RedisStream, library: JsonLibrary, id: nat, delay: int, time: nat, first: nat,
                 ghost before: State)
      requires Faithful(library) && Sound(before) && before.timers == map[]
      requires EntriesMatch(library, server.entries, before.stream)
      requires server.lastDelivered == before.cursor && server.pel == before.pending
      requires time == before.now && first == before.serial && before.minDelay == Max(delay, 0)
      ensures Valid() && redis == server && json == library && consumer == id
      ensures minDelay == Max(delay, 0)
      ensures model == StartStep(before, id, Refused, {})
    {
      SoundStart(before, Start(id, Refused, {}));
      redis, json, consumer, minDelay := server, library, id, if delay < 0 then 0 else delay;
      clock, timers, serial := time, map[], first;
      model := StartStep(before, id, Refused, {});
    }

    method Wait(d: nat)
      requires Valid()
      modifies this`clock, this`model
      ensures Valid() && model == Next(old(model), Tick(d))
    {
      SoundStep(model, Tick(d));
      clock := clock + d;
      model := Next(model, Tick(d));
    }

    method AddToStream(fields: Fields, reply: Reply) returns (ok: bool)
      modifies redis`entries
      ensures ok == reply.Answered?
      ensures redis.entries == if reply.Refused? then old(redis.entries) else old(redis.entries) + [fields]
    {
      ok := redis.XAdd(fields, reply);
    }

    method Enqueue(jobID: string, eventType: string, userID: string, data: Option<Payload>, createdAt: string,
                   offset: int, add: Reply) returns (accepted: bool)
      requires Valid() && jobID != "" && jobID !in model.births
      modifies this, redis
      ensures Valid()
      ensures model == EnqueueStep(old(model),
                                   Delivery.Enqueue(consumer, jobID, eventType, userID, data, createdAt, offset, add))
      ensures accepted <==> Max(minDelay, offset) > 0 || add.Answered?
    {
      hide ToStreamFields, ParseStreamMessage, Sound, EnqueueStep;
      ghost var e := Delivery.Enqueue(consumer, jobID, eventType, userID, data, createdAt, offset, add);
      var job := Job(jobID, eventType, userID, data, 0, createdAt, "");
      SoundEnqueue(model, e);
      EnqueueEffect(model, e, job);
      EnqueueMatches(json, redis.entries, timers, model, e, job);
      model := EnqueueStep(model, e);
      var fields := ToStreamFields(json, job);
      var totalDelay := Max(minDelay, offset);
      if totalDelay > 0 {
        timers := timers[serial := DelayedAdd(clock + totalDelay, fields)];
        serial := serial + 1;
        accepted := true;
      } else {
        accepted := AddToStream(fields, add);
      }
    }

    method FireTimer(k: nat, add: Reply)
      requires Valid() && k in timers && timers[k].fireAt <= clock
      modifies this, redis
      ensures Valid() && model == TimerStep(old(model), k, add)
    {
      hide ToStreamFields, ParseStreamMessage, Sound, TimerStep;
      TimerEffect(model, k, add);
      AddedMatches(json, redis.entries, model.stream, model.timers[k].job);
      var fields := timers[k].fields;
      timers := timers - {k};
      var ok := AddToStream(fields, add);
      model := TimerStep(model, k, add);
    }

    /** The loop of ReadJobs and ClaimStale: keep what parses, acknowledge the rest
        so that it is skipped. A failing ack (`unacked`) is ignored. */
    method ParseAll(messages: seq<Message>, unacked: set<nat>, ghost mids: seq<nat>, ghost stream: seq<Job>)
      returns (jobs: seq<(nat, Job)>)
      requires EntriesMatch(json, redis.entries, stream) && Within(mids, |stream|)
      requires IsAnswer(messages, mids, redis.entries)
      modifies redis`pel
      ensures redis.pel == old(redis.pel) - Corrupt(stream, mids, unacked)
      ensures IsBatch(jobs, ReadableOf(stream, mids), stream)
    {
      jobs := [];
      for i := 0 to |messages|
        invariant redis.pel == old(redis.pel) - Corrupt(stream, mids[..i], unacked)
        invariant IsBatch(jobs, ReadableOf(stream, mids[..i]), stream)
      {
        var m, parsed := messages[i].id, ParseStreamMessage(json, messages[i].values);
        ReadableOfOneMore(stream, mids[..i], m);
        CorruptOneMore(stream, mids[..i], m, unacked);
        assert mids[..i + 1] == mids[..i] + [m];
        if parsed == None {
          assert !Readable(stream[m]);
          var _ := redis.XAck(m, if m in unacked then Refused else Answered);
        } else {
          assert Readable(stream[m]) && parsed.value == stream[m];
          BatchOneMore(jobs, ReadableOf(stream, mids[..i]), stream, m);
          jobs := jobs + [(m, parsed.value)];
        }
      }
      assert mids[..|mids|] == mids;
    }

    /** ReadJobs: empty when nothing new arrived in time, or on an error. */
    method ReadJobs(reply: Reply, unacked: set<nat>) returns (jobs: seq<(nat, Job)>)
      requires Valid() && model.workers[consumer].batch == []
      modifies this`model, redis`pel, redis`lastDelivered
      ensures Valid()
      ensures model == AfterRead(old(model), consumer, reply, unacked)
      ensures IsBatch(jobs, model.workers[consumer].batch, model.stream)
    {
      hide ToStreamFields, ParseStreamMessage, Sound, ReadStep, ReadableOf, NewIds, Min;
      jobs := [];
      if redis.lastDelivered < |redis.entries| {
        ghost var s := model;
        ReadEffect(s, consumer, reply, unacked);
        var messages := redis.XReadGroup(consumer, BATCH_SIZE, clock, reply);
        if messages.Some? {
          jobs := ParseAll(messages.value, unacked, Unread(s), s.stream);
        }
        model := ReadStep(s, consumer, reply, unacked);
      }
    }

    /** ClaimStale: one page of messages that another consumer left pending. */
    method ClaimStale(reply: Reply, unacked: set<nat>) returns (jobs: seq<(nat, Job)>)
      requires Valid()
      modifies this`model, redis`pel
      ensures Valid() && model == StartStep(old(model), consumer, reply, unacked)
      ensures IsBatch(jobs, model.workers[consumer].batch, model.stream)
    {
      hide ToStreamFields, ParseStreamMessage, Sound, StartStep, ReadableOf, Stale;
      ghost var s := model;
      StartEffect(s, consumer, reply, unacked);
      var messages := redis.XAutoClaim(consumer, BATCH_SIZE, clock, reply);
      jobs := [];
      if messages.Some? {
        jobs := ParseAll(messages.value, unacked, StaleNow(s), s.stream);
      }
      model := StartStep(s, consumer, reply, unacked);
    }

    method Ack(mid: nat, reply: Reply) returns (ok: bool)
      modifies redis`pel
      ensures ok == reply.Answered?
      ensures redis.pel == if reply.Refused? then old(redis.pel) else old(redis.pel) - {mid}
    {
      ok := redis.XAck(mid, reply);
    }

    /** RetryLater: acknowledge; if that worked and this was not the last attempt,
        leave a goroutine behind that adds the job again after the retry delay. The
        model is already past the send and awaits the outcome. */
    method RetryLater(mid: nat, job: Job, error: string, ack: Reply) returns (ok: bool)
      requires Valid() && mid < model.cursor && mid < |model.stream| && job == model.stream[mid]
               && Sent(model.sends, mid)
      modifies this, redis`pel
      ensures Valid() && model == RetryStep(old(model), consumer, mid, ack, error)
      ensures ok == ack.Answered?
    {
      hide ToStreamFields, ParseStreamMessage, Sound, RetryStep;
      ghost var s := model;
      RetryEffect(s, consumer, mid, ack, error);
      ok := Ack(mid, ack);
      model := RetryStep(s, consumer, mid, ack, error);
      if !ok { return; }
      var newAttempts := job.attempts + 1;
      if newAttempts >= MAX_ATTEMPTS { return; }
      var retry := job.(attempts := newAttempts, lastError := error);
      timers := timers[serial := DelayedAdd(clock + RETRY_DELAY, ToStreamFields(json, retry))];
      serial := serial + 1;
    }
  }

  /** RetryLater in the model, field by field. */
  lemma RetryEffect(s: State, p: nat, mid: nat, ack: Reply, error: string)
    requires Sound(s) && mid < s.cursor && mid < |s.stream| && Sent(s.sends, mid)
    ensures var s' := RetryStep(s, p, mid, ack, error);
            var again := ack.Answered? && s.stream[mid].attempts + 1 < MAX_ATTEMPTS;
            var retry := s.stream[mid].(attempts := s.stream[mid].attempts + 1, lastError := error);
            && Sound(s')
            && s'.pending == (if ack.Refused? then s.pending else s.pending - {mid})
            && s'.timers == (if again then s.timers[s.serial := Timer(p, s.now + RETRY_DELAY, retry)] else s.timers)
            && s'.serial == (if again then s.serial + 1 else s.serial)
            && s'.stream == s.stream && s'.cursor == s.cursor && s'.now == s.now && s'.minDelay == s.minDelay
            && s'.workers == s.workers
  {
    hide Sound;
    SoundRetry(s, p, mid, ack, error);
  }

  /** What the network will do to one job: the time the send takes, whether it
      succeeds, and what becomes of the acknowledgement. */
  datatype Fortune = Fortune(took: nat, ok: bool, error: string, ack: Reply)

  /** The model's account of a worker going through its batch. */
  function ProcessAll(s: State, p: nat, fortunes: seq<Fortune>): State
    requires p in s.workers && |s.workers[p].batch| == |fortunes| && Within(s.workers[p].batch, |s.stream|)
    decreases |fortunes|
  {
    if fortunes == [] then s
    else ProcessAll(ProcessOne(s, p, fortunes[0]), p, fortunes[1..])
  }

  function ProcessOne(s: State, p: nat, f: Fortune): (s': State)
    requires p in s.workers && s.workers[p].batch != [] && Within(s.workers[p].batch, |s.stream|)
    ensures p in s'.workers && s'.workers[p].batch == s.workers[p].batch[1..] && s'.stream == s.stream
  {
    ProcessStep(s.(now := s.now + f.took), Process(p, f.ok, f.ack, f.error))
  }

  lemma BatchTail(jobs: seq<(nat, Job)>, batch: seq<nat>, stream: seq<Job>)
    requires IsBatch(jobs, batch, stream) && jobs != []
    ensures jobs[0] == (batch[0], stream[batch[0]]) && IsBatch(jobs[1..], batch[1..], stream)
  { }

  /** A send in the model, field by field, and what remains to be done after it. */
  lemma SendEffect(s: State, e: Event)
    requires Sound(s) && e.Process? && Enabled(s, e)
    ensures var mid := s.workers[e.p].batch[0];
            var t, s' := SendHead(s, e), ProcessStep(s, e);
            && Sound(t) && Sound(s') && mid < t.cursor && Sent(t.sends, mid)
            && t.pending == s.pending && t.timers == s.timers && t.serial == s.serial && t.stream == s.stream
            && t.cursor == s.cursor && t.now == s.now && t.minDelay == s.minDelay && t.workers.Keys == s.workers.Keys
            && (!e.ok ==> s' == RetryStep(t, e.p, mid, e.ack, e.error))
            && (e.ok ==>
                  && s'.pending == (if e.ack.Refused? then s.pending else s.pending - {mid})
                  && s'.timers == s.timers && s'.serial == s.serial && s'.stream == s.stream
                  && s'.cursor == s.cursor && s'.now == s.now && s'.minDelay == s.minDelay && s'.workers == t.workers)
  {
    hide Sound;
    SoundSendHead(s, e);
    SoundProcess(s, e);
  }

  function EventsOf(p: nat, fortunes: seq<Fortune>): seq<Event> {
    if fortunes == [] then []
    else
      [Tick(fortunes[0].took), Process(p, fortunes[0].ok, fortunes[0].ack, fortunes[0].error)]
      + EventsOf(p, fortunes[1..])
  }

  /** A worker going through its batch is a run of the protocol, so whatever holds
      of every run holds of what the methods below do. */
  lemma {:induction false} ProcessAllIsARun(s: State, p: nat, fortunes: seq<Fortune>)
    requires p in s.workers && |s.workers[p].batch| == |fortunes| && Within(s.workers[p].batch, |s.stream|)
    ensures Legal(s, EventsOf(p, fortunes)) && Run(s, EventsOf(p, fortunes)) == ProcessAll(s, p, fortunes)
    decreases |fortunes|
  {
    hide ProcessStep;
    if fortunes != [] {
      var es := EventsOf(p, fortunes);
      var later := s.(now := s.now + fortunes[0].took);
      ProcessAllIsARun(ProcessOne(s, p, fortunes[0]), p, fortunes[1..]);
      assert es[1..][0] == es[1] && es[1..][1..] == EventsOf(p, fortunes[1..]);
      assert Legal(later, es[1..]) && Run(later, es[1..]) == ProcessAll(s, p, fortunes);
    }
  }

  class WebhookWorker {
    const queue: Queue

    constructor (q: Queue)
      ensures queue == q
    {
      queue := q;
    }

    /** processJob: one send, then Ack or RetryLater. */
    method ProcessJob(mid: nat, job: Job, f: Fortune)
      requires queue.Valid() && queue.model.workers[queue.consumer].batch != []
      requires Within(queue.model.workers[queue.consumer].batch, |queue.model.stream|)
      requires mid == queue.model.workers[queue.consumer].batch[0]
      requires job == queue.model.stream[mid]
      modifies queue, queue.redis`pel
      ensures queue.Valid()
      ensures queue.model == ProcessOne(old(queue.model), queue.consumer, f)
    {
      hide Sound, ProcessStep, SendHead, RetryStep;
      queue.Wait(f.took);
      ghost var e := Process(queue.consumer, f.ok, f.ack, f.error);
      ghost var s := queue.model;
      SendEffect(s, e);
      queue.model := SendHead(s, e);
      if f.ok {
        var _ := queue.Ack(mid, f.ack);
        queue.model := ProcessStep(s, e);
      } else {
        var _ := queue.RetryLater(mid, job, f.error, f.ack);
      }
    }

    /** The loop of readAndProcess and reclaimStale over a batch of jobs. */
    method ProcessBatch(jobs: seq<(nat, Job)>, fortunes: seq<Fortune>)
      requires queue.Valid() && |fortunes| == |jobs|
      requires IsBatch(jobs, queue.model.workers[queue.consumer].batch, queue.model.stream)
      modifies queue, queue.redis`pel
      ensures queue.Valid() && queue.model.workers[queue.consumer].batch == []
      ensures queue.model == ProcessAll(old(queue.model), queue.consumer, fortunes)
    {
      hide Sound, ProcessOne;
      ghost var s := queue.model;
      assert jobs[0..] == jobs && fortunes[0..] == fortunes;
      for i := 0 to |jobs|
        invariant queue.Valid()
        invariant IsBatch(jobs[i..], queue.model.workers[queue.consumer].batch, queue.model.stream)
        invariant ProcessAll(queue.model, queue.consumer, fortunes[i..]) == ProcessAll(s, queue.consumer, fortunes)
      {
        BatchTail(jobs[i..], queue.model.workers[queue.consumer].batch, queue.model.stream);
        assert jobs[i..][1..] == jobs[i + 1..] && fortunes[i..][1..] == fortunes[i + 1..];
        ProcessJob(jobs[i].0, jobs[i].1, fortunes[i]);
      }
    }

    /** readAndProcess: one read, then every job of it. The fortunes are those of
        the jobs read; a failed or idle read has none. */
    method ReadAndProcess(reply: Reply, unacked: set<nat>, fortunes: seq<Fortune>)
      requires queue.Valid() && queue.model.workers[queue.consumer].batch == []
      requires var s := AfterRead(queue.model, queue.consumer, reply, unacked);
               queue.consumer in s.workers && |fortunes| == |s.workers[queue.consumer].batch|
      modifies queue, queue.redis`pel, queue.redis`lastDelivered
      ensures queue.Valid() && queue.model.workers[queue.consumer].batch == []
      ensures var s := AfterRead(old(queue.model), queue.consumer, reply, unacked);
              && Within(s.workers[queue.consumer].batch, |s.stream|)
              && queue.model == ProcessAll(s, queue.consumer, fortunes)
    {
      var jobs := queue.ReadJobs(reply, unacked);
      ProcessBatch(jobs, fortunes);
    }

    /** reclaimStale: one claim at start-up, then every job of it. */
    method ReclaimStale(reply: Reply, unacked: set<nat>, fortunes: seq<Fortune>)
      requires queue.Valid()
      requires var s := StartStep(queue.model, queue.consumer, reply, unacked);
               |fortunes| == |s.workers[queue.consumer].batch|
      modifies queue, queue.redis`pel
      ensures queue.Valid() && queue.model.workers[queue.consumer].batch == []
      ensures var s := StartStep(old(queue.model), queue.consumer, reply, unacked);
              && Within(s.workers[queue.consumer].batch, |s.stream|)
              && queue.model == ProcessAll(s, queue.consumer, fortunes)
    {
      var jobs := queue.ClaimStale(reply, unacked);
      ProcessBatch(jobs, fortunes);
    }
  }
}
