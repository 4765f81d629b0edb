/** The webhook delivery protocol as a state machine.

    Jobs move between delay timers held in process memory, a Redis Stream, the
    consumer group's pending list, the in-memory batch of a worker, and their
    final fates. Any number of processes may run; each owns its timers and its
    batch, which a crash destroys. Stream message ids are modelled by the index of
    the entry, time by milliseconds. */
module Delivery {
  import opened Wrappers
  import opened WebhookJob

  const SECOND: nat := 1000
  const MAX_ATTEMPTS: nat := 10
  const RETRY_DELAY: nat := 3 * SECOND
  const BATCH_SIZE: nat := 10
  const STALE_IDLE: nat := 120 * SECOND

  /** XAUTOCLAIM looks at ten times COUNT pending entries before it gives up. */
  const CLAIM_SCAN: nat := 10 * BATCH_SIZE

  /** What became of one Redis command: done; not done, with an error; or done
      with its answer lost, which the caller also sees as an error. */
  datatype Reply = Answered | Refused | ReplyLost

  datatype Timer = Timer(owner: nat, fireAt: nat, job: Job)

  /** A pending-list entry: who was given the message, and when. */
  datatype Claim = Claim(consumer: nat, at: nat)

  /** `since` is when the worker turned to the first job of its batch. */
  datatype Worker = Worker(batch: seq<nat>, since: nat)

  datatype Birth = Birth(at: nat, delay: nat, eventType: string, userID: string, data: Payload, createdAt: string)

  datatype Send = Send(mid: nat, job: Job, at: nat, ok: bool, acked: bool)

  datatype State = State(
    minDelay: nat,
    now: nat,
    stream: seq<Job>,
    cursor: nat,
    pending: map<nat, Claim>,
    workers: map<nat, Worker>,
    timers: map<nat, Timer>,
    serial: nat,
    // history
    births: map<string, Birth>,
    delivered: set<string>,
    dropped: set<string>,
    skipped: set<string>,
    vanished: set<string>,
    sends: seq<Send>,
    claims: multiset<string>
  )

  datatype Event =
    | Tick(d: nat)
    | Start(p: nat, reply: Reply, unacked: set<nat>)
    | Crash(p: nat)
    | Enqueue(p: nat, jobID: string, eventType: string, userID: string, data: Option<Payload>, createdAt: string,
              offset: int, add: Reply)
    | TimerFire(k: nat, add: Reply)
    | Read(p: nat, reply: Reply, unacked: set<nat>)
    | Process(p: nat, ok: bool, ack: Reply, error: string)

  function Init(minDelay: nat): State {
    State(minDelay, 0, [], 0, map[], map[], map[], 0, map[], {}, {}, {}, {}, [], multiset{})
  }

  // ----- the steps -----

  /** Enqueue: a positive delay becomes a timer, otherwise the job is added now. A
      refused add is reported to the caller and leaves nothing behind. */
  function EnqueueStep(s: State, e: Event): State
    requires e.Enqueue?
  {
    var job := Job(e.jobID, e.eventType, e.userID, e.data, 0, e.createdAt, "");
    var delay: nat := Max(s.minDelay, e.offset);
    var birth := Birth(s.now, delay, e.eventType, e.userID, AsRead(job).data.value, e.createdAt);
    var born := s.(births := s.births[e.jobID := birth]);
    if delay > 0 then born.(timers := s.timers[s.serial := Timer(e.p, s.now + delay, job)], serial := s.serial + 1)
    else if e.add.Refused? then s
    else born.(stream := s.stream + [AsRead(job)])
  }

  /** A timer goroutine: add to the stream, or log the failure and forget. */
  function TimerStep(s: State, k: nat, add: Reply): State
    requires k in s.timers
  {
    var job := s.timers[k].job;
    var s := s.(timers := s.timers - {k});
    if add.Refused? then s.(vanished := s.vanished + {job.jobID})
    else s.(stream := s.stream + [AsRead(job)])
  }

  predicate Within(mids: seq<nat>, n: nat) { forall i :: 0 <= i < |mids| ==> mids[i] < n }

  /** The messages of a batch that parse, in order. */
  function ReadableOf(stream: seq<Job>, mids: seq<nat>): seq<nat>
    requires Within(mids, |stream|)
  {
    if mids == [] then []
    else (if Readable(stream[mids[0]]) then [mids[0]] else []) + ReadableOf(stream, mids[1..])
  }

  lemma {:induction false} ReadableOfContents(stream: seq<Job>, mids: seq<nat>)
    requires Within(mids, |stream|)
    ensures |ReadableOf(stream, mids)| <= |mids|
    ensures Within(ReadableOf(stream, mids), |stream|)
    ensures forall m :: m in ReadableOf(stream, mids) <==> m in mids && m < |stream| && Readable(stream[m])
    ensures Distinct(mids) ==> Distinct(ReadableOf(stream, mids))
  {
    if mids != [] { ReadableOfContents(stream, mids[1..]); }
  }

  function Given(mids: seq<nat>, p: nat, at: nat): map<nat, Claim> { map m | m in mids :: Claim(p, at) }

  /** Hands messages to a worker: all become its pending entries; those that do
      not parse are acknowledged at once unless their XACK (`unacked`) fails. When
      the answer is lost the server has the entries and the worker has nothing. */
  function Hand(s: State, p: nat, mids: seq<nat>, reply: Reply, unacked: set<nat>): State
    requires Within(mids, |s.stream|)
  {
    var given := Given(mids, p, s.now);
    if reply.Answered? then
      var corrupt := set m | m in mids && !Readable(s.stream[m]) && m !in unacked;
      s.(pending := (s.pending + given) - corrupt,
         skipped := s.skipped + (set m | m in corrupt :: s.stream[m].jobID),
         workers := s.workers[p := Worker(ReadableOf(s.stream, mids), s.now)])
    else s.(pending := s.pending + given, workers := s.workers[p := Worker([], s.now)])
  }

  function Range(a: nat, b: nat): (r: seq<nat>)
    requires a <= b
    ensures |r| == b - a && (forall i :: 0 <= i < |r| ==> r[i] == a + i)
    ensures Within(r, b) && Distinct(r)
    ensures forall m :: m in r <==> a <= m < b
    decreases b - a
  {
    if a == b then [] else [a] + Range(a + 1, b)
  }

  /** XREADGROUP with ">": the next entries never delivered to the group. */
  function ReadStep(s: State, p: nat, reply: Reply, unacked: set<nat>): State
    requires s.cursor <= |s.stream|
  {
    if reply.Refused? then s
    else
      var end := Min(s.cursor + BATCH_SIZE, |s.stream|);
      Hand(s, p, Range(s.cursor, end), reply, unacked).(cursor := end)
  }

  /** XAUTOCLAIM from 0-0: scans pending entries in id order, takes at most `count`
      of those idle long enough, and looks at no more than `scan` of them. */
  function Stale(pending: map<nat, Claim>, now: nat, from: nat, end: nat, count: nat, scan: nat): (mids: seq<nat>)
    requires from <= end
    ensures |mids| <= count
    ensures forall m :: m in mids ==> from <= m < end && m in pending && now - pending[m].at >= STALE_IDLE
    ensures Distinct(mids) && Within(mids, end)
    decreases end - from
  {
    if from == end || count == 0 || scan == 0 then []
    else if from !in pending then Stale(pending, now, from + 1, end, count, scan)
    else if now - pending[from].at >= STALE_IDLE then
      [from] + Stale(pending, now, from + 1, end, count - 1, scan - 1)
    else Stale(pending, now, from + 1, end, count, scan - 1)
  }

  /** How many entries in this range are pending. */
  function PendingCount(pending: map<nat, Claim>, from: nat, end: nat): nat
    requires from <= end
    decreases end - from
  {
    if from == end then 0 else (if from in pending then 1 else 0) + PendingCount(pending, from + 1, end)
  }

  /** A claim passes over a stale entry only when its page is full or its scan has
      ended before it; what it takes are the entries with the smallest ids. */
  lemma {:induction false} StaleTakesTheOldest(pending: map<nat, Claim>, now: nat, from: nat, end: nat,
                                               count: nat, scan: nat, m: nat)
    requires from <= m < end && m in pending && now - pending[m].at >= STALE_IDLE
    ensures var mids := Stale(pending, now, from, end, count, scan);
            || m in mids
            || ((|mids| == count || PendingCount(pending, from, m) >= scan) && forall x :: x in mids ==> x < m)
    decreases end - from
  {
    if from < m && count > 0 && scan > 0 {
      var taken := from in pending && now - pending[from].at >= STALE_IDLE;
      var count', scan' := if taken then count - 1 else count, if from in pending then scan - 1 else scan;
      StaleTakesTheOldest(pending, now, from + 1, end, count', scan', m);
      var mids, rest := Stale(pending, now, from, end, count, scan), Stale(pending, now, from + 1, end, count', scan');
      assert mids == if taken then [from] + rest else rest;
      hide Stale;
      assert m in rest ==> m in mids;
      assert forall x :: x in mids ==> x == from || x in rest;
    }
  }

  function StaleNow(s: State): seq<nat> {
    Stale(s.pending, s.now, 0, |s.stream|, BATCH_SIZE, CLAIM_SCAN)
  }

  function IdsOf(stream: seq<Job>, mids: seq<nat>): (ids: seq<string>)
    requires Within(mids, |stream|)
    ensures |ids| == |mids| && forall i :: 0 <= i < |ids| ==> ids[i] == stream[mids[i]].jobID
  {
    seq(|mids|, i requires 0 <= i < |mids| => stream[mids[i]].jobID)
  }

  /** A worker starts, or restarts after a panic with its timers still running: it
      reclaims one page of stale messages before it reads new ones. */
  function StartStep(s: State, p: nat, reply: Reply, unacked: set<nat>): State {
    if reply.Refused? then s.(workers := s.workers[p := Worker([], s.now)])
    else
      var handed := Hand(s, p, StaleNow(s), reply, unacked);
      handed.(claims := s.claims + multiset(IdsOf(s.stream, StaleNow(s))))
  }

  function CrashStep(s: State, p: nat): State {
    s.(workers := s.workers - {p},
       timers := map k | k in s.timers && s.timers[k].owner != p :: s.timers[k],
       vanished := s.vanished + set k | k in s.timers && s.timers[k].owner == p :: s.timers[k].job.jobID)
  }

  /** The end of a failed send, RetryLater: acknowledge, then re-add later from
      memory unless this was the last attempt. If the ack errs, nothing more. */
  function RetryStep(s: State, p: nat, mid: nat, ack: Reply, error: string): State
    requires mid < |s.stream|
  {
    var job := s.stream[mid];
    if ack.Refused? then s
    else
      var s := s.(pending := s.pending - {mid});
      if ack.ReplyLost? then s.(vanished := s.vanished + {job.jobID})
      else if job.attempts + 1 >= MAX_ATTEMPTS then s.(dropped := s.dropped + {job.jobID})
      else
        var retry := job.(attempts := job.attempts + 1, lastError := error);
        s.(timers := s.timers[s.serial := Timer(p, s.now + RETRY_DELAY, retry)], serial := s.serial + 1)
  }

  /** A worker sends the first job of its batch. */
  function SendHead(s: State, e: Event): State
    requires e.Process? && e.p in s.workers && s.workers[e.p].batch != []
    requires s.workers[e.p].batch[0] < |s.stream|
  {
    var batch := s.workers[e.p].batch;
    s.(workers := s.workers[e.p := Worker(batch[1..], s.now)],
       sends := s.sends + [Send(batch[0], s.stream[batch[0]], s.now, e.ok, e.ack.Answered?)])
  }

  /** processJob: send, then acknowledge or retry. */
  function ProcessStep(s: State, e: Event): State
    requires e.Process? && e.p in s.workers && s.workers[e.p].batch != []
    requires s.workers[e.p].batch[0] < |s.stream|
  {
    var mid := s.workers[e.p].batch[0];
    var s := SendHead(s, e);
    if !e.ok then RetryStep(s, e.p, mid, e.ack, e.error)
    else if e.ack.Refused? then s
    else s.(pending := s.pending - {mid}, delivered := s.delivered + {s.stream[mid].jobID})
  }

  /** Ids come from a UUID generator: never empty, never seen before. */
  predicate Enabled(s: State, e: Event) {
    match e
    case Tick(_) => true
    case Start(_, _, _) => true
    case Crash(p) => p in s.workers
    case Enqueue(p, id, _, _, _, _, _, _) => p in s.workers && id != "" && id !in s.births
    case TimerFire(k, _) => k in s.timers && s.timers[k].fireAt <= s.now
    case Read(p, _, _) => p in s.workers && s.workers[p].batch == [] && s.cursor < |s.stream|
    case Process(p, _, _, _) => p in s.workers && s.workers[p].batch != [] && s.workers[p].batch[0] < |s.stream|
  }

  function Next(s: State, e: Event): State
    requires Enabled(s, e)
  {
    match e
    case Tick(d) => s.(now := s.now + d)
    case Start(p, reply, unacked) => StartStep(s, p, reply, unacked)
    case Crash(p) => CrashStep(s, p)
    case Enqueue(_, _, _, _, _, _, _, _) => EnqueueStep(s, e)
    case TimerFire(k, add) => TimerStep(s, k, add)
    case Read(p, reply, unacked) => ReadStep(s, p, reply, unacked)
    case Process(_, _, _, _) => ProcessStep(s, e)
  }

  // ----- runs -----

  ghost predicate Legal(s: State, es: seq<Event>)
    decreases |es|
  {
    es == [] || (Enabled(s, es[0]) && Legal(Next(s, es[0]), es[1..]))
  }

  ghost function Run(s: State, es: seq<Event>): State
    requires Legal(s, es)
    decreases |es|
  {
    if es == [] then s else Run(Next(s, es[0]), es[1..])
  }
}
