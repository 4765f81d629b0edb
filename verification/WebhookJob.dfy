/** A webhook job and its serialised form: the flat field map kept in a Redis
    Stream entry (internal/webhook/job.go). */
module WebhookJob {
  import opened Wrappers
  import opened Decimal

  datatype Json =
    | Null
    | Bool(b: bool)
    | Number(text: string)
    | Text(s: string)
    | Array(items: seq<Json>)
    | Object(members: map<string, Json>)

  type Payload = map<string, Json>

  /** The stream entry a job was read from (MessageID) is kept beside the job, not
      in it: it is not serialised. `data` is None for Go's nil map. */
  datatype Job = Job(
    jobID: string,
    eventType: string,
    userID: string,
    data: Option<Payload>,
    attempts: int,
    createdAt: string,
    lastError: string
  )

  type Fields = map<string, string>

  /** The JSON library: a printer, and a parser that fails on malformed text and
      reads `null` as the nil map. */
  datatype JsonLibrary = JsonLibrary(
    marshal: Option<Payload> -> string,
    unmarshal: string -> Option<Option<Payload>>
  )

  /** Printing is undone by parsing, and never yields the empty text. */
  ghost predicate Faithful(json: JsonLibrary) {
    forall d :: json.marshal(d) != "" && json.unmarshal(json.marshal(d)) == Some(d)
  }

  function ToStreamFields(json: JsonLibrary, job: Job): Fields {
    var fields := map[
      "job_id" := job.jobID,
      "event_type" := job.eventType,
      "user_id" := job.userID,
      "data" := json.marshal(job.data),
      "attempts" := Itoa(job.attempts),
      "created_at" := job.createdAt];
    if job.lastError != "" then fields["last_error" := job.lastError] else fields
  }

  function Field(fields: Fields, name: string): string {
    if name in fields then fields[name] else ""
  }

  /** None is the error case: the reader acknowledges such an entry and skips it. */
  function ParseStreamMessage(json: JsonLibrary, fields: Fields): Option<Job> {
    var jobID := Field(fields, "job_id");
    var eventType := Field(fields, "event_type");
    if jobID == "" || eventType == "" then None
    else
      var text := Field(fields, "data");
      var data := if text != "" then json.unmarshal(text) else Some(None);
      if data == None then None
      else
        Some(Job(
               jobID,
               eventType,
               Field(fields, "user_id"),
               Some(if data.value == None then map[] else data.value.value),
               if "attempts" in fields then Atoi(fields["attempts"]) else 0,
               Field(fields, "created_at"),
               Field(fields, "last_error")))
  }

  /** Whether a reader accepts the job, rather than discarding it as corrupt. */
  predicate Readable(job: Job) { job.jobID != "" && job.eventType != "" }

  /** The job as its reader sees it: nil data has become the empty map. */
  function AsRead(job: Job): Job {
    job.(data := Some(if job.data == None then map[] else job.data.value))
  }

  predicate Int64(n: int) { MIN_INT64 <= n <= MAX_INT64 }

  lemma FieldsWritten(json: JsonLibrary, job: Job)
    ensures var fields := ToStreamFields(json, job);
            && Field(fields, "job_id") == job.jobID && Field(fields, "event_type") == job.eventType
            && Field(fields, "user_id") == job.userID && Field(fields, "data") == json.marshal(job.data)
            && "attempts" in fields && fields["attempts"] == Itoa(job.attempts)
            && Field(fields, "created_at") == job.createdAt && Field(fields, "last_error") == job.lastError
  {
    hide Itoa;
  }

  /** Reading back what was written gives the same job when the job has an id and
      an event type, and is refused otherwise: for every job, both directions. */
  lemma ParseOfToStreamFields(json: JsonLibrary, job: Job)
    requires Faithful(json) && Int64(job.attempts)
    ensures ParseStreamMessage(json, ToStreamFields(json, job))
         == if Readable(job) then Some(AsRead(job)) else None
  {
    hide ToStreamFields, Field, Atoi, Itoa;
    AtoiOfItoa(job.attempts);
    FieldsWritten(json, job);
    assert json.marshal(job.data) != "" && json.unmarshal(json.marshal(job.data)) == Some(job.data);
  }

  /** Which entries are refused, whoever wrote them: those without an id or an event
      type, and those whose data is text that the JSON library cannot read. Any other
      missing field reads as empty, and missing or malformed attempts as none. */
  lemma AcceptedIff(json: JsonLibrary, fields: Fields)
    ensures ParseStreamMessage(json, fields).Some? <==>
            && "job_id" in fields && fields["job_id"] != "" && "event_type" in fields && fields["event_type"] != ""
            && ("data" in fields && fields["data"] != "" ==> json.unmarshal(fields["data"]).Some?)
    ensures ParseStreamMessage(json, fields).Some? ==>
              var job := ParseStreamMessage(json, fields).value;
              && Readable(job) && job.jobID == fields["job_id"] && job.eventType == fields["event_type"]
              && ("attempts" !in fields || ParseSigned(fields["attempts"]) == None ==> job.attempts == 0)
              && ("data" !in fields ==> job.data == Some(map[]))
              && ("user_id" !in fields ==> job.userID == "") && ("last_error" !in fields ==> job.lastError == "")
  {
    hide ParseSigned;
  }

  /** Two jobs written as the same fields are the same job up to nil data. */
  lemma ToStreamFieldsInjective(json: JsonLibrary, a: Job, b: Job)
    requires Faithful(json) && Int64(a.attempts) && Int64(b.attempts)
    requires Readable(a) && ToStreamFields(json, a) == ToStreamFields(json, b)
    ensures AsRead(a) == AsRead(b)
  {
    ParseOfToStreamFields(json, a);
    ParseOfToStreamFields(json, b);
  }
}
