/**
 Mail jobs: redaction of the credential parameters, and a queue job over its attempts. The
 payload must stay whole while a retry may still come, and lose its credentials once the
 job has ended without the mail arriving.
 */
module MailJobs {
  import opened Common

  datatype Json = Text(text: string) | Other(code: int)

  datatype Message = Message(to: string, template: string, params: Option<map<string, Json>>)

  const CREDENTIAL_PARAMS: seq<string> := ["acceptUrl", "resetUrl", "verifyUrl"]
  const REDACTED := "[redacted]"

  /** A parameter under one of these keys that still holds a credential. */
  predicate LiveAmong(keys: seq<string>, params: map<string, Json>, key: string) {
    key in keys && key in params && params[key].Text? && params[key].text != REDACTED
  }

  predicate Live(params: map<string, Json>, key: string) {
    LiveAmong(CREDENTIAL_PARAMS, params, key)
  }

  function RedactAmong(keys: seq<string>, params: map<string, Json>): map<string, Json> {
    map k | k in params :: if LiveAmong(keys, params, k) then Text(REDACTED) else params[k]
  }

  function RedactParams(params: map<string, Json>): map<string, Json> {
    RedactAmong(CREDENTIAL_PARAMS, params)
  }

  function Redact(data: Message): Message {
    if data.params.None? then data else data.(params := Some(RedactParams(data.params.value)))
  }

  predicate HasCredential(data: Message) {
    data.params.Some? && exists k :: k in data.params.value && Live(data.params.value, k)
  }

  /** The loop of `redactMailPayload`. */
  method RedactKeys(params: map<string, Json>, keys: seq<string>) returns (scrubbed: map<string, Json>, touched: bool)
    ensures scrubbed == RedactAmong(keys, params)
    ensures touched <==> exists k :: k in params && LiveAmong(keys, params, k)
  {
    scrubbed, touched := params, false;
    for n := 0 to |keys|
      invariant scrubbed == RedactAmong(keys[..n], params)
      invariant touched <==> exists k :: k in params && LiveAmong(keys[..n], params, k)
    {
      var key := keys[n];
      assert keys[..n + 1] == keys[..n] + [key];
      assert forall k :: LiveAmong(keys[..n + 1], params, k) <==> LiveAmong(keys[..n], params, k) || LiveAmong([key], params, k);
      if key in scrubbed && scrubbed[key].Text? && scrubbed[key].text != REDACTED {
        assert LiveAmong([key], params, key);
        scrubbed := scrubbed[key := Text(REDACTED)];
        touched := true;
      }
    }
    assert keys[..|keys|] == keys;
  }

  /** `redactMailPayload`; `touched` tells whether a new object was made. */
  method RedactMailPayload(data: Message) returns (r: Message, touched: bool)
    ensures r == Redact(data)
    ensures touched <==> HasCredential(data)
  {
    if data.params.None? {
      return data, false;
    }
    var scrubbed, any := RedactKeys(data.params.value, CREDENTIAL_PARAMS);
    if !any {
      assert RedactParams(data.params.value) == data.params.value;
      return data, false;
    }
    r, touched := data.(params := Some(scrubbed)), true;
  }

  /** Redaction removes every credential, changes nothing else, and is done after one go. */
  lemma RedactionMeans(data: Message)
    ensures !HasCredential(Redact(data)) && Redact(Redact(data)) == Redact(data)
    ensures Redact(data) == data <==> !HasCredential(data)
    ensures Redact(data).to == data.to && Redact(data).template == data.template && (Redact(data).params.Some? <==> data.params.Some?)
    ensures data.params.Some? ==> Redact(data).params.value.Keys == data.params.value.Keys
    ensures data.params.Some? ==> forall k :: k in data.params.value && k !in CREDENTIAL_PARAMS ==> Redact(data).params.value[k] == data.params.value[k]
  {
    if data.params.Some? {
      var params, redacted := data.params.value, RedactParams(data.params.value);
      assert forall k :: !Live(redacted, k);
      assert RedactParams(redacted) == redacted;
      if HasCredential(data) {
        var k :| k in params && Live(params, k);
        assert redacted[k] != params[k];
      } else {
        assert redacted == params;
      }
    }
  }

  // ---------------------------------------------------------------- a job and its attempts

  datatype State = Waiting | Completed | Failed

  /** `opts` is the configured number of attempts, `sent` the payloads handed to the provider. */
  datatype Job = Job(data: Message, opts: Option<nat>, attemptsMade: nat, state: State, sent: seq<Message>)

  const MAIL_ATTEMPTS: nat := 5

  datatype Delivery = Success | Transient | Terminal

  /** How one attempt turns out: the provider's answer, whether the failed event brings the job, whether the data update succeeds. */
  datatype Outcome = Outcome(delivery: Delivery, loaded: bool, updates: bool)

  function Attempts(job: Job): nat {
    if job.opts.Some? then job.opts.value else 1
  }

  /** `scrub`: a failed update is logged and swallowed. */
  function Scrub(job: Job, updates: bool): Job {
    if HasCredential(job.data) && updates then job.(data := Redact(job.data)) else job
  }

  /** `onFailed`. */
  function OnFailed(job: Job, o: Outcome): Job {
    if !o.loaded || job.attemptsMade < Attempts(job) then job else Scrub(job, o.updates)
  }

  /** One attempt of a waiting job: `process`, then what the queue does with its result. */
  function Attempt(job: Job, o: Outcome): Job {
    if job.state != Waiting then job
    else
      var tried := job.(attemptsMade := job.attemptsMade + 1, sent := job.sent + [job.data]);
      match o.delivery
      case Success => tried.(state := Completed)
      case Terminal => Scrub(tried, o.updates).(state := Completed)
      case Transient => OnFailed(tried, o).(state := if tried.attemptsMade < Attempts(tried) then Waiting else Failed)
  }

  function Run(job: Job, outcomes: seq<Outcome>): Job {
    if outcomes == [] then job else Attempt(Run(job, outcomes[..|outcomes| - 1]), outcomes[|outcomes| - 1])
  }

  function Enqueued(data: Message): Job {
    Job(data, Some(MAIL_ATTEMPTS), 0, Waiting, [])
  }

  /** The outcome that ended the job. */
  function Last(data: Message, outcomes: seq<Outcome>): Option<Outcome> {
    if outcomes == [] || Run(Enqueued(data), outcomes).state == Waiting then None
    else
      var init := outcomes[..|outcomes| - 1];
      if Run(Enqueued(data), init).state == Waiting then Some(outcomes[|outcomes| - 1]) else Last(data, init)
  }

  /** The end was a failure whose clean-up could be written. */
  predicate Cleaned(o: Outcome) {
    match o.delivery
    case Success => false
    case Terminal => o.updates
    case Transient => o.loaded && o.updates
  }

  ghost predicate AllAre(sent: seq<Message>, data: Message) {
    forall i :: 0 <= i < |sent| ==> sent[i] == data
  }

  /**
   * Over every sequence of outcomes: at most five attempts, each handing over the original
   * payload; while a retry may come, and after a success, the payload is whole; after a
   * failed or terminal end whose clean-up went through it is redacted.
   */
  lemma {:induction false} JobsOverEveryRun(data: Message, outcomes: seq<Outcome>)
    ensures var job := Run(Enqueued(data), outcomes); var last := Last(data, outcomes);
            && |job.sent| == job.attemptsMade <= MAIL_ATTEMPTS && AllAre(job.sent, data)
            && job.opts == Some(MAIL_ATTEMPTS)
            && (job.state == Waiting <==> last == None)
            && (job.state == Waiting ==> job.attemptsMade < MAIL_ATTEMPTS)
            && (job.state == Failed <==> last.Some? && last.value.delivery == Transient)
            && (job.state == Failed ==> job.attemptsMade == MAIL_ATTEMPTS)
            && job.data == if last.Some? && Cleaned(last.value) then Redact(data) else data
  {
    RedactionMeans(data);
    if outcomes != [] {
      JobsOverEveryRun(data, outcomes[..|outcomes| - 1]);
    }
  }

  /** What a finished job retains: a credential is left exactly when there was one and the mail arrived or the clean-up was lost. */
  lemma CredentialRetainedExactlyWhen(data: Message, outcomes: seq<Outcome>)
    requires Run(Enqueued(data), outcomes).state != Waiting
    ensures var last := Last(data, outcomes);
            HasCredential(Run(Enqueued(data), outcomes).data) <==> HasCredential(data) && last.Some? && !Cleaned(last.value)
  {
    JobsOverEveryRun(data, outcomes);
    RedactionMeans(data);
  }

  // ---------------------------------------------------------------- the processor

  class Processor {
    var job: Job

    constructor (data: Message)
      ensures job == Enqueued(data)
    {
      job := Enqueued(data);
    }

    /** `scrub`, with the write guard. */
    method ScrubJob(updates: bool)
      modifies this
      ensures job == Scrub(old(job), updates)
    {
      var redacted, touched := RedactMailPayload(job.data);
      if !touched {
        return;
      }
      if updates {
        job := job.(data := redacted);
      }
    }

    /** `process`: the provider gets the data as stored; `thrown` makes the queue retry. */
    method Process(o: Outcome) returns (thrown: bool)
      modifies this
      ensures thrown <==> o.delivery == Transient
      ensures var tried := old(job).(sent := old(job).sent + [old(job).data]);
              job == if o.delivery == Terminal then Scrub(tried, o.updates) else tried
    {
      job := job.(sent := job.sent + [job.data]);
      if o.delivery == Success {
        return false;
      }
      if o.delivery == Terminal {
        ScrubJob(o.updates);
        return false;
      }
      thrown := true;
    }

    /** The `failed` event. */
    method HandleFailed(loaded: bool, updates: bool)
      modifies this
      ensures job == OnFailed(old(job), Outcome(Transient, loaded, updates))
    {
      if !loaded {
        return;
      }
      var attempts := if job.opts.Some? then job.opts.value else 1;
      if job.attemptsMade < attempts {
        return;
      }
      ScrubJob(updates);
    }

    /** One turn of the queue: process, count the attempt, and report a failure. */
    method Turn(o: Outcome)
      requires job.state == Waiting
      modifies this
      ensures job == Attempt(old(job), o)
    {
      var thrown := Process(o);
      job := job.(attemptsMade := job.attemptsMade + 1);
      if !thrown {
        job := job.(state := Completed);
        return;
      }
      HandleFailed(o.loaded, o.updates);
      job := job.(state := if job.attemptsMade < Attempts(job) then Waiting else Failed);
    }
  }
}
