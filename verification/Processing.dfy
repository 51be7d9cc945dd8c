/**
 * One job from claim to terminal status: the wait for an asynchronous provider
 * with its deadline, storing the result, and writing the outcome.
 */
module Processing {
  import opened Basics
  import opened JobStatuses
  import Retry
  import opened BlobPaths
  import opened Tables
  import opened Retention

  type ProviderError = Retry.ProviderError

  /** Durations are in milliseconds. */
  const POLL_INTERVAL := 10_000

  const MAX_ASYNC_WAIT := 900_000

  const MAX_POLLS := 90

  // ---------------------------------------------------------------- provider errors

  function ErrorCodeOf(e: ProviderError): ErrorCode {
    match e
    case Validation => ErrorCode.Validation
    case Unauthorized => ErrorCode.Internal
    case DeploymentNotFound => ErrorCode.Internal
    case Internal => ErrorCode.Internal
    case RateLimited => ErrorCode.RateLimited
    case ContentFilter => ErrorCode.ContentFilter
    case Upstream => ErrorCode.Upstream
    case Malformed => ErrorCode.Upstream
    case Timeout => ErrorCode.Upstream
  }

  function UserMessage(e: ProviderError): Message {
    match e
    case ContentFilter => ErrContentFilter
    case RateLimited => ErrRateLimited
    case Timeout => ErrGenerationTimeout
    case Validation => ErrValidation
    case Upstream => ErrUpstream
    case Malformed => ErrUpstream
    case DeploymentNotFound => ErrNotDeployed
    case Unauthorized => ErrInternal
    case Internal => ErrInternal
  }

  function FailedWith(e: ProviderError): JobStatus { Failed(ErrorCodeOf(e), UserMessage(e)) }

  /**
   * What a failed provider call is told as, by the answer itself: the user's own mistakes and the limits by name, a
   * refused credential as any internal failure, and everything else as the provider's.
   */
  lemma AnswersAreTold(status: nat, filtered: bool)
    ensures FailedWith(Retry.MapStatus(status, filtered)) ==
      if filtered then Failed(ErrorCode.ContentFilter, ErrContentFilter)
      else if status == 400 then Failed(ErrorCode.Validation, ErrValidation)
      else if status in {401, 403} then Failed(ErrorCode.Internal, ErrInternal)
      else if status == 404 then Failed(ErrorCode.Internal, ErrNotDeployed)
      else if status == 429 then Failed(ErrorCode.RateLimited, ErrRateLimited)
      else Failed(ErrorCode.Upstream, ErrUpstream)
    ensures FailedWith(Retry.ErrorOf(Retry.TransportTimeout)) == Failed(ErrorCode.Upstream, ErrGenerationTimeout)
    ensures FailedWith(Retry.ErrorOf(Retry.TransportFailed)) == Failed(ErrorCode.Upstream, ErrUpstream)
  {
  }

  const TIMED_OUT := Failed(ErrorCode.Upstream, ErrGenerationTimeout)

  const INTERNAL_FAILURE := Failed(ErrorCode.Internal, ErrInternal)

  // ---------------------------------------------------------------- polling

  datatype Media = Media(extension: string)

  datatype Progress = StillRunning | Complete | GaveUp

  function Lower(c: char): char { if 'A' <= c <= 'Z' then c - 'A' + 'a' else c }

  function LowerCase(s: string): (t: string)
    ensures |t| == |s|
    ensures forall i :: 0 <= i < |s| ==> t[i] as int == s[i] as int + if 65 <= s[i] as int <= 90 then 32 else 0
  {
    seq(|s|, i requires 0 <= i < |s| => Lower(s[i]))
  }

  function Classify(status: string): Progress {
    var lowered := LowerCase(status);
    if lowered == "completed" || lowered == "succeeded" then Complete
    else if lowered == "failed" || lowered == "cancelled" || lowered == "canceled" then GaveUp
    else StillRunning
  }

  /** What one poll learns: the reported status, with the clip behind it or the reason it failed. */
  datatype Poll =
    | Reported(status: string, clip: Result<Media, ProviderError>, reason: ProviderError)
    | Unanswered(error: ProviderError)

  predicate KeepsRunning(p: Poll) { p.Reported? && Classify(p.status).StillRunning? }

  function Verdict(p: Poll): Result<Media, JobStatus>
    requires !KeepsRunning(p)
  {
    if p.Unanswered? then Err(FailedWith(p.error))
    else if Classify(p.status).GaveUp? then Err(FailedWith(p.reason))
    else if p.clip.Ok? then Ok(p.clip.value) else Err(FailedWith(p.clip.error))
  }

  /** The environment of one wait: how long each sleep and each poll really takes, and what polls learn. */
  datatype Provider = Provider(sleeps: nat -> nat, polling: nat -> nat, answers: nat -> Poll)

  ghost predicate SleepsLongEnough(p: Provider) { forall i: nat :: p.sleeps(i) >= POLL_INTERVAL }

  /** The clock when cycle `n` begins, counted from the start of the wait. */
  function Clock(p: Provider, n: nat): nat {
    if n == 0 then 0 else Clock(p, n - 1) + p.sleeps(n - 1) + p.polling(n - 1)
  }

  lemma {:induction false} ClockAdvances(p: Provider, n: nat)
    requires SleepsLongEnough(p)
    ensures Clock(p, n) >= n * POLL_INTERVAL
  {
    if n > 0 {
      ClockAdvances(p, n - 1);
    }
  }

  ghost predicate StillRunningUntil(p: Provider, n: nat) {
    forall i: nat :: i < n ==> KeepsRunning(p.answers(i)) && Clock(p, i) < MAX_ASYNC_WAIT
  }

  /** What waiting comes to after `polls` polls: the first final answer, or the timeout. */
  ghost predicate Awaited(p: Provider, r: Result<Media, JobStatus>, polls: nat) {
    || (polls > 0 && StillRunningUntil(p, polls - 1) && Clock(p, polls - 1) < MAX_ASYNC_WAIT
        && !KeepsRunning(p.answers(polls - 1)) && r == Verdict(p.answers(polls - 1)))
    || (StillRunningUntil(p, polls) && Clock(p, polls) >= MAX_ASYNC_WAIT && r == Err(TIMED_OUT))
  }

  /**
   * Polls until the provider is done or the deadline has passed. However long sleeps and polls take and whatever
   * statuses are reported, at most 90 polls are made, none in a cycle begun at or after the deadline.
   */
  method AwaitMedia(p: Provider) returns (r: Result<Media, JobStatus>, polls: nat)
    requires SleepsLongEnough(p)
    ensures polls <= 90
    ensures polls > 0 ==> Clock(p, polls - 1) < 900_000
    ensures Awaited(p, r, polls)
    ensures r.Err? ==> r.error.Failed?
  {
    polls := 0;
    var elapsed := 0;
    while true
      invariant elapsed == Clock(p, polls)
      invariant StillRunningUntil(p, polls)
      invariant polls <= MAX_POLLS
      decreases MAX_POLLS - polls
    {
      ClockAdvances(p, polls);
      if elapsed >= MAX_ASYNC_WAIT {
        return Err(TIMED_OUT), polls;
      }
      elapsed := elapsed + p.sleeps(polls);
      var answer := p.answers(polls);
      elapsed := elapsed + p.polling(polls);
      polls := polls + 1;
      var status := ReadAnswer(answer);
      if status.Some? {
        return status.value, polls;
      }
    }
  }

  /** The reported words that end a wait with a clip, in any case of letters. */
  const FINISHED := {"completed", "succeeded"}

  /** The reported words that end it without one. */
  const GIVEN_UP := {"failed", "cancelled", "canceled"}

  lemma ClassifiedByWord(status: string)
    ensures Classify(status).Complete? <==> LowerCase(status) in FINISHED
    ensures Classify(status).GaveUp? <==> LowerCase(status) in GIVEN_UP
  {
    assert "completed"[0] == 'c' && "succeeded"[0] == 's' && "failed"[0] == 'f';
    assert "completed"[1] == 'o' && "cancelled"[1] == 'a' && "canceled"[1] == 'a';
  }

  /** The error an answer carries when it ends the wait without media. */
  function ErrorIn(p: Poll): ProviderError {
    if p.Unanswered? then p.error
    else if LowerCase(p.status) in FINISHED && p.clip.Err? then p.clip.error else p.reason
  }

  /** An answer that ends the wait: none at all, or one of the five words. */
  predicate EndsTheWait(p: Poll) { p.Unanswered? || LowerCase(p.status) in FINISHED + GIVEN_UP }

  /**
   * What a finished wait says of the answers. No earlier answer would have ended it. If the last one does, the result is
   * its clip, after the word for it, or its own error: why it was not answered, why the provider gave up, or why the clip
   * could not be had. Else, however new the statuses, the wait has lasted to the deadline and is told as a timeout.
   */
  lemma WhatEndsTheWait(p: Provider, r: Result<Media, JobStatus>, polls: nat)
    requires Awaited(p, r, polls)
    ensures forall i: nat :: i + 1 < polls ==> !EndsTheWait(p.answers(i))
    ensures if polls > 0 && EndsTheWait(p.answers(polls - 1)) then
        var last := p.answers(polls - 1);
        r == if last.Reported? && LowerCase(last.status) in FINISHED && last.clip.Ok? then Ok(last.clip.value)
             else Err(FailedWith(ErrorIn(last)))
      else r == Err(Failed(ErrorCode.Upstream, ErrGenerationTimeout)) && Clock(p, polls) >= 900_000
  {
    forall i: nat | i < polls ensures EndsTheWait(p.answers(i)) <==> !KeepsRunning(p.answers(i)) {
      if p.answers(i).Reported? { ClassifiedByWord(p.answers(i).status); }
    }
    if polls > 0 && p.answers(polls - 1).Reported? {
      ClassifiedByWord(p.answers(polls - 1).status);
    }
  }

  method ReadAnswer(answer: Poll) returns (r: Option<Result<Media, JobStatus>>)
    ensures r.None? <==> KeepsRunning(answer)
    ensures r.Some? ==> r.value == Verdict(answer)
    ensures r.None? <==> answer.Reported? && LowerCase(answer.status) !in FINISHED + GIVEN_UP
    ensures r.Some? && r.value.Ok? <==> answer.Reported? && LowerCase(answer.status) in FINISHED && answer.clip.Ok?
  {
    if answer.Reported? {
      ClassifiedByWord(answer.status);
    }
    match answer {
      case Unanswered(error) =>
        r := Some(Err(FailedWith(error)));
      case Reported(status, clip, reason) =>
        var progress := Classify(status);
        if progress.Complete? {
          r := Some(match clip case Ok(media) => Ok(media) case Err(error) => Err(FailedWith(error)));
        } else if progress.GaveUp? {
          r := Some(Err(FailedWith(reason)));
        } else {
          r := None;
        }
    }
  }

  /** Ninety polls do happen: a provider that never finishes, polled without delay. */
  lemma NinetyPollsHappen(p: Provider)
    requires forall i: nat :: p.sleeps(i) == 10_000 && p.polling(i) == 0 && KeepsRunning(p.answers(i))
    ensures StillRunningUntil(p, 90) && Clock(p, 90) == 900_000
  {
    forall i: nat ensures Clock(p, i) == i * POLL_INTERVAL {
      SteadyClock(p, i);
    }
  }

  lemma {:induction false} SteadyClock(p: Provider, n: nat)
    requires forall i: nat :: p.sleeps(i) == POLL_INTERVAL && p.polling(i) == 0
    ensures Clock(p, n) == n * POLL_INTERVAL
  {
    if n > 0 {
      SteadyClock(p, n - 1);
    }
  }

  // ---------------------------------------------------------------- one job

  /** A status write as its caller sees it; a failed one may still have been applied. */
  datatype Call = Works | Fails(applied: bool)

  /** Everything outside the rows that decides how a job goes. */
  datatype World = World(
    claim: Call,
    finish: Call,
    referenceReadable: bool,
    submission: Result<Option<Media>, ProviderError>,
    provider: Provider,
    uploadAccepted: bool,
    insertAccepted: bool)

  /** Image and speech come back at once; only video is waited for. */
  ghost predicate GeneratesAs(world: World, r: Result<Media, JobStatus>) {
    if !world.referenceReadable then r == Err(INTERNAL_FAILURE)
    else if world.submission.Err? then r == Err(FailedWith(world.submission.error))
    else if world.submission.value.Some? then r == Ok(world.submission.value.value)
    else exists polls: nat :: polls <= MAX_POLLS && Awaited(world.provider, r, polls)
  }

  method Generate(world: World) returns (r: Result<Media, JobStatus>)
    requires SleepsLongEnough(world.provider)
    ensures GeneratesAs(world, r)
    ensures r.Err? ==> r.error.Failed?
  {
    if !world.referenceReadable {
      return Err(INTERNAL_FAILURE);
    }
    match world.submission {
      case Err(error) =>
        r := Err(FailedWith(error));
      case Ok(submitted) =>
        if submitted.Some? {
          return Ok(submitted.value);
        }
        var polls;
        r, polls := AwaitMedia(world.provider);
    }
  }

  /** Uploads first, inserts the row second, so a row never names a blob that was not uploaded. */
  method Store(db: Database, store: Container, world: World, key: nat, id: string, path: string, ghost now: int)
    returns (ok: bool)
    requires db.Valid(now) && key !in db.assets
    modifies db`assets, store
    ensures db.Valid(now)
    ensures ok <==> world.uploadAccepted && world.insertAccepted && id in db.jobs
    ensures store.blobs == old(store.blobs) + if world.uploadAccepted then {path} else {}
    ensures db.assets == if ok then old(db.assets)[key := Asset(id, path)] else old(db.assets)
  {
    if !world.uploadAccepted {
      return false;
    }
    store.blobs := store.blobs + {path};
    ok := false;
    if world.insertAccepted {
      ok := db.CreateAsset(key, Asset(id, path), now);
    }
  }

  /** The times at which the two status writes happen, and the month the media is filed under. */
  datatype Times = Times(claim: int, finish: int, year: nat, month: nat)

  /** What the job must end as: its own failure if it generated nothing, else success exactly when the media was stored. */
  predicate EndsAs(world: World, r: Result<Media, JobStatus>, status: JobStatus) {
    if r.Err? then status == r.error
    else status == if world.uploadAccepted && world.insertAccepted then Succeeded else Failed(ErrorCode.Internal, ErrInternal)
  }

  /** The blobs one job adds: its media, once accepted, under a path that names the job. */
  function NewBlobs(world: World, r: Result<Media, JobStatus>, times: Times, media: MediaType, id: string): set<string>
    requires 1 <= times.month <= 12
  {
    if r.Ok? && world.uploadAccepted then {BlobPath(times.year, times.month, media, id, r.value.extension)} else {}
  }

  /**
   * Drives one job. One that is not queued, or whose claim failed, is left to others. Any other is given a terminal
   * status, whatever the provider, the container and the insert do: succeeded exactly when its asset row was stored, with
   * the blob it names. The row has it unless the final write failed without effect, which leaves the row running, and it
   * is published exactly when that write was acknowledged.
   */
  method Process(db: Database, store: Container, world: World, id: string, key: nat, times: Times)
    returns (published: Option<JobStatus>, ghost status: JobStatus, ghost generated: Result<Media, JobStatus>)
    requires db.Valid(times.claim) && times.claim <= times.finish && key !in db.assets
    requires SleepsLongEnough(world.provider) && 1 <= times.month <= 12
    modifies db, store
    ensures db.Valid(times.finish)
    ensures world.claim.Fails? ==>
      && published.None? && db.assets == old(db.assets) && store.blobs == old(store.blobs)
      && db.jobs == if world.claim.applied then MarkRunning(old(db.jobs), id, times.claim) else old(db.jobs)
    ensures world.claim.Works? && !Claimable(old(db.jobs), id) ==>
      published.None? && db.jobs == old(db.jobs) && db.assets == old(db.assets) && store.blobs == old(store.blobs)
    ensures world.claim.Works? && Claimable(old(db.jobs), id) ==>
      var running := MarkRunning(old(db.jobs), id, times.claim);
      && GeneratesAs(world, generated) && EndsAs(world, generated, status) && (status.Succeeded? || status.Failed?)
      && published == (if world.finish.Works? then Some(status) else None)
      && db.jobs == (if world.finish.Works? || world.finish.applied then Finish(running, id, status, times.finish) else running)
      && (world.finish.Works? ==> StatusOf(db.jobs[id]) == status)
      && store.blobs == old(store.blobs) + NewBlobs(world, generated, times, old(db.jobs)[id].media, id)
      && (if status.Succeeded? then
            var media := old(db.jobs)[id].media;
            db.assets == old(db.assets)[key := Asset(id, BlobPath(times.year, times.month, media, id, generated.value.extension))]
          else db.assets == old(db.assets))
  {
    published, status, generated := None, INTERNAL_FAILURE, Err(INTERNAL_FAILURE);
    if world.claim.Fails? {
      if world.claim.applied {
        var unseen := db.ClaimJob(id, times.claim);
      }
      assert db.Valid(times.finish);
      return;
    }
    var claimed := db.ClaimJob(id, times.claim);
    if claimed.None? {
      assert db.Valid(times.finish);
      return;
    }
    var outcome, media := Work(db, store, world, id, claimed.value.media, key, times);
    status, generated := outcome, media;
    assert db.Valid(times.finish);
    if world.finish.Works? || world.finish.applied {
      var finished := db.FinishJob(id, outcome, times.finish);
    }
    published := if world.finish.Works? then Some(outcome) else None;
  }

  /** Between the two status writes: generate, then store. */
  method Work(db: Database, store: Container, world: World, id: string, media: MediaType, key: nat, times: Times)
    returns (status: JobStatus, generated: Result<Media, JobStatus>)
    requires db.Valid(times.claim) && key !in db.assets && id in db.jobs
    requires SleepsLongEnough(world.provider) && 1 <= times.month <= 12
    modifies db`assets, store
    ensures db.Valid(times.claim)
    ensures GeneratesAs(world, generated) && EndsAs(world, generated, status) && (status.Succeeded? || status.Failed?)
    ensures store.blobs == old(store.blobs) + NewBlobs(world, generated, times, media, id)
    ensures if status.Succeeded? then
        db.assets == old(db.assets)[key := Asset(id, BlobPath(times.year, times.month, media, id, generated.value.extension))]
      else db.assets == old(db.assets)
  {
    status := INTERNAL_FAILURE;
    generated := Generate(world);
    match generated {
      case Ok(file) =>
        var path := BlobPath(times.year, times.month, media, id, file.extension);
        var stored := Store(db, store, world, key, id, path, times.claim);
        if stored {
          status := Succeeded;
        }
      case Err(failure) =>
        status := failure;
    }
  }
}
