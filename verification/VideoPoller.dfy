/** The bounded background poller of a cloud video job. */
module VideoPoller {
  import opened Wrappers

  const MAX_ATTEMPTS: nat := 120
  const TIMED_OUT: string := "timed out waiting for the video provider"
  const REPORTED: string := "provider reported failure"

  datatype Status = Queued | Running | Succeeded | Failed {
    predicate IsTerminal() {
      Succeeded? || Failed?
    }
  }

  datatype Job = Job(status: Status, url: Option<string>, error: Option<string>, updates: nat)

  /** The provider's answer to one poll. */
  datatype Answer =
    | Reported(status: Status, url: Option<string>, error: Option<string>)
    | Trouble(message: string)

  /** One attempt: whether the job has vanished before the poll, the answer, and whether the
      job has vanished by the time the answer is written. */
  datatype Attempt = Attempt(goneBefore: bool, answer: Answer, goneAfter: bool)

  /** What an answer makes of a job. */
  function Apply(job: Job, answer: Answer): Job {
    match answer
    case Reported(status, url, error) =>
      Job(status, if url.Some? then url else job.url,
          if status.Failed? then Some(error.GetOr(REPORTED)) else job.error, job.updates + 1)
    case Trouble(message) => job.(error := Some(message), updates := job.updates + 1)
  }

  /** The poller stops after this answer. */
  predicate Stops(answer: Answer) {
    answer.Reported? && answer.status.IsTerminal()
  }

  function Expire(job: Job): Job {
    if job.status.IsTerminal() then job
    else job.(status := Failed, error := Some(TIMED_OUT), updates := job.updates + 1)
  }

  /** Every version of the job that is written from attempt `i` on, and how many polls are sent. */
  datatype Course = Course(writes: seq<Job>, polls: nat, gone: bool)

  function Follow(job: Job, attempts: nat -> Attempt, i: nat): Course
    requires i <= MAX_ATTEMPTS
    decreases MAX_ATTEMPTS - i
  {
    if i == MAX_ATTEMPTS then
      if attempts(i).goneBefore then Course([], 0, true)
      else Course(if job.status.IsTerminal() then [] else [Expire(job)], 0, false)
    else
      var a := attempts(i);
      if a.goneBefore then Course([], 0, true)
      else if a.goneAfter then Course([], 1, true)
      else
        var next := Apply(job, a.answer);
        if Stops(a.answer) then Course([next], 1, false)
        else
          var rest := Follow(next, attempts, i + 1);
          Course([next] + rest.writes, 1 + rest.polls, rest.gone)
  }

  /** The version a course leaves in the store. */
  function Final(job: Job, course: Course): Job {
    if course.writes == [] then job else course.writes[|course.writes| - 1]
  }

  /** After `polls` polls the course begun at `first` has come to `job` and goes on with `rest`. */
  ghost predicate Follows(first: Job, course: Course, job: Job, rest: Course, polls: nat) {
    && course.polls == polls + rest.polls && course.gone == rest.gone
    && Final(first, course) == Final(job, rest)
  }

  lemma OneAttempt(job: Job, attempts: nat -> Attempt, i: nat)
    requires i < MAX_ATTEMPTS
    ensures var course, a, next := Follow(job, attempts, i), attempts(i), Apply(job, attempts(i).answer);
            if a.goneBefore || a.goneAfter then course.gone && course.polls == (if a.goneBefore then 0 else 1)
            else if Stops(a.answer) then !course.gone && course.polls == 1 && Final(job, course) == next
            else
              && Follows(job, course, next, Follow(next, attempts, i + 1), 1)
              && (!job.status.IsTerminal() ==> !next.status.IsTerminal())
  {
  }

  /** The job store and its one writer after creation, the poller. */
  class Jobs {
    var jobs: map<int, Job>

    constructor (id: int)
      ensures jobs == map[id := Job(Queued, None, None, 0)]
    {
      jobs := map[id := Job(Queued, None, None, 0)];
    }

    method WriteAnswer(id: int, answer: Answer)
      requires id in jobs
      modifies this
      ensures jobs == old(jobs)[id := Apply(old(jobs[id]), answer)]
    {
      var job := jobs[id];
      match answer
      case Reported(status, url, error) =>
        job := job.(status := status, updates := job.updates + 1);
        if url.Some? {
          job := job.(url := url);
        }
        if status == Failed {
          job := job.(error := Some(error.GetOr(REPORTED)));
        }
        jobs := jobs[id := job];
      case Trouble(message) =>
        jobs := jobs[id := job.(error := Some(message), updates := job.updates + 1)];
    }

    /** The job disappears from the store where the attempts say so. */
    method Poll(id: int, attempts: nat -> Attempt) returns (polls: nat)
      requires id in jobs && !jobs[id].status.IsTerminal()
      modifies this
      ensures var course := Follow(old(jobs[id]), attempts, 0);
              && polls == course.polls
              && jobs == if course.gone then old(jobs) - {id} else old(jobs)[id := Final(old(jobs[id]), course)]
    {
      polls := 0;
      ghost var first, course := jobs[id], Follow(jobs[id], attempts, 0);
      for i := 0 to MAX_ATTEMPTS
        invariant id in jobs && !jobs[id].status.IsTerminal()
        invariant jobs == old(jobs)[id := jobs[id]]
        invariant Follows(first, course, jobs[id], Follow(jobs[id], attempts, i), polls)
      {
        hide Follow, Final, Apply;
        ghost var before := jobs[id];
        OneAttempt(before, attempts, i);
        var a := attempts(i);
        if a.goneBefore {
          jobs := jobs - {id};
          return;
        }
        polls := polls + 1;
        if a.goneAfter {
          jobs := jobs - {id};
          return;
        }
        WriteAnswer(id, a.answer);
        if a.answer.Reported? && a.answer.status.IsTerminal() {
          return;
        }
      }
      if attempts(MAX_ATTEMPTS).goneBefore {
        jobs := jobs - {id};
        return;
      }
      if !jobs[id].status.IsTerminal() {
        jobs := jobs[id := jobs[id].(status := Failed, error := Some(TIMED_OUT), updates := jobs[id].updates + 1)];
      }
    }
  }

  /** For every sequence of answers: at most one poll per attempt, a terminal job at the end
      unless it vanished, nothing written after a terminal version, every failed version carries
      an error, and a video address once learned is never lost. */
  lemma {:induction false} PollerIsBounded(job: Job, attempts: nat -> Attempt, i: nat)
    requires i <= MAX_ATTEMPTS && !job.status.IsTerminal()
    ensures var course := Follow(job, attempts, i); var writes := course.writes;
            && course.polls <= MAX_ATTEMPTS - i && |writes| <= course.polls + 1
            && (!course.gone ==> Final(job, course).status.IsTerminal())
            && (forall k | 0 <= k < |writes| - 1 :: !writes[k].status.IsTerminal())
            && (forall k | 0 <= k < |writes| :: writes[k].status.Failed? ==> writes[k].error.Some?)
            && (forall k | 0 <= k < |writes| ::
                  (if k == 0 then job else writes[k - 1]).url.Some? ==> writes[k].url.Some?)
    decreases MAX_ATTEMPTS - i
  {
    if i < MAX_ATTEMPTS && !attempts(i).goneBefore && !attempts(i).goneAfter && !Stops(attempts(i).answer) {
      PollerIsBounded(Apply(job, attempts(i).answer), attempts, i + 1);
    }
  }

  /** While the job stays in the store, the first terminal report decides: it fixes the status
      and ends the polling. Without one, 120 polls are sent and the job has timed out. */
  lemma {:induction false} FirstReportDecides(job: Job, attempts: nat -> Attempt, i: nat, k: nat)
    requires i <= k <= MAX_ATTEMPTS && !job.status.IsTerminal()
    requires forall j | i <= j < k :: !attempts(j).goneBefore && !attempts(j).goneAfter && !Stops(attempts(j).answer)
    requires !attempts(k).goneBefore
    requires k < MAX_ATTEMPTS ==> !attempts(k).goneAfter && Stops(attempts(k).answer)
    ensures var course := Follow(job, attempts, i);
            if k < MAX_ATTEMPTS then
              course.polls == k - i + 1 && Final(job, course).status == attempts(k).answer.status
            else
              && course.polls == MAX_ATTEMPTS - i
              && Final(job, course).status == Failed && Final(job, course).error == Some(TIMED_OUT)
    decreases k - i
  {
    if i < k {
      FirstReportDecides(Apply(job, attempts(i).answer), attempts, i + 1, k);
    }
  }

  /** The video address an answer reports, if it does. */
  function UrlOf(answer: Answer): Option<string> {
    if answer.Reported? then answer.url else None
  }

  /** What the first terminal report leaves: its status, and for a failure the provider's own
      error, or "provider reported failure" if it gives none. */
  lemma {:induction false} FinalReportStands(job: Job, attempts: nat -> Attempt, i: nat, k: nat)
    requires i <= k < MAX_ATTEMPTS && !job.status.IsTerminal()
    requires forall j | i <= j <= k :: !attempts(j).goneBefore && !attempts(j).goneAfter
    requires forall j | i <= j < k :: !Stops(attempts(j).answer)
    requires Stops(attempts(k).answer)
    ensures var final, last := Final(job, Follow(job, attempts, i)), attempts(k).answer;
            && final.status == last.status
            && (last.status == Failed ==>
                  final.error == Some(if last.error.Some? then last.error.value else "provider reported failure"))
            && final.url == LastUrl(job.url, attempts, i, k)
    decreases k - i
  {
    if i < k {
      FinalReportStands(Apply(job, attempts(i).answer), attempts, i + 1, k);
    }
  }

  /** The last address the answers from `i` to `k` report, or the one there was before. */
  function LastUrl(before: Option<string>, attempts: nat -> Attempt, i: nat, k: nat): Option<string>
    requires i <= k + 1
    decreases k + 1 - i
  {
    if i == k + 1 then before
    else LastUrl(if UrlOf(attempts(i).answer).Some? then UrlOf(attempts(i).answer) else before, attempts, i + 1, k)
  }

  lemma {:induction false} LastUrlIsLast(before: Option<string>, attempts: nat -> Attempt, i: nat, k: nat, j: nat)
    requires i <= j <= k + 1 && (j <= k ==> UrlOf(attempts(j).answer).Some?)
    requires forall l | (if j <= k then j + 1 else i) <= l <= k :: UrlOf(attempts(l).answer).None?
    ensures LastUrl(before, attempts, i, k) == if j <= k then UrlOf(attempts(j).answer) else before
    decreases k + 1 - i
  {
    if i < j {
      var next := if UrlOf(attempts(i).answer).Some? then UrlOf(attempts(i).answer) else before;
      LastUrlIsLast(next, attempts, i + 1, k, j);
    } else if i <= k {
      NoMoreUrls(UrlOf(attempts(i).answer), attempts, i + 1, k);
    }
  }

  lemma {:induction false} NoMoreUrls(before: Option<string>, attempts: nat -> Attempt, i: nat, k: nat)
    requires i <= k + 1 && forall l | i <= l <= k :: UrlOf(attempts(l).answer).None?
    ensures LastUrl(before, attempts, i, k) == before
    decreases k + 1 - i
  {
    if i <= k {
      NoMoreUrls(before, attempts, i + 1, k);
    }
  }

  /** Without a terminal report the job fails after 120 polls with this message, keeping what
      address it learned. */
  lemma {:induction false} TimesOut(job: Job, attempts: nat -> Attempt, i: nat)
    requires i <= 120 && !job.status.IsTerminal() && !attempts(120).goneBefore
    requires forall j | i <= j < 120 :: !attempts(j).goneBefore && !attempts(j).goneAfter && !Stops(attempts(j).answer)
    ensures var course := Follow(job, attempts, i); var final := Final(job, course);
            && course.polls == 120 - i && !course.gone && final.status == Failed
            && final.error == Some("timed out waiting for the video provider")
            && (i < 120 ==> final.url == LastUrl(job.url, attempts, i, 119)) && (i == 120 ==> final.url == job.url)
    decreases 120 - i
  {
    if i < 120 {
      TimesOut(Apply(job, attempts(i).answer), attempts, i + 1);
    }
  }

  /** A job that vanishes ends the polling: without another poll if it is gone before one, after
      the poll under way if it is gone when the answer comes; nothing more is written. */
  lemma {:induction false} VanishingStops(job: Job, attempts: nat -> Attempt, i: nat, k: nat)
    requires i <= k <= 120 && !job.status.IsTerminal()
    requires forall j | i <= j < k :: !attempts(j).goneBefore && !attempts(j).goneAfter && !Stops(attempts(j).answer)
    requires attempts(k).goneBefore || (k < 120 && attempts(k).goneAfter)
    ensures var course := Follow(job, attempts, i);
            && course.gone && |course.writes| == k - i
            && course.polls == k - i + (if attempts(k).goneBefore then 0 else 1)
    decreases k - i
  {
    if i < k {
      VanishingStops(Apply(job, attempts(i).answer), attempts, i + 1, k);
    }
  }

  /** When a job succeeds without an error shown: exactly if it had none before and no poll up to
      the successful one had trouble, since a success clears nothing. */
  lemma {:induction false} SuccessIsCleanExactly(job: Job, attempts: nat -> Attempt, i: nat, k: nat)
    requires i <= k < MAX_ATTEMPTS && !job.status.IsTerminal()
    requires forall j | i <= j <= k :: !attempts(j).goneBefore && !attempts(j).goneAfter
    requires forall j | i <= j < k :: !Stops(attempts(j).answer)
    requires attempts(k).answer.Reported? && attempts(k).answer.status.Succeeded?
    ensures var final := Final(job, Follow(job, attempts, i));
            && final.status.Succeeded?
            && (final.error.None? <==> job.error.None? && forall j | i <= j < k :: attempts(j).answer.Reported?)
    decreases k - i
  {
    if i < k {
      SuccessIsCleanExactly(Apply(job, attempts(i).answer), attempts, i + 1, k);
    }
  }

  /** The failing side is not empty: one transient failure before the success is enough. */
  lemma SuccessMayShowAnError(message: string, url: string)
    ensures exists attempts: nat -> Attempt ::
              Final(Job(Queued, None, None, 0), Follow(Job(Queued, None, None, 0), attempts, 0))
              == Job(Succeeded, Some(url), Some(message), 2)
  {
    var attempts := (i: nat) =>
      Attempt(false, if i == 0 then Trouble(message) else Reported(Succeeded, Some(url), None), false);
    var job := Job(Queued, None, None, 0);
    assert Follow(Apply(job, attempts(0).answer), attempts, 1).writes == [Job(Succeeded, Some(url), Some(message), 2)];
    assert Final(job, Follow(job, attempts, 0)) == Job(Succeeded, Some(url), Some(message), 2);
  }
}
