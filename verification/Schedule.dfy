/** The read-only polling schedule of the local node: one worker, and an audit list that is
    trimmed after successful reads. Handlers are atomic steps. */
module Schedule {
  import opened Wrappers

  const KEEP: nat := 100

  datatype Entry = Entry(actor: string, action: string, summary: string)

  /** `worker` is the live polling task, if any. */
  datatype State = State(
    enabled: bool, interval: nat, limit: nat, worker: Option<nat>, lastRun: Option<string>, lastError: Option<string>,
    audit: seq<Entry>)

  /** The texts carry the details of the occasion. */
  function Enabled(text: string): Entry {
    Entry("local-operator", "schedule.enabled", text)
  }

  function Succeeded(run: string): Entry {
    Entry("scheduler", "schedule.read_succeeded", run)
  }

  function Disabled(reason: string): Entry {
    Entry("local-operator", "schedule.disabled", reason)
  }

  function ReadFailed(message: string): Entry {
    Entry("scheduler", "schedule.read_failed", message)
  }

  /** The last `n` elements, or all of them. */
  function Last<T>(s: seq<T>, n: nat): seq<T> {
    if |s| <= n then s else s[|s| - n..]
  }

  function Clamp(value: nat, low: nat, high: nat): nat
    requires low <= high
  {
    if value < low then low else if value > high then high else value
  }

  datatype Event =
    | Enable(interval: nat, limit: nat, read: Result<string>, task: nat, text: string)
    | Disable(reason: string)
    | RunNow(read: Result<string>)
    | WorkerTick(read: Result<string>, message: string)

  /** What a successful read does; `run` stands for what it read. */
  function AfterRead(s: State, run: string): State {
    s.(lastError := None, lastRun := Some(run), audit := Last(s.audit + [Succeeded(run)], KEEP))
  }

  /** The entries an event appends to the full history. */
  function Appends(s: State, e: Event): seq<Entry> {
    match e
    case Enable(_, _, read, _, text) => if read.Ok? then [Succeeded(read.value), Enabled(text)] else []
    case Disable(reason) => [Disabled(reason)]
    case RunNow(read) => if read.Ok? then [Succeeded(read.value)] else []
    case WorkerTick(read, message) =>
      if s.worker.None? || !s.enabled then [] else if read.Ok? then [Succeeded(read.value)] else [ReadFailed(message)]
  }

  function Next(s: State, e: Event): State {
    match e
    case Enable(interval, limit, read, task, text) =>
      if read.Err? then s
      else
        var t := AfterRead(s, read.value);
        State(true, Clamp(interval, 60, 86400), Clamp(limit, 1, 100), Some(task), t.lastRun, None,
              t.audit + [Enabled(text)])
    case Disable(reason) => s.(enabled := false, worker := None, audit := s.audit + [Disabled(reason)])
    case RunNow(read) => if read.Ok? then AfterRead(s, read.value) else s
    case WorkerTick(read, message) =>
      if s.worker.None? || !s.enabled then s
      else if read.Ok? then AfterRead(s, read.value)
      else s.(lastError := Some(message), audit := s.audit + [ReadFailed(message)])
  }

  class EcommerceSchedule {
    var enabled: bool
    var interval: nat
    var limit: nat
    var worker: Option<nat>
    var lastRun: Option<string>
    var lastError: Option<string>
    var audit: seq<Entry>

    function View(): State
      reads this
    {
      State(enabled, interval, limit, worker, lastRun, lastError, audit)
    }

    constructor (interval: nat, limit: nat)
      ensures View() == State(false, interval, limit, None, None, None, [])
    {
      enabled, this.interval, this.limit := false, interval, limit;
      worker, lastRun, lastError, audit := None, None, None, [];
    }

    method ExecuteReadOnce(read: Result<string>) returns (r: Result<string>)
      modifies this
      ensures r == read && View() == if read.Ok? then AfterRead(old(View()), read.value) else old(View())
    {
      var run :- read;
      lastError := None;
      lastRun := Some(run);
      audit := audit + [Succeeded(run)];
      if |audit| > KEEP {
        audit := audit[|audit| - KEEP..];
      }
      return Ok(run);
    }

    method StopExistingWorker()
      modifies this
      ensures View() == old(View()).(worker := None)
    {
      worker := None;
    }

    method Configure(enable: bool, interval: nat, limit: nat, read: Result<string>, task: nat, text: string)
      returns (r: Result<()>)
      modifies this
      ensures View() == Next(old(View()), if enable then Enable(interval, limit, read, task, text) else Disable(text))
      ensures r.Ok? <==> !enable || read.Ok?
      ensures r.Err? ==> r.error == read.error
    {
      if enable {
        var _ :- ExecuteReadOnce(read);
        StopExistingWorker();
        enabled, this.interval, this.limit := true, Clamp(interval, 60, 86400), Clamp(limit, 1, 100);
        lastError := None;
        audit := audit + [Enabled(text)];
        worker := Some(task);
      } else {
        StopExistingWorker();
        enabled := false;
        audit := audit + [Disabled(text)];
      }
      return Ok(());
    }

    method Tick(read: Result<string>, message: string)
      modifies this
      ensures View() == Next(old(View()), WorkerTick(read, message))
    {
      if worker.None? || !enabled {
        return;
      }
      var r := ExecuteReadOnce(read);
      if r.Err? {
        lastError := Some(message);
        audit := audit + [ReadFailed(message)];
      }
    }
  }

  // --- Runs ---

  function After(s: State, events: seq<Event>): State
    decreases |events|
  {
    if events == [] then s else After(Next(s, events[0]), events[1..])
  }

  /** Everything ever appended, trimmed or not. */
  function History(s: State, events: seq<Event>): seq<Entry>
    decreases |events|
  {
    if events == [] then [] else Appends(s, events[0]) + History(Next(s, events[0]), events[1..])
  }

  /** Enabled means one live worker, and the audit list is the end of the history, holding at
      least its last hundred entries. */
  ghost predicate Consistent(s: State, history: seq<Entry>) {
    && (s.enabled <==> s.worker.Some?)
    && |s.audit| <= |history| && s.audit == Last(history, |s.audit|)
    && (|history| <= KEEP ==> s.audit == history) && (|history| > KEEP ==> |s.audit| >= KEEP)
  }

  predicate IsSuccessfulRead(s: State, e: Event) {
    match e
    case Enable(_, _, _, _, _) => false
    case Disable(_) => false
    case RunNow(read) => read.Ok?
    case WorkerTick(read, _) => s.worker.Some? && s.enabled && read.Ok?
  }

  lemma LastAppend<T>(s: seq<T>, n: nat, t: seq<T>)
    requires n <= |s|
    ensures Last(s, n) + t == Last(s + t, n + |t|)
  {
  }

  lemma LastOfLast<T>(s: seq<T>, n: nat, k: nat)
    requires k <= n
    ensures Last(Last(s, n), k) == Last(s, k)
  {
  }

  lemma ReadKeeps(s: State, history: seq<Entry>, run: string)
    requires Consistent(s, history)
    ensures Consistent(AfterRead(s, run), history + [Succeeded(run)])
    ensures AfterRead(s, run).audit == Last(history + [Succeeded(run)], KEEP)
  {
    var appended, all := s.audit + [Succeeded(run)], history + [Succeeded(run)];
    LastAppend(history, |s.audit|, [Succeeded(run)]);
    assert appended == Last(all, |appended|);
    if |appended| >= KEEP {
      LastOfLast(all, |appended|, KEEP);
    } else {
      assert s.audit == history;
    }
  }

  lemma AppendKeeps(s: State, history: seq<Entry>, entry: Entry, s': State)
    requires Consistent(s, history) && (s'.enabled <==> s'.worker.Some?) && s'.audit == s.audit + [entry]
    ensures Consistent(s', history + [entry])
  {
    LastAppend(history, |s.audit|, [entry]);
  }

  lemma NextKeeps(s: State, history: seq<Entry>, e: Event)
    requires Consistent(s, history)
    ensures Consistent(Next(s, e), history + Appends(s, e))
    ensures IsSuccessfulRead(s, e) ==> Next(s, e).audit == Last(history + Appends(s, e), KEEP)
    ensures e.Enable? && e.read.Ok? ==> Next(s, e).audit == Last(history + Appends(s, e), KEEP + 1)
  {
    assert history + [] == history;
    match e
    case Enable(_, _, read, _, text) =>
      if read.Ok? {
        ReadKeeps(s, history, read.value);
        var withRead := history + [Succeeded(read.value)];
        AppendKeeps(AfterRead(s, read.value), withRead, Enabled(text), Next(s, e));
        assert Last(withRead, KEEP) + [Enabled(text)] == Last(withRead + [Enabled(text)], KEEP + 1);
        assert withRead + [Enabled(text)] == history + [Succeeded(read.value), Enabled(text)];
      }
    case Disable(reason) => AppendKeeps(s, history, Disabled(reason), Next(s, e));
    case RunNow(read) => if read.Ok? { ReadKeeps(s, history, read.value); }
    case WorkerTick(read, message) =>
      if s.worker.Some? {
        if read.Ok? {
          ReadKeeps(s, history, read.value);
        } else {
          AppendKeeps(s, history, ReadFailed(message), Next(s, e));
        }
      }
  }

  /** Over every run: enabled exactly while one worker lives, the audit list a suffix of the full
      history, and after a successful read exactly its last hundred entries, or all of them; after
      an enabling read, which appends once more, its last hundred and one. */
  lemma {:induction false} AuditIsSuffix(s: State, history: seq<Entry>, events: seq<Event>, last: Event)
    requires Consistent(s, history)
    ensures var t := After(s, events); var all := history + History(s, events);
            && Consistent(t, all)
            && (IsSuccessfulRead(t, last) ==> Next(t, last).audit == Last(all + Appends(t, last), 100))
            && (last.Enable? && last.read.Ok? ==> Next(t, last).audit == Last(all + Appends(t, last), 101))
    decreases |events|
  {
    hide Next, Appends, Consistent, Last, IsSuccessfulRead;
    if events == [] {
      NextKeeps(s, history, last);
      assert history + [] == history;
    } else {
      NextKeeps(s, history, events[0]);
      var next, appended := Next(s, events[0]), Appends(s, events[0]);
      AuditIsSuffix(next, history + appended, events[1..], last);
      assert history + appended + History(next, events[1..]) == history + (appended + History(next, events[1..]));
    }
  }

  /** When one step leaves at most a hundred entries: exactly if it is a successful read, or what
      it appends still fits. An enabling read trims first and appends once more. */
  lemma StepFitsExactly(s: State, e: Event)
    ensures |Next(s, e).audit| <= KEEP <==>
              || IsSuccessfulRead(s, e)
              || (if e.Enable? && e.read.Ok? then |s.audit| + 1 < KEEP else |s.audit| + |Appends(s, e)| <= KEEP)
  {
  }

  predicate Reads(s: State, e: Event) {
    IsSuccessfulRead(s, e) || (e.Enable? && e.read.Ok?)
  }

  /** No event of the run reads successfully. */
  predicate NeverReads(s: State, events: seq<Event>)
    decreases |events|
  {
    events == [] || (!Reads(s, events[0]) && NeverReads(Next(s, events[0]), events[1..]))
  }

  /** Nothing but a successful read trims: without one the list keeps everything, so it stays
      within a hundred entries exactly if all that is ever appended fits. */
  lemma {:induction false} NothingElseTrims(s: State, events: seq<Event>)
    requires NeverReads(s, events)
    ensures After(s, events).audit == s.audit + History(s, events)
    ensures |After(s, events).audit| <= KEEP <==> |s.audit| + |History(s, events)| <= KEEP
    decreases |events|
  {
    if events != [] {
      NothingElseTrims(Next(s, events[0]), events[1..]);
      assert Next(s, events[0]).audit == s.audit + Appends(s, events[0]);
    }
  }

  /** The failing side is not empty: a worker whose reads keep failing adds an entry at every
      tick, so the list has no bound of its own. */
  lemma {:induction false} FailuresPileUp(s: State, message: string, n: nat)
    requires s.enabled && s.worker.Some?
    ensures |After(s, seq(n, _ => WorkerTick(Err(BadGateway), message))).audit| == |s.audit| + n
    decreases n
  {
    var ticks := seq(n, _ => WorkerTick(Err(BadGateway), message));
    if n > 0 {
      assert ticks[1..] == seq(n - 1, _ => WorkerTick(Err(BadGateway), message));
      FailuresPileUp(Next(s, ticks[0]), message, n - 1);
    }
  }

  /** What each event leaves besides the audit list. Enabling reads first and is refused as a whole
      when the read fails; its interval lies between a minute and a day and its limit between one
      and a hundred, as asked if they fit. Reads clear the error and remember the run; a failing
      tick of the live worker records its message. */
  lemma NextExactly(s: State, e: Event)
    ensures match e
            case Enable(interval, limit, read, task, _) =>
              if read.Err? then Next(s, e) == s
              else
                && Next(s, e).enabled && Next(s, e).worker == Some(task)
                && 60 <= Next(s, e).interval <= 86400 && 1 <= Next(s, e).limit <= 100
                && (60 <= interval <= 86400 ==> Next(s, e).interval == interval)
                && (interval < 60 ==> Next(s, e).interval == 60)
                && (1 <= limit <= 100 ==> Next(s, e).limit == limit) && (limit < 1 ==> Next(s, e).limit == 1)
                && Next(s, e).lastRun == Some(read.value) && Next(s, e).lastError == None
            case Disable(_) => Next(s, e) == s.(enabled := false, worker := None, audit := Next(s, e).audit)
            case RunNow(read) =>
              if read.Err? then Next(s, e) == s
              else Next(s, e) == s.(lastError := None, lastRun := Some(read.value), audit := Next(s, e).audit)
            case WorkerTick(read, message) =>
              if s.worker == None || !s.enabled then Next(s, e) == s
              else if read.Ok? then
                Next(s, e) == s.(lastError := None, lastRun := Some(read.value), audit := Next(s, e).audit)
              else Next(s, e) == s.(lastError := Some(message), audit := Next(s, e).audit)
  {
  }

  /** The entries an event adds, in order. */
  lemma AppendsExactly(s: State, e: Event)
    ensures match e
            case Enable(_, _, read, _, text) =>
              Appends(s, e) == (if read.Err? then []
                                else [Entry("scheduler", "schedule.read_succeeded", read.value),
                                      Entry("local-operator", "schedule.enabled", text)])
            case Disable(reason) => Appends(s, e) == [Entry("local-operator", "schedule.disabled", reason)]
            case RunNow(read) =>
              Appends(s, e) == (if read.Err? then [] else [Entry("scheduler", "schedule.read_succeeded", read.value)])
            case WorkerTick(read, message) =>
              Appends(s, e) == (if s.worker == None || !s.enabled then []
                                else if read.Err? then [Entry("scheduler", "schedule.read_failed", message)]
                                else [Entry("scheduler", "schedule.read_succeeded", read.value)])
  {
  }
}
