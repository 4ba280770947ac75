/**
 * Performing a queued job, postponing it, and counting its attempts.
 *
 * A job is an object that one attempt builds from its stored record and stores
 * again; the record is what lives on between attempts.  Times are in seconds.
 */
module JobRetry {
  import opened Options

  datatype Status = Pending | Enqueued | Started | Done | Failed

  const DEFAULT_MAX_RETRIES := 5
  const RETRY_INTERVAL := 10 * 60
  const PG_RETRY := 5
  const NOTHING_TO_DO := "Job interrupted and set to Done: nothing to do."

  datatype Record = Record(
    state: Status,
    retry: int,
    maxRetries: int,
    result: Option<string>,
    excInfo: Option<string>,
    dateEnqueued: Option<int>,
    dateStarted: Option<int>,
    dateDone: Option<int>,
    eta: Option<int>)

  datatype Exception =
    | Retryable(message: string, seconds: Option<int>, ignoreRetry: bool)
    | NothingToDo(message: string)
    | Conflict(message: string)
    | Failure

  /** What the job's function does when it is called. */
  datatype Call = Returns(value: Option<string>) | Raises(exception: Exception)

  // ---------------------------------------------------------------- retry pattern

  /** From which attempt on to wait how long. */
  datatype Entry = Entry(key: int, delay: int)

  type Pattern = seq<Entry>

  predicate Distinct(pattern: Pattern) {
    forall j, k :: 0 <= j < k < |pattern| ==> pattern[j].key != pattern[k].key
  }

  predicate Ordered(pattern: Pattern) {
    forall j, k :: 0 <= j < k < |pattern| ==> pattern[j].key < pattern[k].key
  }

  predicate Contains(pattern: Pattern, other: Pattern) {
    forall k :: 0 <= k < |other| ==> other[k] in pattern
  }

  /** How many entries of an ordered pattern have a smaller key. */
  function Place(pattern: Pattern, key: int): (p: nat)
    requires Ordered(pattern)
    ensures p <= |pattern|
    ensures forall k :: 0 <= k < p ==> pattern[k].key < key
    ensures forall k :: p <= k < |pattern| ==> pattern[k].key >= key
  {
    if pattern == [] || pattern[|pattern| - 1].key < key then |pattern| else Place(pattern[..|pattern| - 1], key)
  }

  function Sort(pattern: Pattern): (r: Pattern)
    requires Distinct(pattern)
    ensures Ordered(r) && Contains(r, pattern) && Contains(pattern, r)
  {
    if pattern == [] then []
    else
      var n := |pattern| - 1;
      var rest := Sort(pattern[..n]);
      var p := Place(rest, pattern[n].key);
      InsertOrders(pattern, rest, p);
      InsertContains(pattern, rest, p);
      rest[..p] + [pattern[n]] + rest[p..]
  }

  lemma InsertOrders(pattern: Pattern, rest: Pattern, p: nat)
    requires Distinct(pattern) && pattern != [] && p <= |rest|
    requires Ordered(rest) && Contains(pattern[..|pattern| - 1], rest)
    requires forall k :: 0 <= k < p ==> rest[k].key < pattern[|pattern| - 1].key
    requires forall k :: p <= k < |rest| ==> rest[k].key >= pattern[|pattern| - 1].key
    ensures Ordered(rest[..p] + [pattern[|pattern| - 1]] + rest[p..])
  {
    var n := |pattern| - 1;
    forall k | p <= k < |rest| ensures rest[k].key > pattern[n].key {
      assert rest[k] in pattern[..n];
      var j :| 0 <= j < n && pattern[..n][j] == rest[k];
      assert pattern[j] == rest[k];
    }
  }

  lemma InsertContains(pattern: Pattern, rest: Pattern, p: nat)
    requires pattern != [] && p <= |rest|
    requires Contains(rest, pattern[..|pattern| - 1]) && Contains(pattern[..|pattern| - 1], rest)
    ensures Contains(rest[..p] + [pattern[|pattern| - 1]] + rest[p..], pattern)
    ensures Contains(pattern, rest[..p] + [pattern[|pattern| - 1]] + rest[p..])
  {
    var n := |pattern| - 1;
    var front, item := pattern[..n], pattern[n];
    var r := rest[..p] + [item] + rest[p..];
    forall k | 0 <= k < |pattern| ensures pattern[k] in r {
      assert k < n ==> pattern[k] == front[k] && front[k] in rest;
      assert rest == rest[..p] + rest[p..];
    }
    forall k | 0 <= k < |r| ensures r[k] in pattern {
      assert r[k] in rest[..p] || r[k] == item || r[k] in rest[p..];
      assert r[k] != item ==> r[k] in rest;
      assert r[k] in rest ==> r[k] in front;
    }
  }

  /** The entry that applies to a number of attempts: the one with the greatest key that is not above it. */
  ghost predicate Applies(pattern: Pattern, retry: int, item: Entry) {
    item in pattern && item.key <= retry && forall other <- pattern :: other.key <= retry ==> other.key <= item.key
  }

  /** How long to wait: what the caller asks for, else what the pattern says, else the default. */
  ghost predicate IsDelay(pattern: Pattern, retry: int, seconds: Option<int>, delay: int) {
    if seconds.Some? && seconds.value != 0 then delay == seconds.value
    else if exists item :: Applies(pattern, retry, item) then exists item :: Applies(pattern, retry, item) && delay == item.delay
    else delay == RETRY_INTERVAL
  }

  /** There is only one such delay. */
  lemma DelayUnique(pattern: Pattern, retry: int, seconds: Option<int>, d: int, d': int)
    requires Distinct(pattern)
    requires IsDelay(pattern, retry, seconds, d) && IsDelay(pattern, retry, seconds, d')
    ensures d == d'
  {
    forall item, item' | Applies(pattern, retry, item) && Applies(pattern, retry, item') ensures item == item' {
      var j :| 0 <= j < |pattern| && pattern[j] == item;
      var k :| 0 <= k < |pattern| && pattern[k] == item';
      assert j == k;
    }
  }

  // ---------------------------------------------------------------- the job object

  /** An empty text counts as none. */
  function Clean(text: Option<string>): Option<string> {
    if text == Some("") then None else text
  }

  class Job {
    var state: Status
    var retry: int
    var maxRetries: int
    var result: Option<string>
    var excInfo: Option<string>
    var dateEnqueued: Option<int>
    var dateStarted: Option<int>
    var dateDone: Option<int>
    var eta: Option<int>
    const retryPattern: Pattern

    ghost function Value(): Record
      reads this
    {
      Record(state, retry, maxRetries, result, excInfo, dateEnqueued, dateStarted, dateDone, eta)
    }

    constructor (maxRetries: Option<int>, eta: Option<int>, pattern: Pattern)
      ensures Value() == Record(Pending, 0, if maxRetries.Some? then maxRetries.value else 5, None, None, None, None, None, eta)
      ensures retryPattern == pattern
    {
      state, retry := Pending, 0;
      this.maxRetries := if maxRetries.Some? then maxRetries.value else DEFAULT_MAX_RETRIES;
      result, excInfo, dateEnqueued, dateStarted, dateDone := None, None, None, None, None;
      this.eta := eta;
      retryPattern := pattern;
    }

    constructor Load(stored: Record, pattern: Pattern)
      ensures Value() == stored.(result := if stored.result == Some("") then None else stored.result,
                                 excInfo := if stored.excInfo == Some("") then None else stored.excInfo)
      ensures retryPattern == pattern
    {
      state, retry, maxRetries := stored.state, stored.retry, stored.maxRetries;
      result, excInfo := Clean(stored.result), Clean(stored.excInfo);
      dateEnqueued, dateStarted, dateDone := stored.dateEnqueued, stored.dateStarted, stored.dateDone;
      eta := stored.eta;
      retryPattern := pattern;
    }

    method Store() returns (stored: Record)
      ensures stored == Value().(result := if result == Some("") then None else result)
    {
      stored := Record(state, retry, maxRetries, Clean(result), excInfo, dateEnqueued, dateStarted, dateDone, eta);
    }

    /** Calls the function; the last retry that is allowed turns a retryable error into a failure. */
    method Perform(call: Call) returns (raised: Option<Exception>)
      modifies `retry, `result
      ensures Value() == old(Value()).(
        retry := old(retry) + (if call.Raises? && call.exception.Retryable? && call.exception.ignoreRetry then 0 else 1),
        result := if call.Returns? then call.value else old(result))
      ensures raised == Raised(call, retry, maxRetries)
    {
      retry := retry + 1;
      match call {
        case Returns(value) =>
          result := value;
          return None;
        case Raises(e) =>
          if e.Retryable? {
            if e.ignoreRetry {
              retry := retry - 1;
              return Some(e);
            } else if maxRetries == 0 {
              return Some(e);
            } else if retry >= maxRetries {
              return Some(Failure);
            }
          }
          return Some(e);
      }
    }

    method SetPending(message: Option<string>, resetRetry: bool)
      modifies this
      ensures Value() == old(Value()).(
        state := Pending, dateEnqueued := None, dateStarted := None,
        retry := if resetRetry then 0 else old(retry),
        result := if message.Some? then message else old(result))
    {
      state, dateEnqueued, dateStarted := Pending, None, None;
      if resetRetry { retry := 0; }
      if message.Some? { result := message; }
    }

    method SetStarted(now: int)
      modifies `state, `dateStarted
      ensures Value() == old(Value()).(state := Started, dateStarted := Some(now))
    {
      state, dateStarted := Started, Some(now);
    }

    method SetDone(message: Option<string>, now: int)
      modifies this
      ensures Value() == old(Value()).(
        state := Done, excInfo := None, dateDone := Some(now),
        result := if message.Some? then message else old(result))
    {
      state, excInfo, dateDone := Done, None, Some(now);
      if message.Some? { result := message; }
    }

    method SetFailed(trace: string)
      modifies `state, `excInfo
      ensures Value() == old(Value()).(state := Failed, excInfo := Some(trace))
    {
      state, excInfo := Failed, Some(trace);
    }

    method GetRetrySeconds(seconds: Option<int>) returns (delay: int)
      requires Distinct(retryPattern)
      ensures IsDelay(retryPattern, retry, seconds, delay)
    {
      if seconds.Some? && seconds.value != 0 {
        return seconds.value;
      }
      hide IsDelay, Ordered, Contains;
      delay := RETRY_INTERVAL;
      var items := Sort(retryPattern);
      for k := 0 to |items|
        invariant k > 0 ==> items[k - 1].key <= retry
        invariant delay == if k == 0 then RETRY_INTERVAL else items[k - 1].delay
      {
        if retry >= items[k].key {
          delay := items[k].delay;
        } else {
          SortedApplies(retryPattern, items, retry, seconds, k - 1);
          return;
        }
      }
      SortedApplies(retryPattern, items, retry, seconds, |items| - 1);
    }

    /** Not to be run for a while; a wait of no time at all clears the time from which to run it. */
    method Postpone(message: Option<string>, seconds: Option<int>, now: int) returns (ghost delay: int)
      requires Distinct(retryPattern)
      modifies this
      ensures IsDelay(retryPattern, retry, seconds, delay)
      ensures Value() == old(Value()).(
        excInfo := None, eta := Eta(now, delay), result := if message.Some? then message else old(result))
    {
      var wait := GetRetrySeconds(seconds);
      eta := Eta(now, wait);
      excInfo := None;
      if message.Some? { result := message; }
      delay := wait;
    }
  }

  function Eta(now: int, delay: int): Option<int> {
    if delay == 0 then None else Some(now + delay)
  }

  /** The last entry of the sorted pattern that is not above the number of attempts is the one that applies. */
  lemma SortedApplies(pattern: Pattern, items: Pattern, retry: int, seconds: Option<int>, k: int)
    requires Ordered(items) && Contains(items, pattern) && Contains(pattern, items)
    requires -1 <= k < |items| && (k >= 0 ==> items[k].key <= retry) && (k + 1 < |items| ==> retry < items[k + 1].key)
    requires seconds.None? || seconds.value == 0
    ensures IsDelay(pattern, retry, seconds, if k >= 0 then items[k].delay else RETRY_INTERVAL)
  {
    forall other <- pattern | other.key <= retry ensures k >= 0 && other.key <= items[k].key {
      var i :| 0 <= i < |pattern| && pattern[i] == other;
      var j :| 0 <= j < |items| && items[j] == pattern[i];
      assert j <= k;
    }
    assert k >= 0 ==> Applies(pattern, retry, items[k]);
  }

  // ---------------------------------------------------------------- one attempt

  /** Whether a call counts as an attempt: unless it asks to be ignored. */
  predicate Counts(call: Call) {
    !(call.Raises? && call.exception.Retryable? && call.exception.ignoreRetry)
  }

  /** What an attempt raises, after counting it. */
  function Raised(call: Call, retry: int, maxRetries: int): Option<Exception> {
    if call.Returns? then None
    else if call.exception.Retryable? && Counts(call) && maxRetries != 0 && retry >= maxRetries then Some(Failure)
    else Some(call.exception)
  }

  /** Whether the runner can commit the job as started, and as done, or runs into a conflict of transactions. */
  datatype Commit = Commits | ConflictAtStart(text: string) | ConflictAtEnd(text: string)

  /** What an attempt leaves of a stored record. */
  ghost predicate Attempted(stored: Record, call: Call, commit: Commit, pattern: Pattern,
                            start: int, end: int, trace: string, r: Record)
  {
    var loaded := stored.(result := Clean(stored.result), excInfo := Clean(stored.excInfo));
    if commit.ConflictAtStart? then Postponed(loaded, commit.text, Some(PG_RETRY), pattern, end, r)
    else Finished(loaded, call, commit, pattern, start, end, trace, r)
  }

  /** What an attempt that could start leaves. */
  ghost predicate Finished(loaded: Record, call: Call, commit: Commit, pattern: Pattern,
                           start: int, end: int, trace: string, r: Record)
  {
    var counted := loaded.(retry := loaded.retry + (if Counts(call) then 1 else 0), dateStarted := Some(start));
    match Raised(call, counted.retry, counted.maxRetries)
    case None =>
      if commit.ConflictAtEnd? then
        Postponed(counted.(dateDone := Some(end)), commit.text, Some(PG_RETRY), pattern, end, r)
      else
        r == counted.(state := Done, excInfo := None, dateDone := Some(end), result := Clean(call.value))
    case Some(NothingToDo(message)) =>
      var result := Some(if message != "" then message else NOTHING_TO_DO);
      r == counted.(state := Done, excInfo := None, dateDone := Some(end), result := result)
    case Some(Failure) =>
      r == counted.(state := Failed, excInfo := Some(trace))
    case Some(Retryable(message, seconds, _)) =>
      Postponed(counted, message, seconds, pattern, end, r)
    case Some(Conflict(message)) =>
      Postponed(counted, message, Some(PG_RETRY), pattern, end, r)
  }

  ghost predicate Postponed(counted: Record, message: string, seconds: Option<int>, pattern: Pattern, now: int, r: Record)
  {
    exists delay :: IsDelay(pattern, counted.retry, seconds, delay) &&
      r == counted.(state := Pending, dateEnqueued := None, dateStarted := None,
                    excInfo := None, eta := Eta(now, delay), result := Clean(Some(message)))
  }

  /** What state an attempt leaves a job in, and what it counts, for everything that can come of it. */
  lemma AttemptOutcome(stored: Record, call: Call, commit: Commit, pattern: Pattern, start: int, end: int, trace: string, r: Record)
    requires Attempted(stored, call, commit, pattern, start, end, trace, r)
    ensures r.maxRetries == stored.maxRetries
    ensures commit.ConflictAtStart? ==> r.state == Pending && r.retry == stored.retry
    ensures !commit.ConflictAtStart? ==>
      match call
      case Returns(value) =>
        && r.retry == stored.retry + 1 && r.dateDone == Some(end)
        && if commit.ConflictAtEnd? then r.state == Pending && r.result == (if commit.text == "" then None else Some(commit.text))
           else r.state == Done && r.result == (if value == Some("") then None else value) && r.excInfo.None?
      case Raises(NothingToDo(message)) =>
        && r.state == Done && r.retry == stored.retry + 1 && r.dateDone == Some(end) && r.excInfo.None?
        && r.result == Some(if message == "" then NOTHING_TO_DO else message)
      case Raises(Conflict(message)) =>
        r.state == Pending && r.retry == stored.retry + 1 && r.result == if message == "" then None else Some(message)
      case Raises(Failure) =>
        r.state == Failed && r.retry == stored.retry + 1 && r.excInfo == Some(trace)
      case Raises(Retryable(message, seconds, ignore)) =>
        if ignore then r.state == Pending && r.retry == stored.retry
        else
          && r.retry == stored.retry + 1
          && if stored.maxRetries != 0 && r.retry >= stored.maxRetries then r.state == Failed && r.excInfo == Some(trace)
             else r.state == Pending && r.result == (if message == "" then None else Some(message))
  {
    hide IsDelay;
  }

  /** A job that is postponed waits for its delay from the time of the attempt, or for nothing when the delay is 0. */
  lemma PostponedUntil(stored: Record, call: Call, commit: Commit, pattern: Pattern, start: int, end: int, trace: string, r: Record)
    requires Attempted(stored, call, commit, pattern, start, end, trace, r) && r.state == Pending
    ensures exists delay, seconds ::
      && IsDelay(pattern, r.retry, seconds, delay)
      && r.eta == (if delay == 0 then None else Some(end + delay))
      && (commit.Commits? ==> call.Raises? && seconds == if call.exception.Retryable? then call.exception.seconds else Some(5))
    ensures r.dateEnqueued.None? && r.dateStarted.None? && r.excInfo.None?
  {
    hide IsDelay;
  }

  datatype Ran = NotRun | Ran(started: Record, finished: Record)

  /** Runs an enqueued job: what is stored when it starts, and what when it has finished. */
  method RunJob(stored: Record, call: Call, commit: Commit, pattern: Pattern, start: int, end: int, trace: string)
    returns (ran: Ran)
    requires Distinct(pattern)
    ensures ran.NotRun? <==> stored.state != Enqueued
    ensures ran.Ran? ==>
      && ran.started == (if commit.ConflictAtStart? then stored else stored.(
           state := Started, dateStarted := Some(start), result := Clean(stored.result), excInfo := Clean(stored.excInfo)))
      && Attempted(stored, call, commit, pattern, start, end, trace, ran.finished)
  {
    hide IsDelay;
    if stored.state != Enqueued {
      return NotRun;
    }
    var job := new Job.Load(stored, pattern);
    job.SetStarted(start);
    ghost var delay: int;
    if commit.ConflictAtStart? {
      delay := job.Postpone(Some(commit.text), Some(PG_RETRY), end);
      job.SetPending(None, false);
      var postponed := job.Store();
      return Ran(stored, postponed);
    }
    var started := job.Store();
    var raised := job.Perform(call);
    match raised {
      case None =>
        job.SetDone(None, end);
        if commit.ConflictAtEnd? {
          delay := job.Postpone(Some(commit.text), Some(PG_RETRY), end);
          job.SetPending(None, false);
        }
      case Some(NothingToDo(message)) =>
        job.SetDone(Some(if message != "" then message else NOTHING_TO_DO), end);
      case Some(Retryable(message, seconds, _)) =>
        delay := job.Postpone(Some(message), seconds, end);
        job.SetPending(None, false);
      case Some(Conflict(message)) =>
        delay := job.Postpone(Some(message), Some(PG_RETRY), end);
        job.SetPending(None, false);
      case Some(Failure) => job.SetFailed(trace);
    }
    var finished := job.Store();
    ran := Ran(started, finished);
  }

  /** A stored job is loaded as it was, but for texts that are empty. */
  method Reload(stored: Record, pattern: Pattern) returns (again: Record)
    ensures again == stored.(result := if stored.result == Some("") then None else stored.result,
                             excInfo := if stored.excInfo == Some("") then None else stored.excInfo)
  {
    var job := new Job.Load(stored, pattern);
    again := job.Store();
  }

  // ---------------------------------------------------------------- whole runs

  /**
   * What happens to a stored job: the runner enqueues it or takes it back, runs it,
   * or dies while it runs; a user requeues it or marks it as done.
   */
  datatype Event =
    | Enqueue(now: int)
    | TakeBack
    | Run(call: Call, commit: Commit, start: int, end: int, trace: string)
    | Die(start: int)
    | Requeue
    | MarkDone(message: string, now: int)

  ghost predicate Step(r: Record, e: Event, pattern: Pattern, r': Record) {
    var loaded := r.(result := Clean(r.result), excInfo := Clean(r.excInfo));
    match e
    case Enqueue(now) =>
      r' == if r.state == Pending then r.(state := Enqueued, dateEnqueued := Some(now)) else r
    case TakeBack =>
      r' == if r.state == Enqueued then r.(state := Pending, dateEnqueued := None, dateStarted := None) else r
    case Run(call, commit, start, end, trace) =>
      if r.state == Enqueued then Attempted(r, call, commit, pattern, start, end, trace, r') else r' == r
    case Die(start) =>
      r' == if r.state == Enqueued then loaded.(state := Started, dateStarted := Some(start)) else r
    case Requeue =>
      r' == loaded.(state := Pending, dateEnqueued := None, dateStarted := None, retry := 0)
    case MarkDone(message, now) =>
      r' == loaded.(state := Done, excInfo := None, dateDone := Some(now), result := Clean(Some(message)))
  }

  ghost predicate IsRun(states: seq<Record>, events: seq<Event>, pattern: Pattern) {
    && |states| == |events| + 1
    && states[0].retry == 0 && states[0].state == Pending
    && forall i :: 0 <= i < |events| ==> Step(states[i], events[i], pattern, states[i + 1])
  }

  /** A run that counts: it could start, and the function did not ask to be ignored. */
  predicate CountsRun(e: Event) {
    e.Run? && !e.commit.ConflictAtStart? && Counts(e.call)
  }

  /** The event is an attempt that counts. */
  ghost predicate IsAttempt(states: seq<Record>, events: seq<Event>, i: int) {
    0 <= i < |events| && i < |states| && CountsRun(events[i]) && states[i].state == Enqueued
  }

  /** The attempts among events `from` to `to`. */
  ghost function Attempts(states: seq<Record>, events: seq<Event>, from: int, to: int): (s: set<int>) {
    set i | from <= i < to && IsAttempt(states, events, i)
  }

  /** The first event after the last reset by a user. */
  ghost function SinceReset(events: seq<Event>, n: nat): (m: nat)
    requires n <= |events|
    ensures m <= n && (m > 0 ==> events[m - 1].Requeue?) && forall i :: m <= i < n ==> !events[i].Requeue?
  {
    if n == 0 || events[n - 1].Requeue? then n else SinceReset(events, n - 1)
  }

  lemma StepRetry(r: Record, e: Event, pattern: Pattern, r': Record)
    requires Step(r, e, pattern, r')
    ensures r'.retry == if e.Requeue? then 0
      else r.retry + if CountsRun(e) && r.state == Enqueued then 1 else 0
    ensures r'.maxRetries == r.maxRetries
  {
    hide IsDelay;
  }

  /** Over any run, the stored counter is the number of attempts since the last reset. */
  lemma {:induction false} RetryCountsAttempts(states: seq<Record>, events: seq<Event>, pattern: Pattern, n: nat)
    requires IsRun(states, events, pattern) && n <= |events|
    ensures states[n].retry == |Attempts(states, events, SinceReset(events, n), n)|
    ensures states[n].maxRetries == states[0].maxRetries
  {
    hide Step, CountsRun;
    if n > 0 {
      RetryCountsAttempts(states, events, pattern, n - 1);
      var m := SinceReset(events, n - 1);
      StepRetry(states[n - 1], events[n - 1], pattern, states[n]);
      if events[n - 1].Requeue? {
        assert Attempts(states, events, n, n) == {};
      } else {
        AttemptsStep(states, events, m, n - 1);
      }
    } else {
      assert Attempts(states, events, 0, 0) == {};
    }
  }

  lemma AttemptsStep(states: seq<Record>, events: seq<Event>, from: int, n: int)
    requires from <= n
    ensures |Attempts(states, events, from, n + 1)|
         == |Attempts(states, events, from, n)| + if IsAttempt(states, events, n) then 1 else 0
  {
    hide IsAttempt;
    var before := Attempts(states, events, from, n);
    if IsAttempt(states, events, n) {
      assert Attempts(states, events, from, n + 1) == before + {n};
    } else {
      assert Attempts(states, events, from, n + 1) == before;
    }
  }

  /** The function is called and asks to be retried. */
  predicate Retries(e: Event) {
    CountsRun(e) && e.call.Raises? && e.call.exception.Retryable?
  }

  /** The function is called, and a conflict of transactions is all that comes of it. */
  predicate Conflicts(e: Event) {
    CountsRun(e) && if e.call.Raises? then e.call.exception.Conflict? else e.commit.ConflictAtEnd?
  }

  /**
   * A retryable error fails the job exactly from the attempt that reaches the
   * limit on, counting from the last reset, and never when the limit is 0;
   * otherwise the job waits for another attempt.
   */
  lemma FailsAtTheLimit(states: seq<Record>, events: seq<Event>, pattern: Pattern, n: nat)
    requires IsRun(states, events, pattern) && n < |events|
    requires Retries(events[n]) && states[n].state == Enqueued
    ensures var attempts, limit := |Attempts(states, events, SinceReset(events, n), n)| + 1, states[0].maxRetries;
      && (states[n + 1].state == Failed <==> limit != 0 && attempts >= limit)
      && (states[n + 1].state == Pending <==> limit == 0 || attempts < limit)
      && states[n + 1].retry == attempts
  {
    RetryCountsAttempts(states, events, pattern, n);
    assert Step(states[n], events[n], pattern, states[n + 1]);
  }

  /** A job that is neither done nor failed. */
  predicate Live(r: Record) {
    r.state != Done && r.state != Failed
  }

  /** The attempt at event i reached the limit, and a conflict kept the job from failing or being done. */
  ghost predicate Slips(states: seq<Record>, events: seq<Event>, limit: int, i: int) {
    IsAttempt(states, events, i) && states[i].retry == limit - 1 && Conflicts(events[i])
  }

  /** What a step does to a live job at its limit. */
  lemma StepAtLimit(r: Record, e: Event, pattern: Pattern, r': Record)
    requires Step(r, e, pattern, r') && Live(r') && r.maxRetries > 0
    ensures !e.Requeue? ==> Live(r) && r'.retry >= r.retry
    ensures !e.Requeue? && r.retry < r.maxRetries ==>
      (r'.retry >= r.maxRetries <==> r.state == Enqueued && r.retry == r.maxRetries - 1 && Conflicts(e))
  {
    hide IsDelay;
  }

  ghost predicate Slipped(states: seq<Record>, events: seq<Event>, limit: int, from: int, to: int) {
    exists i :: from <= i < to && Slips(states, events, limit, i)
  }

  lemma SlippedStep(states: seq<Record>, events: seq<Event>, limit: int, from: int, n: int)
    requires from <= n && 0 <= n < |events| && n < |states|
    ensures Slipped(states, events, limit, from, n + 1)
       <==> Slipped(states, events, limit, from, n)
            || (states[n].state == Enqueued && states[n].retry == limit - 1 && Conflicts(events[n]))
  {
    assert Slips(states, events, limit, n)
      <==> states[n].state == Enqueued && states[n].retry == limit - 1 && Conflicts(events[n]);
    hide Slips;
  }

  /**
   * The number of attempts of a live job is at the limit or past it exactly when
   * the attempt that reached the limit, since the last reset, ended in a conflict.
   */
  lemma {:induction false} AtLimitIffConflict(states: seq<Record>, events: seq<Event>, pattern: Pattern, n: nat)
    requires IsRun(states, events, pattern) && n <= |events| && states[0].maxRetries > 0 && Live(states[n])
    ensures states[n].retry >= states[0].maxRetries
       <==> Slipped(states, events, states[0].maxRetries, SinceReset(events, n), n)
  {
    hide *;
    RunShape(states, events, pattern);
    if n > 0 {
      LastStep(states, events, pattern, n - 1);
      if events[n - 1].Requeue? {
        StepRetry(states[n - 1], events[n - 1], pattern, states[n]);
        NothingSlipped(states, events, states[0].maxRetries, n);
      } else {
        StepAtLimit(states[n - 1], events[n - 1], pattern, states[n]);
        AtLimitIffConflict(states, events, pattern, n - 1);
        SlippedStep(states, events, states[0].maxRetries, SinceReset(events, n - 1), n - 1);
      }
    }
  }

  lemma RunShape(states: seq<Record>, events: seq<Event>, pattern: Pattern)
    requires IsRun(states, events, pattern)
    ensures |states| == |events| + 1 && states[0].retry == 0
    ensures SinceReset(events, 0) == 0 && !Slipped(states, events, states[0].maxRetries, 0, 0)
  {
  }

  lemma LastStep(states: seq<Record>, events: seq<Event>, pattern: Pattern, n: nat)
    requires IsRun(states, events, pattern) && n < |events|
    ensures Step(states[n], events[n], pattern, states[n + 1]) && states[n].maxRetries == states[0].maxRetries
    ensures SinceReset(events, n + 1) == if events[n].Requeue? then n + 1 else SinceReset(events, n)
  {
    RetryCountsAttempts(states, events, pattern, n);
  }

  lemma NothingSlipped(states: seq<Record>, events: seq<Event>, limit: int, n: int)
    ensures !Slipped(states, events, limit, n, n)
  {
  }

  /** Without conflicts of transactions, a job that is still to be run has had fewer attempts than the limit. */
  lemma LiveBelowLimit(states: seq<Record>, events: seq<Event>, pattern: Pattern, n: nat)
    requires IsRun(states, events, pattern) && n <= |events| && states[0].maxRetries > 0
    requires forall i :: 0 <= i < |events| ==> !Conflicts(events[i])
    ensures Live(states[n]) ==> states[n].retry < states[0].maxRetries
  {
    if Live(states[n]) { AtLimitIffConflict(states, events, pattern, n); }
  }

  /** Rounds of enqueuing and running the job. */
  ghost predicate AreRounds(events: seq<Event>, retries: bool) {
    forall i :: 0 <= i < |events| ==>
      if i % 2 == 0 then events[i].Enqueue?
      else if retries then Retries(events[i]) else Conflicts(events[i])
  }

  /** A function that always asks to be retried is called as often as the limit says, at least once; for ever if it is 0. */
  lemma {:induction false} RetriesUntilTheLimit(states: seq<Record>, events: seq<Event>, pattern: Pattern, k: nat)
    requires IsRun(states, events, pattern) && AreRounds(events, true) && 2 * k <= |events|
    ensures var limit := if states[0].maxRetries >= 1 then states[0].maxRetries else 1;
      if states[0].maxRetries != 0 && k >= limit then states[2 * k].state == Failed && states[2 * k].retry == limit
      else states[2 * k].state == Pending && states[2 * k].retry == k
    ensures states[2 * k].maxRetries == states[0].maxRetries
  {
    hide IsDelay;
    if k > 0 {
      RetriesUntilTheLimit(states, events, pattern, k - 1);
      var i := 2 * k - 2;
      assert Step(states[i], events[i], pattern, states[i + 1]);
      assert Step(states[i + 1], events[i + 1], pattern, states[i + 2]);
    }
  }

  /** Conflicts of transactions are counted, but however many there are they do not fail the job. */
  lemma {:induction false} ConflictsNeverFail(states: seq<Record>, events: seq<Event>, pattern: Pattern, k: nat)
    requires IsRun(states, events, pattern) && AreRounds(events, false) && 2 * k <= |events|
    ensures states[2 * k].state == Pending && states[2 * k].retry == k
  {
    hide IsDelay;
    if k > 0 {
      ConflictsNeverFail(states, events, pattern, k - 1);
      var i := 2 * k - 2;
      assert Step(states[i], events[i], pattern, states[i + 1]);
      assert Step(states[i + 1], events[i + 1], pattern, states[i + 2]);
    }
  }
}
