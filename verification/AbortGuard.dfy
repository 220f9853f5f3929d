/**
  The per-CI writer: a pool of workers that read `aborted` without the lock, POST, and
  record the outcome under the lock. Every interleaving is a sequence of atomic moves. A POST
  is one request of the retrying client, which may go out several times.
 */
module AbortGuard {
  import opened ItemErrors
  import opened Json
  import opened Wrappers
  import opened Writers
  import Retry

  /** threshold 0 switches the guard off. */
  datatype Config = Config(threshold: nat, concurrency: nat, maxRetries: nat)

  /** The three lock-guarded fields. `aborted` keeps the failure count its message quotes. */
  datatype Guard = Guard(failures: nat, successes: nat, aborted: Option<nat>)

  /** Everything one POST can come back as. */
  datatype PostAnswer =
    | Raised                  // an exception from the client
    | Rejected                // a status outside 2xx
    | ErrorBody               // 2xx carrying an error object
    | NoSysId                 // 2xx without a sys_id
    | Accepted(sysId: string, isNew: bool)
    | Malformed               // reading the reply raises: the exception leaves the worker

  /** What one send of a POST meets. */
  type Attempt = Retry.Attempt<Body>

  predicate Final(a: Attempt) { Retry.Final(None, a) }

  /** What a POST comes back as when its last send meets a. */
  function AnswerTo(a: Attempt): PostAnswer {
    if !Final(a) then Raised
    else if Retry.Success(a.status) then ReadAccepted(a.body)
    else if RefusalRaises(a.body) then Malformed
    else Rejected
  }

  /** A 2xx reply: an error object first, then the attributes of the CI. */
  function ReadAccepted(body: Body): PostAnswer {
    if body.None? then Malformed
    else match FieldsOf(body.value)
      case None => Malformed
      case Some(payload) =>
        match FieldsOf(Get(payload, "result"))
        case None => Malformed
        case Some(result) =>
          var error := Get(result, "error");
          if Truthy(error) then if error.Object? then ErrorBody else Malformed
          else match FieldsOf(Get(result, "attributes"))
            case None => Malformed
            case Some(attributes) =>
              var sysId, created := Get(attributes, "sys_id"), Get(attributes, "sys_created_on");
              if !Truthy(sysId) then NoSysId
              else Accepted(ToText(sysId), Truthy(created) && Same(created, Get(attributes, "sys_updated_on")))
  }

  function ResultOf(item: CiPayload, answer: PostAnswer): WriteResult
    requires !answer.Malformed?
  {
    if !answer.Accepted? then Failure(item)
    else WriteResult(item.intuneId, Wrote(if answer.isNew then Inserted else Updated), answer.sysId, false)
  }

  predicate IsError(r: WriteResult) { r.action == Wrote(Error) }

  /** What recording one outcome under the lock does to the guard. */
  function Recorded(threshold: nat, g: Guard, isError: bool): Guard {
    var failures := if isError then g.failures + 1 else g.failures;
    var successes := if isError then g.successes else g.successes + 1;
    Guard(failures, successes,
          if threshold != 0 && g.aborted.None? && successes == 0 && failures >= threshold
          then Some(failures) else g.aborted)
  }

  // ---- The machine ---------------------------------------------------------

  datatype Task =
    | Queued
    | Started                 // a worker holds it and has not read `aborted` yet
    | Cleared                 // the check passed
    | InFlight(met: seq<Attempt>)   // the POST has been issued; every send but the last has been met by these
    | Done(result: WriteResult, posted: bool)
    | Crashed                 // reading the reply raised: nothing is recorded
    | Cancelled               // dropped from the queue after a crash

  /** posts counts create requests, sends how often they went out; the log holds outcomes in lock order. */
  datatype State = State(guard: Guard, batch: seq<CiPayload>, tasks: seq<Task>,
                         posts: nat, sends: nat, crashes: nat, log: seq<bool>)

  datatype Move =
    | NextBatch(items: seq<CiPayload>)
    | Take(i: nat)
    | Check(i: nat)
    | Send(i: nat)
    | Resend(i: nat, a: Attempt)   // the last send met a, which is retried
    | Reply(i: nat, a: Attempt)    // the last send met a, which ends the request
    | Fault(i: nat)                // the client raised something it does not retry
    | Cancel

  const FRESH := State(Guard(0, 0, None), [], [], 0, 0, 0, [])

  predicate IsBusy(t: Task) { t.Started? || t.Cleared? || t.InFlight? }
  predicate IsCleared(t: Task) { t.Cleared? }
  predicate IsInFlight(t: Task) { t.InFlight? }

  function Count(ts: seq<Task>, p: Task -> bool): nat {
    if ts == [] then 0 else One(p(ts[0])) + Count(ts[1..], p)
  }

  function Workers(c: Config, s: State): nat {
    if c.concurrency < |s.batch| then c.concurrency else |s.batch|
  }

  /** Every task of the current batch has its result: `write` has returned. */
  predicate Idle(s: State) { forall t | t in s.tasks :: t.Done? }

  predicate Enabled(c: Config, s: State, m: Move) {
    match m
    case NextBatch(_) => Idle(s)
    case Take(i) => i < |s.tasks| && s.tasks[i].Queued? && (forall j | 0 <= j < i :: !s.tasks[j].Queued?)
                    && Count(s.tasks, IsBusy) < Workers(c, s)
    case Check(i) => i < |s.tasks| && s.tasks[i].Started?
    case Send(i) => i < |s.tasks| && s.tasks[i].Cleared?
    case Resend(i, a) => i < |s.tasks| && s.tasks[i].InFlight? && !Final(a) && |s.tasks[i].met| < c.maxRetries
    case Reply(i, a) => i < |s.tasks| && s.tasks[i].InFlight? && |s.batch| == |s.tasks|
                        && (Final(a) || |s.tasks[i].met| >= c.maxRetries)
    case Fault(i) => i < |s.tasks| && s.tasks[i].InFlight? && |s.batch| == |s.tasks|
    case Cancel => Crashed in s.tasks && Queued in s.tasks
  }

  /** The POST of task i is over: record its outcome, unless the reply killed the worker. */
  function Finish(c: Config, s: State, i: nat, answer: PostAnswer): State
    requires i < |s.tasks| == |s.batch|
  {
    if answer.Malformed? then s.(tasks := s.tasks[i := Crashed], crashes := s.crashes + 1)
    else
      var r := ResultOf(s.batch[i], answer);
      s.(tasks := s.tasks[i := Done(r, true)],
         guard := Recorded(c.threshold, s.guard, IsError(r)),
         log := s.log + [IsError(r)])
  }

  function Apply(c: Config, s: State, m: Move): State
    requires Enabled(c, s, m)
  {
    match m
    case NextBatch(items) => s.(batch := items, tasks := seq(|items|, _ => Queued))
    case Take(i) => s.(tasks := s.tasks[i := Started])
    case Check(i) =>
      if s.guard.aborted.Some? && i < |s.batch| then s.(tasks := s.tasks[i := Done(Failure(s.batch[i]), false)])
      else s.(tasks := s.tasks[i := Cleared])
    case Send(i) => s.(tasks := s.tasks[i := InFlight([])], posts := s.posts + 1, sends := s.sends + 1)
    case Resend(i, a) => s.(tasks := s.tasks[i := InFlight(s.tasks[i].met + [a])], sends := s.sends + 1)
    case Reply(i, a) => Finish(c, s, i, AnswerTo(a))
    case Fault(i) => Finish(c, s, i, Raised)
    case Cancel =>
      s.(tasks := seq(|s.tasks|, i requires 0 <= i < |s.tasks| =>
                        if s.tasks[i].Queued? then Cancelled else s.tasks[i]))
  }

  /** ms is one interleaving that can happen from s. */
  predicate Possible(c: Config, s: State, ms: seq<Move>)
    decreases |ms|
  {
    ms == [] || (Enabled(c, s, ms[0]) && Possible(c, Apply(c, s, ms[0]), ms[1..]))
  }

  function After(c: Config, s: State, ms: seq<Move>): State
    requires Possible(c, s, ms)
    decreases |ms|
  {
    if ms == [] then s else After(c, Apply(c, s, ms[0]), ms[1..])
  }

  // ---- Counting ------------------------------------------------------------

  lemma {:induction false} CountUpdate(ts: seq<Task>, i: nat, t: Task, p: Task -> bool)
    requires i < |ts|
    ensures Count(ts[i := t], p) == Count(ts, p) - One(p(ts[i])) + One(p(t))
  {
    if i == 0 {
      assert ts[0 := t][1..] == ts[1..];
    } else {
      assert ts[i := t][1..] == ts[1..][i - 1 := t];
      CountUpdate(ts[1..], i - 1, t, p);
    }
  }

  lemma {:induction false} BusySplits(ts: seq<Task>)
    ensures Count(ts, IsCleared) + Count(ts, IsInFlight) <= Count(ts, IsBusy) <= |ts|
  {
    if ts != [] { BusySplits(ts[1..]); }
  }

  lemma {:induction false} NoneCounted(ts: seq<Task>, p: Task -> bool)
    requires forall t | t in ts :: !p(t)
    ensures Count(ts, p) == 0
  {
    if ts != [] { NoneCounted(ts[1..], p); }
  }

  lemma {:induction false} SameCount(ts: seq<Task>, us: seq<Task>, p: Task -> bool)
    requires |ts| == |us| && forall i | 0 <= i < |ts| :: p(ts[i]) == p(us[i])
    ensures Count(ts, p) == Count(us, p)
  {
    if ts != [] { SameCount(ts[1..], us[1..], p); }
  }

  function Sum(ts: seq<Task>, w: Task -> nat): nat {
    if ts == [] then 0 else w(ts[0]) + Sum(ts[1..], w)
  }

  lemma {:induction false} SumUpdate(ts: seq<Task>, i: nat, t: Task, w: Task -> nat)
    requires i < |ts|
    ensures Sum(ts[i := t], w) == Sum(ts, w) - w(ts[i]) + w(t)
  {
    if i == 0 {
      assert ts[0 := t][1..] == ts[1..];
    } else {
      assert ts[i := t][1..] == ts[1..][i - 1 := t];
      SumUpdate(ts[1..], i - 1, t, w);
    }
  }

  lemma {:induction false} SumDrops(ts: seq<Task>, us: seq<Task>, w: Task -> nat)
    requires |ts| == |us| && forall i | 0 <= i < |ts| :: w(us[i]) <= w(ts[i])
    ensures Sum(us, w) <= Sum(ts, w)
    ensures (exists i | 0 <= i < |ts| :: w(us[i]) < w(ts[i])) ==> Sum(us, w) < Sum(ts, w)
  {
    if ts != [] { SumDrops(ts[1..], us[1..], w); }
  }

  lemma {:induction false} NothingWeighs(ts: seq<Task>, w: Task -> nat)
    requires forall t | t in ts :: w(t) == 0
    ensures Sum(ts, w) == 0
  {
    if ts != [] { NothingWeighs(ts[1..], w); }
  }

  // ---- What every move keeps -----------------------------------------------

  ghost predicate AllErrors(log: seq<bool>, n: nat) {
    n <= |log| && forall i | 0 <= i < n :: log[i]
  }

  /** The guard is a function of the outcomes recorded so far, in lock order. */
  ghost predicate GuardMatchesLog(threshold: nat, g: Guard, log: seq<bool>) {
    && g.failures + g.successes == |log|
    && (g.successes == 0 <==> AllErrors(log, |log|))
    && g.aborted == if threshold != 0 && AllErrors(log, threshold) then Some(threshold) else None
  }

  /** Each finished task carries the result of its own item, and only errors go unposted. */
  ghost predicate ResultsBelong(s: State) {
    && |s.tasks| == |s.batch|
    && forall i | 0 <= i < |s.tasks| && s.tasks[i].Done? ::
         && s.tasks[i].result.intuneId == s.batch[i].intuneId && InVocabulary(s.tasks[i].result.action)
         && (!s.tasks[i].posted ==> s.tasks[i].result == Failure(s.batch[i]) && s.guard.aborted.Some?)
  }

  ghost predicate Inv(c: Config, s: State) {
    && GuardMatchesLog(c.threshold, s.guard, s.log)
    && ResultsBelong(s)
    && (Cancelled in s.tasks ==> Crashed in s.tasks)
    && Count(s.tasks, IsBusy) <= c.concurrency
    && s.posts == |s.log| + Count(s.tasks, IsInFlight) + s.crashes
    && (s.guard.aborted.Some? ==>
          s.posts + Count(s.tasks, IsCleared) <= c.threshold + c.concurrency - 1 + s.crashes)
  }

  lemma RecordedMatchesLog(threshold: nat, g: Guard, log: seq<bool>, isError: bool)
    requires GuardMatchesLog(threshold, g, log)
    ensures GuardMatchesLog(threshold, Recorded(threshold, g, isError), log + [isError])
  {
    var next := log + [isError];
    assert forall i | 0 <= i < |log| :: next[i] == log[i];
    assert next[|log|] == isError;
    if threshold != 0 && threshold <= |log| {
      assert AllErrors(next, threshold) <==> AllErrors(log, threshold);
    }
  }

  lemma MoveKeepsInv(c: Config, s: State, m: Move)
    requires c.concurrency >= 1 && Inv(c, s) && Enabled(c, s, m)
    ensures Inv(c, Apply(c, s, m))
    ensures s.guard.aborted.Some? ==> NothingCleared(s, Apply(c, s, m))
  {
    match m
    case NextBatch(items) => BatchKeepsInv(c, s, m);
    case Cancel => CancelKeepsInv(c, s);
    case Take(i) => TaskChanges(s, i, Started);
    case Check(i) => TaskChanges(s, i, Apply(c, s, m).tasks[i]);
    case Send(i) => TaskChanges(s, i, InFlight([]));
    case Resend(i, a) => TaskChanges(s, i, Apply(c, s, m).tasks[i]);
    case Reply(i, a) => FinishKeepsInv(c, s, i, AnswerTo(a));
    case Fault(i) => FinishKeepsInv(c, s, i, Raised);
  }

  /** From the trip on: the verdict stays, and only POSTs already cleared can still go out. */
  ghost predicate NothingCleared(s: State, s': State) {
    && s'.guard.aborted == s.guard.aborted
    && s'.posts + Count(s'.tasks, IsCleared) <= s.posts + Count(s.tasks, IsCleared)
  }

  lemma BatchKeepsInv(c: Config, s: State, m: Move)
    requires Inv(c, s) && m.NextBatch? && Enabled(c, s, m)
    ensures Inv(c, Apply(c, s, m)) && NothingCleared(s, Apply(c, s, m))
  {
    var s' := Apply(c, s, m);
    NoneCounted(s.tasks, IsInFlight);
    NoneCounted(s'.tasks, IsBusy); NoneCounted(s'.tasks, IsCleared); NoneCounted(s'.tasks, IsInFlight);
  }

  lemma CancelKeepsInv(c: Config, s: State)
    requires Inv(c, s) && Enabled(c, s, Cancel)
    ensures Inv(c, Apply(c, s, Cancel)) && NothingCleared(s, Apply(c, s, Cancel))
  {
    var s' := Apply(c, s, Cancel);
    SameCount(s.tasks, s'.tasks, IsBusy); SameCount(s.tasks, s'.tasks, IsCleared); SameCount(s.tasks, s'.tasks, IsInFlight);
  }

  lemma FinishKeepsInv(c: Config, s: State, i: nat, answer: PostAnswer)
    requires Inv(c, s) && i < |s.tasks| && s.tasks[i].InFlight?
    ensures Inv(c, Finish(c, s, i, answer))
    ensures s.guard.aborted.Some? ==> NothingCleared(s, Finish(c, s, i, answer))
  {
    var s' := Finish(c, s, i, answer);
    BusySplits(s.tasks);
    TaskChanges(s, i, s'.tasks[i]);
    if !answer.Malformed? {
      RecordedMatchesLog(c.threshold, s.guard, s.log, IsError(ResultOf(s.batch[i], answer)));
    }
  }

  lemma TaskChanges(s: State, i: nat, t: Task)
    requires i < |s.tasks|
    ensures Count(s.tasks[i := t], IsBusy) == Count(s.tasks, IsBusy) - One(IsBusy(s.tasks[i])) + One(IsBusy(t))
    ensures Count(s.tasks[i := t], IsCleared) == Count(s.tasks, IsCleared) - One(IsCleared(s.tasks[i])) + One(IsCleared(t))
    ensures Count(s.tasks[i := t], IsInFlight) == Count(s.tasks, IsInFlight) - One(IsInFlight(s.tasks[i])) + One(IsInFlight(t))
    ensures !s.tasks[i].Crashed? && !t.Cancelled? ==>
              ((Cancelled in s.tasks ==> Crashed in s.tasks) ==> (Cancelled in s.tasks[i := t] ==> Crashed in s.tasks[i := t]))
  {
    CountUpdate(s.tasks, i, t, IsBusy); CountUpdate(s.tasks, i, t, IsCleared); CountUpdate(s.tasks, i, t, IsInFlight);
    if !s.tasks[i].Crashed? && !t.Cancelled? { CancelledStaysExplained(s.tasks, i, t); }
  }

  lemma CancelledStaysExplained(ts: seq<Task>, i: nat, t: Task)
    requires i < |ts| && !ts[i].Crashed? && !t.Cancelled?
    ensures (Cancelled in ts ==> Crashed in ts) ==> (Cancelled in ts[i := t] ==> Crashed in ts[i := t])
  {
    if Cancelled in ts[i := t] && Crashed in ts {
      var k :| 0 <= k < |ts| && ts[k] == Crashed;
      assert ts[i := t][k] == Crashed;
    }
  }

  lemma {:induction false} RunKeepsInv(c: Config, s: State, ms: seq<Move>)
    requires c.concurrency >= 1 && Inv(c, s) && Possible(c, s, ms)
    ensures Inv(c, After(c, s, ms))
    ensures s.guard.aborted.Some? ==> NothingCleared(s, After(c, s, ms))
    decreases |ms|
  {
    if ms != [] {
      MoveKeepsInv(c, s, ms[0]);
      RunKeepsInv(c, Apply(c, s, ms[0]), ms[1..]);
    }
  }

  // ---- Results over every interleaving -------------------------------------

  lemma FreshInv(c: Config)
    ensures Inv(c, FRESH)
  {}

  /**
    The guard trips exactly when the first `threshold` outcomes recorded were all errors,
    and quotes that count. A threshold of 0 never trips.
   */
  lemma {:induction false} GuardTripsExactly(c: Config, ms: seq<Move>)
    requires c.concurrency >= 1 && Possible(c, FRESH, ms)
    ensures var s := After(c, FRESH, ms);
            s.guard.aborted == if c.threshold != 0 && AllErrors(s.log, c.threshold) then Some(c.threshold) else None
  {
    FreshInv(c);
    RunKeepsInv(c, FRESH, ms);
    assert GuardMatchesLog(c.threshold, After(c, FRESH, ms).guard, After(c, FRESH, ms).log);
  }

  lemma {:induction false} LogOnlyGrows(c: Config, s: State, ms: seq<Move>)
    requires Possible(c, s, ms)
    ensures s.log <= After(c, s, ms).log
    decreases |ms|
  {
    if ms != [] { LogOnlyGrows(c, Apply(c, s, ms[0]), ms[1..]); }
  }

  /** One success recorded before the trip makes the trip unreachable for the rest of the run. */
  lemma {:induction false} OneSuccessDisarms(c: Config, ms: seq<Move>, more: seq<Move>)
    requires c.concurrency >= 1 && Possible(c, FRESH, ms) && Possible(c, After(c, FRESH, ms), more)
    requires After(c, FRESH, ms).guard.successes > 0 && After(c, FRESH, ms).guard.aborted.None?
    ensures After(c, After(c, FRESH, ms), more).guard.aborted.None?
  {
    FreshInv(c);
    RunKeepsInv(c, FRESH, ms);
    var s := After(c, FRESH, ms);
    RunKeepsInv(c, s, more);
    LogOnlyGrows(c, s, more);
    var later := After(c, s, more).log;
    assert forall i | 0 <= i < |s.log| :: later[i] == s.log[i];
  }

  /** After the trip the verdict never changes, and nothing goes out that had not passed the check. */
  lemma {:induction false} NoneClearedAfterTrip(c: Config, ms: seq<Move>, more: seq<Move>)
    requires c.concurrency >= 1 && Possible(c, FRESH, ms) && Possible(c, After(c, FRESH, ms), more)
    requires After(c, FRESH, ms).guard.aborted.Some?
    ensures NothingCleared(After(c, FRESH, ms), After(c, After(c, FRESH, ms), more))
  {
    FreshInv(c);
    RunKeepsInv(c, FRESH, ms);
    RunKeepsInv(c, After(c, FRESH, ms), more);
  }

  /** The create requests of a run that tripped the guard, or has seen no success, stay within T + W - 1. */
  predicate Bounded(c: Config, s: State) {
    s.guard.aborted.Some? || s.guard.successes == 0 ==> s.posts <= c.threshold + c.concurrency - 1
  }

  /** The same, with every reply that killed its worker allowed one POST more. */
  lemma {:induction false} PostBound(c: Config, ms: seq<Move>)
    requires c.concurrency >= 1 && c.threshold >= 1 && Possible(c, FRESH, ms)
    ensures var s := After(c, FRESH, ms);
            s.guard.aborted.Some? || s.guard.successes == 0 ==> s.posts <= c.threshold + c.concurrency - 1 + s.crashes
  {
    FreshInv(c);
    RunKeepsInv(c, FRESH, ms);
    BusySplits(After(c, FRESH, ms).tasks);
  }

  /** ok says what the server may let a send meet. */
  ghost predicate Answered(ms: seq<Move>, ok: Attempt -> bool) {
    forall i | 0 <= i < |ms| && (ms[i].Reply? || ms[i].Resend?) :: ok(ms[i].a)
  }

  lemma AnsweredConcat(a: seq<Move>, b: seq<Move>, ok: Attempt -> bool)
    requires Answered(a, ok) && Answered(b, ok)
    ensures Answered(a + b, ok)
  {}

  lemma {:induction false} NoCrashWithoutMalformed(c: Config, s: State, ms: seq<Move>, ok: Attempt -> bool)
    requires Possible(c, s, ms) && Answered(ms, ok) && forall a | ok(a) :: !AnswerTo(a).Malformed?
    ensures After(c, s, ms).crashes == s.crashes
    decreases |ms|
  {
    if ms != [] {
      assert forall i | 0 <= i < |ms[1..]| :: ms[1..][i] == ms[i + 1];
      assert ms[0].Reply? ==> ok(ms[0].a);
      NoCrashWithoutMalformed(c, Apply(c, s, ms[0]), ms[1..], ok);
    }
  }

  lemma {:induction false} RunsCompose(c: Config, s: State, ms: seq<Move>, more: seq<Move>)
    requires Possible(c, s, ms) && Possible(c, After(c, s, ms), more)
    ensures Possible(c, s, ms + more) && After(c, s, ms + more) == After(c, After(c, s, ms), more)
    decreases |ms|
  {
    if ms == [] {
      assert ms + more == more;
    } else {
      assert (ms + more)[1..] == ms[1..] + more;
      RunsCompose(c, Apply(c, s, ms[0]), ms[1..], more);
    }
  }

  /** How often a request goes out when every send meets a. */
  function PerPost(c: Config, a: Attempt): nat { if Final(a) then 1 else c.maxRetries + 1 }

  /** A worker takes task i, passes the check, and sends until only the last answer is out. */
  function Launch(c: Config, i: nat, a: Attempt): seq<Move> {
    [Take(i), Check(i), Send(i)] + seq(PerPost(c, a) - 1, _ => Resend(i, a))
  }

  lemma OneMove(c: Config, s: State, m: Move)
    requires Enabled(c, s, m)
    ensures Possible(c, s, [m]) && After(c, s, [m]) == Apply(c, s, m)
  {
    assert [m][1..] == [];
    assert Possible(c, Apply(c, s, m), []);
  }

  lemma {:induction false} ResendsRun(c: Config, s: State, i: nat, a: Attempt, n: nat)
    requires i < |s.tasks| && s.tasks[i].InFlight? && |s.tasks[i].met| + n <= c.maxRetries && !Final(a)
    ensures var ms := seq(n, _ => Resend(i, a));
            && Possible(c, s, ms) && |After(c, s, ms).tasks| == |s.tasks|
            && var t := After(c, s, ms).tasks[i];
               && t.InFlight? && |t.met| == |s.tasks[i].met| + n
               && After(c, s, ms) == s.(tasks := s.tasks[i := t], sends := s.sends + n)
    decreases n
  {
    var ms := seq(n, _ => Resend(i, a));
    if n > 0 {
      var s1 := Apply(c, s, ms[0]);
      assert ms[1..] == seq(n - 1, _ => Resend(i, a));
      ResendsRun(c, s1, i, a, n - 1);
    } else {
      assert s.tasks[i := s.tasks[i]] == s.tasks;
    }
  }

  lemma StartRuns(c: Config, s: State, i: nat)
    requires Enabled(c, s, Take(i)) && s.guard.aborted.None?
    ensures Possible(c, s, [Take(i), Check(i), Send(i)])
    ensures After(c, s, [Take(i), Check(i), Send(i)])
            == s.(tasks := s.tasks[i := InFlight([])], posts := s.posts + 1, sends := s.sends + 1)
  {
    var s1 := Apply(c, s, Take(i));
    var s2 := Apply(c, s1, Check(i));
    OneMove(c, s2, Send(i));
    assert [Check(i), Send(i)][1..] == [Send(i)];
    assert Possible(c, s1, [Check(i), Send(i)]);
    assert [Take(i), Check(i), Send(i)][1..] == [Check(i), Send(i)];
    assert s.tasks[i := Started][i := Cleared][i := InFlight([])] == s.tasks[i := InFlight([])];
  }

  lemma LaunchRuns(c: Config, s: State, i: nat, a: Attempt)
    requires Enabled(c, s, Take(i)) && s.guard.aborted.None?
    ensures Possible(c, s, Launch(c, i, a)) && Answered(Launch(c, i, a), x => x == a)
    ensures var s' := After(c, s, Launch(c, i, a));
            && |s'.tasks| == |s.tasks| && s'.tasks[i].InFlight? && |s'.tasks[i].met| == PerPost(c, a) - 1
            && s' == s.(tasks := s.tasks[i := s'.tasks[i]], posts := s.posts + 1, sends := s.sends + PerPost(c, a))
  {
    StartRuns(c, s, i);
    var start, s1 := [Take(i), Check(i), Send(i)], After(c, s, [Take(i), Check(i), Send(i)]);
    if Final(a) {
      assert Launch(c, i, a) == start;
    } else {
      ResendsRun(c, s1, i, a, c.maxRetries);
      RunsCompose(c, s, start, seq(c.maxRetries, _ => Resend(i, a)));
    }
  }

  predicate IsFailure(answer: PostAnswer) { answer.Rejected? || answer.Raised? }

  /** One worker taking tasks in turn, every send meeting the same: k requests so far. */
  lemma {:induction false} OneByOne(c: Config, items: seq<CiPayload>, k: nat, a: Attempt) returns (ms: seq<Move>)
    requires c.concurrency >= 1 && k <= |items|
    requires AnswerTo(a).Malformed? || (IsFailure(AnswerTo(a)) && k < c.threshold)
    ensures Possible(c, FRESH, ms) && Answered(ms, x => x == a)
    ensures var s := After(c, FRESH, ms);
            && s.batch == items && |s.tasks| == |items| && s.posts == k && s.sends == k * PerPost(c, a)
            && s.guard.aborted.None? && s.guard.successes == 0
            && s.guard.failures == (if AnswerTo(a).Malformed? then 0 else k)
            && (forall i | 0 <= i < k :: s.tasks[i].Done? || s.tasks[i].Crashed?)
            && (forall i | k <= i < |items| :: s.tasks[i].Queued?)
  {
    if k == 0 {
      ms := [NextBatch(items)];
      OneMove(c, FRESH, NextBatch(items));
    } else {
      var before := OneByOne(c, items, k - 1, a);
      var s := After(c, FRESH, before);
      CanTake(c, s, k - 1);
      var round := Launch(c, k - 1, a) + [Reply(k - 1, a)];
      RoundRuns(c, s, k - 1, a);
      RunsCompose(c, FRESH, before, round);
      AnsweredConcat(before, round, x => x == a);
      ms := before + round;
      OnePostMore(k - 1, PerPost(c, a));
    }
  }

  lemma CanTake(c: Config, s: State, i: nat)
    requires c.concurrency >= 1 && |s.batch| == |s.tasks| && i < |s.tasks| && s.tasks[i].Queued?
    requires forall j | 0 <= j < i :: s.tasks[j].Done? || s.tasks[j].Crashed?
    requires forall j | i <= j < |s.tasks| :: s.tasks[j].Queued?
    ensures Enabled(c, s, Take(i))
  {
    NoneCounted(s.tasks, IsBusy);
  }

  lemma OnePostMore(k: nat, n: nat)
    ensures (k + 1) * n == k * n + n
  {}

  lemma RoundRuns(c: Config, s: State, i: nat, a: Attempt)
    requires Enabled(c, s, Take(i)) && |s.batch| == |s.tasks| && s.guard.aborted.None?
    requires AnswerTo(a).Malformed? || IsFailure(AnswerTo(a))
    requires s.guard.successes == 0 && (IsFailure(AnswerTo(a)) ==> s.guard.failures + 1 < c.threshold)
    ensures var round := Launch(c, i, a) + [Reply(i, a)];
            && Possible(c, s, round) && Answered(round, x => x == a)
            && var s' := After(c, s, round);
               && s'.batch == s.batch && |s'.tasks| == |s.tasks| && s'.posts == s.posts + 1 && s'.sends == s.sends + PerPost(c, a)
               && s'.guard.aborted.None? && s'.guard.successes == 0
               && s'.guard.failures == s.guard.failures + One(IsFailure(AnswerTo(a)))
               && (s'.tasks[i].Done? || s'.tasks[i].Crashed?)
               && forall j | 0 <= j < |s.tasks| && j != i :: s'.tasks[j] == s.tasks[j]
  {
    LaunchRuns(c, s, i, a);
    var s1 := After(c, s, Launch(c, i, a));
    OneMove(c, s1, Reply(i, a));
    RunsCompose(c, s, Launch(c, i, a), [Reply(i, a)]);
    AnsweredConcat(Launch(c, i, a), [Reply(i, a)], x => x == a);
  }

  function Payloads(n: nat): seq<CiPayload> { seq(n, _ => CiPayload("", "", map[], "", "")) }

  /**
    The bound without the crash allowance holds for every interleaving exactly when the
    server never ends a request, accepting or refusing it, with a reply on which reading raises.
   */
  lemma BoundHoldsIffNoMalformedReply(c: Config, ok: Attempt -> bool)
    requires c.concurrency >= 1 && c.threshold >= 1
    ensures (forall ms | Possible(c, FRESH, ms) && Answered(ms, ok) :: Bounded(c, After(c, FRESH, ms)))
            <==> forall a | ok(a) :: !AnswerTo(a).Malformed?
  {
    if a: Attempt :| ok(a) && AnswerTo(a).Malformed? {
      var n := c.threshold + c.concurrency;
      var ms := OneByOne(c, Payloads(n), n, a);
      assert Possible(c, FRESH, ms) && Answered(ms, ok) && !Bounded(c, After(c, FRESH, ms));
    } else {
      forall ms | Possible(c, FRESH, ms) && Answered(ms, ok)
        ensures Bounded(c, After(c, FRESH, ms))
      {
        NoCrashWithoutMalformed(c, FRESH, ms, ok);
        PostBound(c, ms);
      }
    }
  }

  /** A refusal as IRE words it, but for a number where the errors of its item should be. */
  const ODD_REFUSAL: Attempt := Retry.Response(400, Retry.NoRetryAfter, Retry.NoReset, NUMBER_FOR_ERRORS)

  /** No 2xx reply is needed to break the bound: with every request refused like that, all of them go out. */
  lemma RefusalsBreakTheBound(c: Config) returns (ms: seq<Move>)
    requires c.concurrency >= 1 && c.threshold >= 1
    ensures Possible(c, FRESH, ms) && Answered(ms, x => x == ODD_REFUSAL)
    ensures After(c, FRESH, ms).posts == c.threshold + c.concurrency && !Bounded(c, After(c, FRESH, ms))
  {
    RaisesIff(NUMBER_FOR_ERRORS);
    var n := c.threshold + c.concurrency;
    ms := OneByOne(c, Payloads(n), n, ODD_REFUSAL);
  }

  /** k workers between check and record, nothing recorded in between. */
  lemma {:induction false} AllInFlight(c: Config, s: State, first: nat, k: nat, a: Attempt) returns (ms: seq<Move>)
    requires |s.batch| == |s.tasks| && first + k <= |s.tasks| && k <= c.concurrency && s.guard.aborted.None?
    requires Count(s.tasks, IsBusy) == 0
    requires (forall j | 0 <= j < first :: !s.tasks[j].Queued?) && (forall j | first <= j < |s.tasks| :: s.tasks[j].Queued?)
    ensures Possible(c, s, ms) && Answered(ms, x => x == a)
    ensures var s' := After(c, s, ms);
            && s'.posts == s.posts + k && s'.sends == s.sends + k * PerPost(c, a)
            && s'.guard == s.guard && s'.batch == s.batch && |s'.tasks| == |s.tasks|
            && Count(s'.tasks, IsBusy) == k
            && (forall j | 0 <= j < first + k :: !s'.tasks[j].Queued?)
            && (forall j | first + k <= j < |s'.tasks| :: s'.tasks[j].Queued?)
  {
    if k == 0 {
      ms := [];
    } else {
      var before := AllInFlight(c, s, first, k - 1, a);
      var i := first + k - 1;
      OneMoreInFlight(c, After(c, s, before), i, a);
      RunsCompose(c, s, before, Launch(c, i, a));
      AnsweredConcat(before, Launch(c, i, a), x => x == a);
      ms := before + Launch(c, i, a);
      OnePostMore(k - 1, PerPost(c, a));
    }
  }

  lemma OneMoreInFlight(c: Config, s: State, i: nat, a: Attempt)
    requires |s.batch| == |s.tasks| && i < |s.tasks| && Count(s.tasks, IsBusy) < c.concurrency && s.guard.aborted.None?
    requires Count(s.tasks, IsBusy) < |s.tasks|
    requires (forall j | 0 <= j < i :: !s.tasks[j].Queued?) && (forall j | i <= j < |s.tasks| :: s.tasks[j].Queued?)
    ensures Possible(c, s, Launch(c, i, a)) && Answered(Launch(c, i, a), x => x == a)
    ensures var s' := After(c, s, Launch(c, i, a));
            && s'.posts == s.posts + 1 && s'.sends == s.sends + PerPost(c, a)
            && s'.guard == s.guard && s'.batch == s.batch && |s'.tasks| == |s.tasks|
            && Count(s'.tasks, IsBusy) == Count(s.tasks, IsBusy) + 1
            && (forall j | 0 <= j <= i :: !s'.tasks[j].Queued?) && (forall j | i < j < |s'.tasks| :: s'.tasks[j].Queued?)
  {
    LaunchRuns(c, s, i, a);
    CountUpdate(s.tasks, i, After(c, s, Launch(c, i, a)).tasks[i], IsBusy);
  }

  /**
    Both bounds are exact: against a server that answers every send with the same refusal or
    the same retryable error, some interleaving issues T + W - 1 create requests, each of them
    sent once for a refusal and R + 1 times for a retryable error.
   */
  lemma {:induction false} BoundIsReached(c: Config, a: Attempt) returns (ms: seq<Move>)
    requires c.concurrency >= 1 && c.threshold >= 1 && IsFailure(AnswerTo(a))
    ensures Possible(c, FRESH, ms) && Answered(ms, x => x == a)
    ensures After(c, FRESH, ms).posts == c.threshold + c.concurrency - 1
    ensures After(c, FRESH, ms).sends == (c.threshold + c.concurrency - 1) * PerPost(c, a)
    ensures After(c, FRESH, ms).guard.successes == 0
  {
    var n := c.threshold + c.concurrency - 1;
    var before := OneByOne(c, Payloads(n), c.threshold - 1, a);
    var s := After(c, FRESH, before);
    NoneCounted(s.tasks, IsBusy);
    var more := AllInFlight(c, s, c.threshold - 1, c.concurrency, a);
    RunsCompose(c, FRESH, before, more);
    AnsweredConcat(before, more, x => x == a);
    ms := before + more;
    SplitProduct(c.threshold - 1, c.concurrency, PerPost(c, a));
  }

  lemma SplitProduct(a: nat, b: nat, n: nat)
    ensures (a + b) * n == a * n + b * n
  {}

  // ---- How often the requests go out -----------------------------------------

  function RetriesLeft(c: Config): Task -> nat {
    (t: Task) => if t.InFlight? && |t.met| < c.maxRetries then c.maxRetries - |t.met| else 0
  }

  /** Every request has its sends, and the ones in flight may still use up their retries. */
  ghost predicate SendsInv(c: Config, s: State) {
    s.posts <= s.sends && s.sends + Sum(s.tasks, RetriesLeft(c)) <= Budget(c, s.posts)
  }

  /** R + 1 sends for each of n requests. */
  function Budget(c: Config, n: nat): nat { if n == 0 then 0 else Budget(c, n - 1) + c.maxRetries + 1 }

  lemma {:induction false} BudgetIs(c: Config, n: nat)
    ensures Budget(c, n) == (c.maxRetries + 1) * n
  {
    if n > 0 {
      BudgetIs(c, n - 1);
      assert (c.maxRetries + 1) * n == (c.maxRetries + 1) * (n - 1) + (c.maxRetries + 1);
    }
  }

  lemma {:induction false} BudgetGrows(c: Config, m: nat, n: nat)
    requires m <= n
    ensures Budget(c, m) <= Budget(c, n)
    decreases n
  {
    if m < n { BudgetGrows(c, m, n - 1); }
  }

  lemma MoveKeepsSends(c: Config, s: State, m: Move)
    requires SendsInv(c, s) && Enabled(c, s, m)
    ensures SendsInv(c, Apply(c, s, m))
  {
    var s' := Apply(c, s, m);
    match m
    case NextBatch(_) => NothingWeighs(s'.tasks, RetriesLeft(c));
    case Cancel => SumDrops(s.tasks, s'.tasks, RetriesLeft(c));
    case Send(i) => SendKeepsSends(c, s, i);
    case Resend(i, _) => TaskKeepsSends(c, s, i, s'.tasks[i], 1);
    case Take(i) => TaskKeepsSends(c, s, i, s'.tasks[i], 0);
    case Check(i) => TaskKeepsSends(c, s, i, s'.tasks[i], 0);
    case Reply(i, _) => TaskKeepsSends(c, s, i, s'.tasks[i], 0);
    case Fault(i) => TaskKeepsSends(c, s, i, s'.tasks[i], 0);
  }

  /** A task may send k times more when it has that many retries less left. */
  lemma TaskKeepsSends(c: Config, s: State, i: nat, t: Task, k: nat)
    requires SendsInv(c, s) && i < |s.tasks| && RetriesLeft(c)(t) + k <= RetriesLeft(c)(s.tasks[i])
    ensures SendsInv(c, s.(tasks := s.tasks[i := t], sends := s.sends + k))
  {
    SumUpdate(s.tasks, i, t, RetriesLeft(c));
  }

  lemma SendKeepsSends(c: Config, s: State, i: nat)
    requires SendsInv(c, s) && Enabled(c, s, Send(i))
    ensures SendsInv(c, Apply(c, s, Send(i)))
  {
    var n, left := s.posts, RetriesLeft(c);
    SumUpdate(s.tasks, i, InFlight([]), left);
    assert left(s.tasks[i]) == 0 && left(InFlight([])) == c.maxRetries;
    assert Budget(c, n + 1) == Budget(c, n) + c.maxRetries + 1;
  }

  lemma {:induction false} RunKeepsSends(c: Config, s: State, ms: seq<Move>)
    requires SendsInv(c, s) && Possible(c, s, ms)
    ensures SendsInv(c, After(c, s, ms))
    decreases |ms|
  {
    if ms != [] {
      MoveKeepsSends(c, s, ms[0]);
      RunKeepsSends(c, Apply(c, s, ms[0]), ms[1..]);
    }
  }

  /** On the wire: at most R + 1 sends for each create request PostBound allows. */
  lemma {:induction false} SendBound(c: Config, ms: seq<Move>)
    requires c.concurrency >= 1 && c.threshold >= 1 && Possible(c, FRESH, ms)
    ensures var s := After(c, FRESH, ms);
            s.guard.aborted.Some? || s.guard.successes == 0 ==>
              s.sends <= (c.maxRetries + 1) * (c.threshold + c.concurrency - 1 + s.crashes)
  {
    SendsWithinBudget(c, ms);
    BudgetIs(c, c.threshold + c.concurrency - 1 + After(c, FRESH, ms).crashes);
  }

  lemma SendsWithinBudget(c: Config, ms: seq<Move>)
    requires c.concurrency >= 1 && c.threshold >= 1 && Possible(c, FRESH, ms)
    ensures var s := After(c, FRESH, ms);
            s.guard.aborted.Some? || s.guard.successes == 0 ==> s.sends <= Budget(c, c.threshold + c.concurrency - 1 + s.crashes)
  {
    PostBound(c, ms);
    SendsOfPosts(c, ms);
    var s := After(c, FRESH, ms);
    if s.guard.aborted.Some? || s.guard.successes == 0 {
      BudgetGrows(c, s.posts, c.threshold + c.concurrency - 1 + s.crashes);
    }
  }

  lemma SendsOfPosts(c: Config, ms: seq<Move>)
    requires Possible(c, FRESH, ms)
    ensures After(c, FRESH, ms).sends <= Budget(c, After(c, FRESH, ms).posts)
  {
    RunKeepsSends(c, FRESH, ms);
  }

  /** An instance that is too busy for every single send. */
  const BUSY: Attempt := Retry.Response(503, Retry.NoRetryAfter, Retry.NoReset, None)

  /** With every send answered 503, a run sends (R + 1)(T + W - 1) times. */
  lemma {:induction false} BusyServerReachesSendBound(c: Config) returns (ms: seq<Move>)
    requires c.concurrency >= 1 && c.threshold >= 1
    ensures Possible(c, FRESH, ms) && Answered(ms, x => x == BUSY)
    ensures After(c, FRESH, ms).sends == (c.maxRetries + 1) * (c.threshold + c.concurrency - 1)
    ensures After(c, FRESH, ms).guard.successes == 0
  {
    ms := BoundIsReached(c, BUSY);
  }

  lemma {:induction false} NoResendWithoutRetryable(c: Config, s: State, ms: seq<Move>, ok: Attempt -> bool)
    requires Possible(c, s, ms) && Answered(ms, ok) && (c.maxRetries == 0 || forall a | ok(a) :: Final(a))
    ensures After(c, s, ms).sends - After(c, s, ms).posts == s.sends - s.posts
    decreases |ms|
  {
    if ms != [] {
      assert forall i | 0 <= i < |ms[1..]| :: ms[1..][i] == ms[i + 1];
      assert forall i | 0 <= i < |ms| && ms[i].Resend? :: ok(ms[i].a);
      assert !ms[0].Resend?;
      NoResendWithoutRetryable(c, Apply(c, s, ms[0]), ms[1..], ok);
    }
  }

  /** Every create request goes out once, over all histories, iff nothing is retried or nothing the server says is retryable. */
  lemma SentOnceIff(c: Config, ok: Attempt -> bool)
    requires c.concurrency >= 1
    ensures (forall ms | Possible(c, FRESH, ms) && Answered(ms, ok) :: After(c, FRESH, ms).sends == After(c, FRESH, ms).posts)
            <==> (c.maxRetries == 0 || forall a | ok(a) :: Final(a))
  {
    if c.maxRetries == 0 || forall a | ok(a) :: Final(a) {
      forall ms | Possible(c, FRESH, ms) && Answered(ms, ok) ensures After(c, FRESH, ms).sends == After(c, FRESH, ms).posts {
        NoResendWithoutRetryable(c, FRESH, ms, ok);
      }
    } else {
      var a :| ok(a) && !Final(a);
      var begin := [NextBatch(Payloads(1))];
      OneMove(c, FRESH, begin[0]);
      var s := After(c, FRESH, begin);
      NoneCounted(s.tasks, IsBusy);
      LaunchRuns(c, s, 0, a);
      RunsCompose(c, FRESH, begin, Launch(c, 0, a));
      AnsweredConcat(begin, Launch(c, 0, a), x => x == a);
      assert Answered(begin + Launch(c, 0, a), ok);
    }
  }

  /** What a request in flight has met so far is what the retrying client goes on after. */
  ghost predicate RequestsInv(c: Config, s: State) {
    forall i | 0 <= i < |s.tasks| && s.tasks[i].InFlight? ::
      |s.tasks[i].met| <= c.maxRetries && forall n | 0 <= n < |s.tasks[i].met| :: !Final(s.tasks[i].met[n])
  }

  lemma {:induction false} RunKeepsRequests(c: Config, s: State, ms: seq<Move>)
    requires RequestsInv(c, s) && Possible(c, s, ms)
    ensures RequestsInv(c, After(c, s, ms))
    decreases |ms|
  {
    if ms != [] {
      RunKeepsRequests(c, Apply(c, s, ms[0]), ms[1..]);
    }
  }

  /** Every create request that comes to an answer is an exchange of the retrying client. */
  lemma {:induction false} EveryPostIsARequest(c: Config, ms: seq<Move>, i: nat, a: Attempt)
    requires Possible(c, FRESH, ms) && Enabled(c, After(c, FRESH, ms), Reply(i, a))
    ensures Retry.IsExchange(None, c.maxRetries, After(c, FRESH, ms).tasks[i].met + [a])
    ensures AnswerTo(a).Raised? <==> Retry.OutcomeOf(None, a).Raised?
  {
    RunKeepsRequests(c, FRESH, ms);
  }

  /** What `write` hands back when no worker died: one result per item, in batch order. */
  lemma {:induction false} BatchResults(c: Config, ms: seq<Move>)
    requires c.concurrency >= 1 && Possible(c, FRESH, ms) && Idle(After(c, FRESH, ms))
    ensures var s := After(c, FRESH, ms);
            && |s.tasks| == |s.batch|
            && forall i | 0 <= i < |s.tasks| ::
                 && s.tasks[i].result.intuneId == s.batch[i].intuneId
                 && (!s.tasks[i].posted ==> IsError(s.tasks[i].result) && s.guard.aborted.Some?)
  {
    FreshInv(c);
    RunKeepsInv(c, FRESH, ms);
    IdleResults(After(c, FRESH, ms));
  }

  lemma IdleResults(s: State)
    requires ResultsBelong(s) && Idle(s)
    ensures |s.tasks| == |s.batch|
    ensures forall i | 0 <= i < |s.tasks| ::
              && s.tasks[i].Done? && s.tasks[i].result.intuneId == s.batch[i].intuneId
              && (!s.tasks[i].posted ==> IsError(s.tasks[i].result) && s.guard.aborted.Some?)
  {
    forall i | 0 <= i < |s.tasks| ensures s.tasks[i].Done? { assert s.tasks[i] in s.tasks; }
  }

  // ---- What a reply makes of a device ------------------------------------------

  /** The fields of the CI that a reply accepts: those of `result.attributes`, where `result` has no error. */
  ghost predicate AcceptsCi(a: Attempt, attributes: map<string, Json>) {
    && a.Response? && 200 <= a.status < 300 && a.body.Some? && a.body.value.Object?
    && var result := Get(a.body.value.fields, "result");
       && result.Object? && !Truthy(Get(result.fields, "error"))
       && Get(result.fields, "attributes").Object? && attributes == Get(result.fields, "attributes").fields
       && Truthy(Get(attributes, "sys_id"))
  }

  /** What the result of a posted device has to be when the last send of its request met a. */
  ghost predicate Reads(item: CiPayload, a: Attempt, r: WriteResult) {
    && (r.action != Wrote(Error) <==> exists attributes :: AcceptsCi(a, attributes))
    && (r.action == Wrote(Error) ==> r.sysId == "" && r.message)
    && (forall attributes | AcceptsCi(a, attributes) ::
          && r.sysId == ToText(Get(attributes, "sys_id"))
          && r.action == (if Truthy(Get(attributes, "sys_created_on"))
                             && Same(Get(attributes, "sys_created_on"), Get(attributes, "sys_updated_on"))
                          then Wrote(Inserted) else Wrote(Updated)))
    && r.intuneId == item.intuneId
  }

  lemma AnswerIsRead(item: CiPayload, a: Attempt)
    requires !AnswerTo(a).Malformed?
    ensures Reads(item, a, ResultOf(item, AnswerTo(a)))
  {
    if AnswerTo(a).Accepted? {
      var result := Get(a.body.value.fields, "result");
      assert AcceptsCi(a, Get(result.fields, "attributes").fields);
    }
  }

  /** When the worker dies of a reply. */
  lemma WorkerDiesIff(a: Attempt)
    ensures AnswerTo(a).Malformed? <==>
              && a.Response? && a.status !in {408, 429, 500, 502, 503, 504}
              && if !(200 <= a.status < 300) then RefusalRaises(a.body)
                 else a.body.None? || Odd(a.body.value) || (a.body.value.Object? && DiesInside(Get(a.body.value.fields, "result")))
  {}

  /** A true value that is no object. */
  predicate Odd(j: Json) { Truthy(j) && !j.Object? }

  /** A `result` one of whose parts is no object where one is looked into: the error, or else the attributes. */
  predicate DiesInside(result: Json) {
    Odd(result)
    || (result.Object? && if Truthy(Get(result.fields, "error")) then Odd(Get(result.fields, "error")) else Odd(Get(result.fields, "attributes")))
  }

  /** The last word on task i since its batch began: the move that ended its request. */
  function LastWord(ms: seq<Move>, i: nat): Option<Move> {
    if ms == [] || ms[|ms| - 1].NextBatch? then None
    else
      var m := ms[|ms| - 1];
      if m == Fault(i) || (m.Reply? && m.i == i) then Some(m) else LastWord(ms[..|ms| - 1], i)
  }

  lemma {:induction false} RunSnoc(c: Config, s: State, ms: seq<Move>, m: Move)
    requires Possible(c, s, ms + [m])
    ensures Possible(c, s, ms) && Enabled(c, After(c, s, ms), m)
    ensures After(c, s, ms + [m]) == Apply(c, After(c, s, ms), m)
    decreases |ms|
  {
    if ms == [] {
      assert ms + [m] == [m];
      OneMove(c, s, m);
    } else {
      assert (ms + [m])[1..] == ms[1..] + [m] && (ms + [m])[0] == ms[0];
      RunSnoc(c, Apply(c, s, ms[0]), ms[1..], m);
    }
  }

  /** What task i has to be, given the last word on it. */
  ghost predicate Said(s: State, i: nat, word: Option<Move>) {
    i < |s.tasks| == |s.batch| && s.tasks[i].Done? && s.tasks[i].posted ==>
      && word.Some?
      && (word.value.Fault? ==> s.tasks[i].result == Failure(s.batch[i]))
      && (word.value.Reply? ==> Reads(s.batch[i], word.value.a, s.tasks[i].result))
  }

  /**
    In every interleaving, a device that was posted has the result that the last reply to its
    own request calls for; an exception of the client is an error.
   */
  lemma {:induction false} PostedResults(c: Config, ms: seq<Move>, i: nat)
    requires Possible(c, FRESH, ms)
    ensures Said(After(c, FRESH, ms), i, LastWord(ms, i))
  {
    if ms != [] {
      var front, m := ms[..|ms| - 1], ms[|ms| - 1];
      assert ms == front + [m];
      RunSnoc(c, FRESH, front, m);
      PostedResults(c, front, i);
      MoveKeepsSaid(c, After(c, FRESH, front), m, i, LastWord(front, i));
    }
  }

  lemma MoveKeepsSaid(c: Config, s: State, m: Move, i: nat, word: Option<Move>)
    requires Enabled(c, s, m) && Said(s, i, word)
    ensures Said(Apply(c, s, m), i, if m.NextBatch? then None else if m == Fault(i) || (m.Reply? && m.i == i) then Some(m) else word)
  {
    if m.Reply? && m.i == i && !AnswerTo(m.a).Malformed? { AnswerIsRead(s.batch[i], m.a); }
  }

  /** A reply that is no write disarms nothing: the guard counts a success exactly when a CI was accepted. */
  lemma SuccessIff(c: Config, s: State, i: nat, a: Attempt)
    requires Enabled(c, s, Reply(i, a)) && !AnswerTo(a).Malformed?
    ensures Apply(c, s, Reply(i, a)).guard.successes
            == s.guard.successes + if exists attributes :: AcceptsCi(a, attributes) then 1 else 0
  {
    AnswerIsRead(s.batch[i], a);
  }

  // ---- Every interleaving of a batch comes to an end -----------------------

  function StepsLeft(c: Config, t: Task): nat {
    match t
    case Queued => c.maxRetries + 4
    case Started => c.maxRetries + 3
    case Cleared => c.maxRetries + 2
    case InFlight(_) => 1 + RetriesLeft(c)(t)
    case _ => 0
  }

  function Steps(c: Config): Task -> nat { (t: Task) => StepsLeft(c, t) }

  predicate Settled(s: State) { forall t | t in s.tasks :: !t.Queued? && !IsBusy(t) }

  /** Within a batch every move is progress, so no interleaving goes on for ever. */
  lemma MoveIsProgress(c: Config, s: State, m: Move)
    requires Enabled(c, s, m) && !m.NextBatch?
    ensures Sum(Apply(c, s, m).tasks, Steps(c)) < Sum(s.tasks, Steps(c))
  {
    var s' := Apply(c, s, m);
    match m
    case Take(i) => TaskGetsOn(c, s.tasks, i, Started);
    case Check(i) => TaskGetsOn(c, s.tasks, i, s'.tasks[i]);
    case Send(i) => TaskGetsOn(c, s.tasks, i, InFlight([]));
    case Resend(i, _) => TaskGetsOn(c, s.tasks, i, s'.tasks[i]);
    case Reply(i, _) => TaskGetsOn(c, s.tasks, i, s'.tasks[i]);
    case Fault(i) => TaskGetsOn(c, s.tasks, i, s'.tasks[i]);
    case Cancel =>
      var k :| 0 <= k < |s.tasks| && s.tasks[k] == Queued;
      assert Steps(c)(s'.tasks[k]) < Steps(c)(s.tasks[k]);
      SumDrops(s.tasks, s'.tasks, Steps(c));
  }

  lemma TaskGetsOn(c: Config, ts: seq<Task>, i: nat, t: Task)
    requires i < |ts| && StepsLeft(c, t) < StepsLeft(c, ts[i])
    ensures Sum(ts[i := t], Steps(c)) < Sum(ts, Steps(c))
  {
    SumUpdate(ts, i, t, Steps(c));
  }

  /** The pool never deadlocks: until every task is settled, some worker can move. */
  lemma SomeWorkerCanMove(c: Config, s: State) returns (m: Move)
    requires c.concurrency >= 1 && Inv(c, s) && !Settled(s)
    ensures Enabled(c, s, m) && !m.NextBatch?
  {
    if j :| 0 <= j < |s.tasks| && IsBusy(s.tasks[j]) {
      m := if s.tasks[j].Started? then Check(j) else if s.tasks[j].Cleared? then Send(j) else Fault(j);
    } else {
      NoneCounted(s.tasks, IsBusy);
      var i :| 0 <= i < |s.tasks| && s.tasks[i].Queued?;
      var f := FirstQueued(s.tasks, i);
      m := Take(f);
    }
  }

  lemma {:induction false} FirstQueued(ts: seq<Task>, i: nat) returns (f: nat)
    requires i < |ts| && ts[i].Queued?
    ensures f <= i && ts[f].Queued? && forall j | 0 <= j < f :: !ts[j].Queued?
  {
    if j: nat :| j < i && ts[j].Queued? { f := FirstQueued(ts, j); } else { f := i; }
  }

  /** Which moves are possible depends on the tasks alone. */
  lemma SameMoves(c: Config, s: State, s': State, m: Move)
    requires s.tasks == s'.tasks && s.batch == s'.batch
    ensures Enabled(c, s, m) == Enabled(c, s', m)
  {}

  /** A batch with nothing left to do has every result, or a dead worker. */
  lemma {:induction false} SettledBatch(c: Config, ms: seq<Move>)
    requires c.concurrency >= 1 && Possible(c, FRESH, ms) && Settled(After(c, FRESH, ms))
    ensures var s := After(c, FRESH, ms); Crashed !in s.tasks ==> Idle(s) && ResultsBelong(s) && forall i | 0 <= i < |s.tasks| :: s.tasks[i].Done?
  {
    FreshInv(c);
    RunKeepsInv(c, FRESH, ms);
    if Crashed !in After(c, FRESH, ms).tasks { SettledTasks(c, After(c, FRESH, ms)); }
  }

  lemma SettledTasks(c: Config, s: State)
    requires Inv(c, s) && Settled(s) && Crashed !in s.tasks
    ensures Idle(s) && forall i | 0 <= i < |s.tasks| :: s.tasks[i].Done?
  {
    forall i | 0 <= i < |s.tasks| ensures s.tasks[i].Done? {
      var t := s.tasks[i];
      assert t in s.tasks && t != Crashed && t != Cancelled;
    }
  }

  // ---- The writer object ---------------------------------------------------

  class CmdbInstanceWriter {
    const threshold: nat
    const concurrency: nat
    const maxRetries: nat
    var failures: nat
    var successes: nat
    var aborted: Option<nat>
    /** The whole run so far, and the state of the machine it leads to. */
    ghost var moves: seq<Move>
    ghost var now: State

    ghost function Cfg(): Config { Config(threshold, concurrency, maxRetries) }

    ghost predicate Valid()
      reads this
    {
      && concurrency >= 1
      && Possible(Cfg(), FRESH, moves) && now == After(Cfg(), FRESH, moves)
      && now.guard == Guard(failures, successes, aborted)
    }

    constructor (threshold: nat, concurrency: nat, maxRetries: nat)
      requires concurrency >= 1
      ensures Valid() && moves == [] && Cfg() == Config(threshold, concurrency, maxRetries)
    {
      this.threshold, this.concurrency, this.maxRetries := threshold, concurrency, maxRetries;
      failures, successes, aborted := 0, 0, None;
      moves, now := [], FRESH;
    }

    /** The locked section: count the outcome, then trip the guard if failure looks systematic. */
    method Record(result: WriteResult)
      modifies `failures, `successes, `aborted
      ensures Guard(failures, successes, aborted)
              == Recorded(threshold, Guard(old(failures), old(successes), old(aborted)), IsError(result))
    {
      if result.action == Wrote(Error) {
        failures := failures + 1;
      } else {
        successes := successes + 1;
      }
      if threshold != 0 && aborted.None? && successes == 0 && failures >= threshold {
        aborted := Some(failures);
      }
    }

    ghost method Note(m: Move)
      requires Possible(Cfg(), FRESH, moves) && now == After(Cfg(), FRESH, moves) && Enabled(Cfg(), now, m)
      modifies `moves, `now
      ensures moves == old(moves) + [m] && now == Apply(Cfg(), old(now), m)
      ensures Possible(Cfg(), FRESH, moves) && now == After(Cfg(), FRESH, moves)
    {
      assert Possible(Cfg(), Apply(Cfg(), now, m), []);
      assert Possible(Cfg(), now, [m]);
      RunsCompose(Cfg(), FRESH, moves, [m]);
      moves, now := moves + [m], Apply(Cfg(), now, m);
    }

    /** One atomic step of the pool: the only places a worker touches the shared fields. */
    method Perform(m: Move, batch: seq<CiPayload>, tasks: seq<Task>) returns (next: seq<Task>)
      requires Valid() && now.tasks == tasks && now.batch == batch && |tasks| == |batch|
      requires Enabled(Cfg(), now, m) && !m.NextBatch?
      modifies this
      ensures Valid() && moves == old(moves) + [m] && now == Apply(Cfg(), old(now), m) && now.tasks == next
    {
      Note(m);
      match m
      case Take(i) => next := tasks[i := Started];
      case Check(i) => next := tasks[i := if aborted.Some? then Done(Failure(batch[i]), false) else Cleared];
      case Send(i) => next := tasks[i := InFlight([])];
      case Resend(i, a) => next := tasks[i := InFlight(tasks[i].met + [a])];
      case Reply(i, a) => next := EndPost(i, AnswerTo(a), batch, tasks);
      case Fault(i) => next := EndPost(i, Raised, batch, tasks);
      case Cancel =>
        next := seq(|tasks|, i requires 0 <= i < |tasks| => if tasks[i].Queued? then Cancelled else tasks[i]);
    }

    /** A worker whose request is over records what came of it, or dies of the reply. */
    method EndPost(i: nat, answer: PostAnswer, batch: seq<CiPayload>, tasks: seq<Task>) returns (next: seq<Task>)
      requires i < |tasks| == |batch|
      modifies `failures, `successes, `aborted
      ensures var g := Guard(old(failures), old(successes), old(aborted));
              && next == tasks[i := if answer.Malformed? then Crashed else Done(ResultOf(batch[i], answer), true)]
              && Guard(failures, successes, aborted)
                 == if answer.Malformed? then g else Recorded(threshold, g, IsError(ResultOf(batch[i], answer)))
    {
      if answer.Malformed? {
        next := tasks[i := Crashed];
      } else {
        Record(ResultOf(batch[i], answer));
        next := tasks[i := Done(ResultOf(batch[i], answer), true)];
      }
    }

    /** A scheduler's choice: any move that is possible now, whatever the server answers. */
    method Schedule(batch: seq<CiPayload>, tasks: seq<Task>) returns (m: Move)
      requires Valid() && now.tasks == tasks && now.batch == batch && !Settled(now)
      ensures Enabled(Cfg(), now, m) && !m.NextBatch?
    {
      FreshInv(Cfg());
      RunKeepsInv(Cfg(), FRESH, moves);
      var here := State(Guard(failures, successes, aborted), batch, tasks, 0, 0, 0, []);
      ghost var some := SomeWorkerCanMove(Cfg(), now);
      SameMoves(Cfg(), here, now, some);
      m :| Enabled(Config(threshold, concurrency, maxRetries), here, m) && !m.NextBatch?;
      SameMoves(Cfg(), here, now, m);
    }

    /**
      One batch under an arbitrary scheduler and server. None is the exception a malformed
      reply raises out of the pool.
     */
    method Write(batch: seq<CiPayload>) returns (results: Option<seq<WriteResult>>)
      requires Valid() && Idle(now)
      modifies this
      ensures Valid() && old(moves) <= moves
      ensures results.None? ==> Crashed in now.tasks
      ensures results.Some? ==> Idle(now) && Answers(batch, results.value)
      ensures results.Some? ==> forall i | 0 <= i < |batch| :: |now.tasks| == |batch| && results.value[i] == now.tasks[i].result
    {
      if batch == [] {
        return Some([]);
      }
      var tasks := seq(|batch|, _ => Queued);
      Note(NextBatch(batch));
      while exists t :: t in tasks && (t.Queued? || IsBusy(t))
        invariant Valid() && old(moves) <= moves
        invariant now.tasks == tasks && now.batch == batch && |tasks| == |batch|
        decreases Sum(tasks, Steps(Cfg()))
      {
        var m := Schedule(batch, tasks);
        MoveIsProgress(Cfg(), now, m);
        tasks := Perform(m, batch, tasks);
      }
      SettledBatch(Cfg(), moves);
      if Crashed in tasks {
        results := None;
      } else {
        results := Some(seq(|tasks|, i requires 0 <= i < |tasks| && tasks[i].Done? => tasks[i].result));
      }
    }
  }
}
