/** Waking a hibernated worker (internal/controller/controller.go wake, release,
    sleepCtx): the in-flight guard, the retry loop inside the wake window, and the
    one release. Times in milliseconds; every delay is the environment's choice. */
module WakeLoop {
  import opened Common
  import opened Backend

  datatype Result = Woken | WorkspaceMissing | UnknownWorker | Transient

  predicate Gone(r: Result) { r.WorkspaceMissing? || r.UnknownWorker? }

  /** The request as the handler sees it. */
  datatype Request = Request(id: string, worker: string, wakeTimeout: int)

  /** When the retries must end: the wake window, capped by the handler's own deadline. */
  function Deadline(start: int, window: int, handlerDeadline: int): int {
    if window > 0 then Min(start + window, handlerDeadline) else handlerDeadline
  }

  /** How many intervals are begun within a length: the quotient, rounded up. */
  function Intervals(length: int, interval: int): (n: int)
    requires interval > 0
    ensures length >= 0 ==> n >= 0
    ensures (n - 1) * interval < length <= n * interval
  {
    (length + interval - 1) / interval
  }

  lemma IntervalsGrow(shorter: int, longer: int, interval: int)
    requires interval > 0 && shorter <= longer
    ensures Intervals(shorter, interval) <= Intervals(longer, interval)
  {
    var m, n := Intervals(shorter, interval), Intervals(longer, interval);
    hide Intervals;
    if n <= m - 1 { SpanGrows(n, m - 1, interval); }
  }

  lemma DeadlineOver(start: int, window: int, handlerDeadline: int, t: int)
    requires window > 0
    ensures t >= Deadline(start, window, handlerDeadline) ==> t >= start + window || t >= handlerDeadline
    ensures start <= handlerDeadline ==> start <= Deadline(start, window, handlerDeadline)
  {
  }

  /** Attempts bounded by the capped window are bounded by the window, and by the time left. */
  lemma AttemptsFit(n: nat, start: int, window: int, handlerDeadline: int, interval: int)
    requires interval > 0 && window > 0
    requires n <= Intervals(Deadline(start, window, handlerDeadline) - start, interval) + 1
    ensures n <= Intervals(window, interval) + 1 && n <= Intervals(handlerDeadline - start, interval) + 1
  {
    IntervalsGrow(Deadline(start, window, handlerDeadline) - start, window, interval);
    IntervalsGrow(Deadline(start, window, handlerDeadline) - start, handlerDeadline - start, interval);
  }

  class Controller {
    const prefix: string
    const retryInterval: int
    var inflight: set<string>
    var recentClaims: set<string>
    /** Calls of ReleaseClaim, in order. */
    var releases: seq<string>
    var now: int
    var calls: nat
    const wakeResult: nat -> Result
    const wakeTakes: nat -> nat
    const startLag: nat -> nat
    const selectLag: nat -> nat
    const resumeLag: nat -> nat
    const timerWins: nat -> bool

    constructor (prefix: string, retryInterval: int, now: int, wakeResult: nat -> Result, wakeTakes: nat -> nat,
                 startLag: nat -> nat, selectLag: nat -> nat, resumeLag: nat -> nat, timerWins: nat -> bool)
      requires retryInterval > 0
      ensures Valid() && inflight == {} && releases == [] && this.retryInterval == retryInterval
      ensures this.prefix == prefix
      ensures this.now == now && calls == 0 && this.wakeResult == wakeResult && this.wakeTakes == wakeTakes
      ensures this.startLag == startLag && this.selectLag == selectLag && this.resumeLag == resumeLag
      ensures this.timerWins == timerWins
    {
      this.prefix, this.retryInterval, this.now := prefix, retryInterval, now;
      this.wakeResult, this.wakeTakes, this.timerWins := wakeResult, wakeTakes, timerWins;
      this.startLag, this.selectLag, this.resumeLag := startLag, selectLag, resumeLag;
      inflight, recentClaims, releases, calls := {}, {}, [], 0;
    }

    ghost predicate Valid() { retryInterval > 0 }

    predicate Owns(worker: string) { HasPrefix(worker, prefix) }

    /** An attempt takes its time, perhaps even past the deadline. */
    method Elapse()
      modifies this`now, this`calls
      ensures now == old(now) + wakeTakes(old(calls)) && calls == old(calls) + 1
    {
      now := now + wakeTakes(calls);
      calls := calls + 1;
    }

    /** One backend attempt. */
    method BackendWake() returns (r: Result)
      modifies this`now, this`calls
      ensures r == wakeResult(old(calls)) && now == old(now) + wakeTakes(old(calls)) && calls == old(calls) + 1
    {
      r := wakeResult(calls);
      Elapse();
    }

    /** What `sleepCtx` does when called at `t`: whether the sleeper woke, and when it goes
        on. The timer starts a little after the call, and the select is entered a little
        after that: when both channels are ready by then, either may be taken, even a timer
        that fired after the deadline. The sleeper may also be resumed late. */
    function Slept(t: int, call: nat, d: int, deadline: int): (r: (bool, int))
      ensures d > 0 ==> r.1 >= t && (if r.0 then r.1 >= t + d else r.1 >= deadline)
    {
      if d <= 0 then (t < deadline, t)
      else
        var fires := t + startLag(call) + d;
        var entered := t + startLag(call) + selectLag(call);
        var timerReady, doneReady := fires <= entered, deadline <= entered;
        var woke :=
          if timerReady && doneReady then timerWins(call)
          else if timerReady || doneReady then timerReady
          else fires < deadline || (fires == deadline && timerWins(call));
        var at := if timerReady || doneReady then entered else if woke then fires else deadline;
        (woke, at + resumeLag(call))
    }

    method Sleep(d: int, deadline: int) returns (woke: bool)
      modifies this`now, this`calls
      ensures (woke, now) == Slept(old(now), old(calls), d, deadline) && calls == old(calls) + 1
      ensures d <= 0 ==> (woke <==> old(now) < deadline)
      ensures d > 0 && woke ==> now >= old(now) + d
      ensures d > 0 && !woke ==> now >= deadline
    {
      if d <= 0 {
        woke := now < deadline;
      } else {
        var fires := now + startLag(calls) + d;
        now := now + startLag(calls) + selectLag(calls);
        if fires <= now && deadline <= now {
          woke := timerWins(calls);
        } else if fires <= now {
          woke := true;
        } else if deadline <= now {
          woke := false;
        } else {
          woke := fires < deadline || (fires == deadline && timerWins(calls));
          now := if woke then fires else deadline;
        }
        now := now + resumeLag(calls);
      }
      calls := calls + 1;
    }

    /** The answers of the attempts from time `t` on. */
    function Answers(t: int, call: nat, window: int, deadline: int): (r: seq<Result>)
      requires retryInterval > 0
      ensures r != []
      decreases if t < deadline then deadline - t else 0, 1
    {
      [wakeResult(call)] + Retries(wakeResult(call), t + wakeTakes(call), call + 1, window, deadline)
    }

    /** In this world the attempts answer so: they are made at every second call. */
    ghost predicate Predicted(results: seq<Result>, call: nat) {
      forall i :: 0 <= i < |results| ==> wakeResult(call + 2 * i) == results[i]
    }

    /** What follows an answer: nothing, or a sleep and then more attempts. */
    function Retries(last: Result, t: int, call: nat, window: int, deadline: int): seq<Result>
      requires retryInterval > 0
      decreases if t < deadline then deadline - t else 0, 0
    {
      if last == Transient && window > 0 && t < deadline && Slept(t, call, retryInterval, deadline).0
      then Answers(Slept(t, call, retryInterval, deadline).1, call + 1, window, deadline)
      else []
    }

    lemma AnswersBegin(done: seq<Result>, t: int, call: nat, window: int, deadline: int)
      requires retryInterval > 0
      ensures var r := wakeResult(call);
        done + Answers(t, call, window, deadline) ==
          done + [r] + Retries(r, t + wakeTakes(call), call + 1, window, deadline)
    {
    }

    lemma PredictedMore(results: seq<Result>, r: Result, call: nat)
      requires Predicted(results + [r], call)
      ensures Predicted(results, call) && wakeResult(call + 2 * |results|) == r
    {
      var all := results + [r];
      assert all[|results|] == r && forall i :: 0 <= i < |results| ==> all[i] == results[i];
    }

    /** An answer that is not transient is the only one. */
    lemma DecisiveAnswer(t: int, call: nat, window: int, deadline: int)
      requires retryInterval > 0 && wakeResult(call) != Transient
      ensures Answers(t, call, window, deadline) == [wakeResult(call)]
    {
    }

    /** Attempt `n` of those begun at `start` may be made at `t`: attempts are an interval apart,
        and the sleep before each retry began inside the window. */
    ghost predicate Paced(n: nat, start: int, t: int, window: int, deadline: int) {
      && (window <= 0 ==> n == 1) && n >= 1 && start + Span(n - 1, retryInterval) <= t
      && (n >= 2 ==> window > 0 && start + Span(n - 2, retryInterval) < deadline)
    }

    lemma FirstIsPaced(t: int, window: int, deadline: int)
      ensures Paced(1, t, t, window, deadline)
    {
    }

    lemma StaysPaced(n: nat, start: int, t: int, later: int, window: int, deadline: int)
      requires Paced(n, start, t, window, deadline) && t <= later
      ensures Paced(n, start, later, window, deadline)
    {
    }

    /** What follows the `n`-th answer: whether there is another attempt, after the sleep. */
    method Again(last: Result, window: int, deadline: int, ghost start: int, ghost n: nat) returns (again: bool)
      requires Valid() && Paced(n, start, now, window, deadline)
      modifies this`now, this`calls
      ensures Valid() && now >= old(now) && Paced(if again then n + 1 else n, start, now, window, deadline)
      ensures Retries(last, old(now), old(calls), window, deadline) ==
        if again then Answers(now, calls, window, deadline) else []
      ensures again ==> calls == old(calls) + 1
      ensures again ==> last == Transient && window > 0 && old(now) < deadline && now > old(now)
      ensures !again && last == Transient && window > 0 ==> now >= deadline
    {
      hide Answers, Slept;
      again := last == Transient && window > 0 && now < deadline;
      if again {
        again := Sleep(retryInterval, deadline);
        SpanNext(n - 1, retryInterval);
      }
    }

    /** Releases on a fresh context; a failing call is only logged. */
    method Release(id: string)
      modifies this`recentClaims, this`releases
      ensures recentClaims == old(recentClaims) - {id} && releases == old(releases) + [id]
    {
      recentClaims := recentClaims - {id};
      releases := releases + [id];
    }

    /** Tries, and tries again while the failure is transient and the window is open. */
    method Retry(window: int, deadline: int) returns (results: seq<Result>)
      requires Valid() && (window > 0 ==> now <= deadline)
      modifies this`now, this`calls
      ensures Valid() && now >= old(now) && results != []
      ensures results == Answers(old(now), old(calls), window, deadline)
      ensures forall i :: 0 <= i < |results| - 1 ==> results[i] == Transient
      ensures wakeResult(old(calls)) != Transient ==> results == [wakeResult(old(calls))]
      // At most one attempt per retry interval begun, and one more.
      ensures window > 0 ==> |results| <= Intervals(deadline - old(now), retryInterval) + 1
      ensures window <= 0 ==> |results| == 1
      // It only gives up on a transient failure once the window is over.
      ensures window > 0 && results[|results| - 1] == Transient ==> now >= deadline
    {
      hide Answers, Retries, Slept, Span, Intervals, Paced;
      ghost var start, whole := now, Answers(now, calls, window, deadline);
      if wakeResult(calls) != Transient { DecisiveAnswer(now, calls, window, deadline); }
      FirstIsPaced(now, window, deadline);
      var again := true;
      results := [];
      while again
        invariant Valid() && now >= start && Paced(|results| + if again then 1 else 0, start, now, window, deadline)
        invariant again || results != []
        invariant whole == results + if again then Answers(now, calls, window, deadline) else []
        invariant forall i :: 0 <= i < |results| - (if again then 0 else 1) ==> results[i] == Transient
        invariant !again && window > 0 && results[|results| - 1] == Transient ==> now >= deadline
        decreases again, deadline - now
      {
        AnswersBegin(results, now, calls, window, deadline);
        ghost var began := now;
        var r := BackendWake();
        results := results + [r];
        StaysPaced(|results|, start, began, now, window, deadline);
        again := Again(r, window, deadline, start, |results|);
      }
      AttemptsAreFew(|results|, start, now, window, deadline);
    }

    lemma AttemptsAreFew(n: nat, start: int, t: int, window: int, deadline: int)
      requires Valid() && Paced(n, start, t, window, deadline)
      ensures window > 0 && start <= deadline ==> n <= Intervals(deadline - start, retryInterval) + 1
      ensures window <= 0 ==> n == 1
    {
      if window > 0 && start <= deadline { AttemptsBound(n, deadline - start, retryInterval); }
    }

    /** One wake handler, from the ownership check to the deferred guard removal. */
    method Wake(r: Request, handlerDeadline: int) returns (results: seq<Result>, ghost guards: set<string>)
      requires Valid() && now <= handlerDeadline
      modifies this
      ensures Valid() && inflight == old(inflight)
      ensures results == [] <==> !Owns(r.worker) || "wake:" + r.worker in old(inflight)
      ensures results == [] ==> now == old(now) && recentClaims == old(recentClaims)
      // The worker's guard is held while the backend is asked.
      ensures results != [] ==> guards == old(inflight) + {"wake:" + r.worker}
      // At most one attempt per interval begun in the wake window and before the handler's
      // deadline, and one more; a single one without a window.
      ensures r.wakeTimeout > 0 ==> |results| <= Intervals(r.wakeTimeout, retryInterval) + 1
      ensures r.wakeTimeout > 0 ==> |results| <= Intervals(handlerDeadline - old(now), retryInterval) + 1
      ensures r.wakeTimeout <= 0 ==> |results| <= 1
      ensures forall i :: 0 <= i < |results| - 1 ==> results[i] == Transient
      // Exactly one release when the last answer says the worker cannot come back, else none.
      ensures results != [] && results[|results| - 1] in {WorkspaceMissing, UnknownWorker} ==>
        releases == old(releases) + [r.id] && recentClaims == old(recentClaims) - {r.id}
      ensures results == [] || results[|results| - 1] in {Woken, Transient} ==>
        releases == old(releases) && recentClaims == old(recentClaims)
      // It gives up on a transient failure only when the window or the handler's time is over.
      ensures results != [] && r.wakeTimeout > 0 && results[|results| - 1] == Transient ==>
        now >= old(now) + r.wakeTimeout || now >= handlerDeadline
    {
      hide Intervals, Answers, Retries;
      if !Owns(r.worker) || "wake:" + r.worker in inflight {
        return [], inflight;
      }
      inflight := inflight + {"wake:" + r.worker};
      guards := inflight;
      ghost var start := now;
      results := Retry(r.wakeTimeout, Deadline(now, r.wakeTimeout, handlerDeadline));
      if r.wakeTimeout > 0 { AttemptsFit(|results|, start, r.wakeTimeout, handlerDeadline, retryInterval); }
      if Gone(results[|results| - 1]) {
        Release(r.id);
      }
      inflight := inflight - {"wake:" + r.worker};
    }
  }

  /** `k` intervals in a row. */
  function Span(k: int, interval: int): int { k * interval }

  lemma SpanNext(k: int, interval: int)
    ensures Span(k + 1, interval) == Span(k, interval) + interval
  {
  }

  /** Attempts are an interval apart, and the sleep before each retry began inside the window. */
  lemma AttemptsBound(k: nat, length: int, interval: int)
    requires interval > 0 && k >= 1 && length >= 0 && (k >= 2 ==> Span(k - 2, interval) < length)
    ensures k <= Intervals(length, interval) + 1
  {
    var n := Intervals(length, interval);
    assert Span(n, interval) == n * interval;
    hide Intervals;
    if k - 2 >= n { SpanGrows(n, k - 2, interval); }
  }

  lemma SpanGrows(j: int, k: int, interval: int)
    requires j <= k && interval > 0
    ensures Span(j, interval) <= Span(k, interval)
  {
    assert (k - j) * interval >= 0;
  }

  /** The bound is reached: a window of five, an interval of two, and a handler that is
      held before its last select until timer and deadline have both passed, and takes the timer. */
  method LateSleeper() returns (results: seq<Result>)
    ensures |results| == Intervals(5, 2) + 1 && forall r :: r in results ==> r == Transient
  {
    var c := new Controller("cc", 2, 0, _ => Transient, _ => 0, _ => 0,
      n => if n == 5 then 10 else 0, _ => 0, _ => true);
    assert c.Answers(14, 6, 5, 5) == [Transient];
    assert c.Slept(4, 5, 2, 5) == (true, 14) && c.Answers(4, 4, 5, 5) == [Transient] + c.Answers(14, 6, 5, 5);
    assert c.Slept(2, 3, 2, 5) == (true, 4) && c.Answers(2, 2, 5, 5) == [Transient] + c.Answers(4, 4, 5, 5);
    assert c.Slept(0, 1, 2, 5) == (true, 2) && c.Answers(0, 0, 5, 5) == [Transient] + c.Answers(2, 2, 5, 5);
    results := c.Retry(5, 5);
  }
}
