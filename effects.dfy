/**
 * The outside world the remote-control app drives: the key injector
 * (`pyautogui`), the clock (`time.sleep`), the subprocess runner and the web
 * browser.  None of them is modelled beyond the events it is asked to
 * perform.  Every effect except a sleep goes through a foreign call that may
 * raise; which call raises is decided by an oracle, a set of call numbers.
 */
module Effects {

  /** A key name exactly as it is handed to the injector: never normalised. */
  type Key = string

  /** The `interval` argument of `pyautogui.press`; `InjectorDefault` when the caller passes none. */
  datatype Interval = InjectorDefault | Millis(ms: nat)

  /** One effect, in the order the program asks for it. */
  datatype Event =
    | Hotkey(keys: seq<Key>)                  // pyautogui.hotkey(*keys)
    | Press(key: Key, interval: Interval)     // pyautogui.press(key[, interval])
    | KeyDown(key: Key)                       // pyautogui.keyDown(key)
    | KeyUp(key: Key)                         // pyautogui.keyUp(key)
    | Sleep(ms: nat)                          // time.sleep(ms / 1000)
    | RunCommand(argv: seq<string>, shell: bool)  // subprocess.run(argv, shell=shell)
    | OpenUrl(url: string)                    // webbrowser.open(url) on a new thread

  /** The exceptions a handler can re-raise. */
  datatype Error =
    | EffectFailure            // whatever a foreign call raised
    | ValueError(message: string)

  datatype Outcome = Completed | Raised(error: Error)

  /** What `time.sleep` raises for a negative length. */
  const NegativeSleep: Error := ValueError("sleep length must be non-negative")

  /** Every event except a sleep is a foreign call that may raise. */
  predicate IsCall(e: Event) { !e.Sleep? }

  /** The result of performing a list of events: what was emitted, how it ended, and the call counter afterwards. */
  datatype Run = Run(emitted: seq<Event>, outcome: Outcome, calls: nat)

  /** The number of foreign calls among `steps`. */
  function CallsIn(steps: seq<Event>): nat
  {
    if steps == [] then 0 else (if IsCall(steps[0]) then 1 else 0) + CallsIn(steps[1..])
  }

  lemma {:induction false} CallsInAppend(a: seq<Event>, b: seq<Event>)
    ensures CallsIn(a + b) == CallsIn(a) + CallsIn(b)
    decreases |a|
  {
    if a == [] {
      assert a + b == b;
    } else {
      assert (a + b)[1..] == a[1..] + b;
      CallsInAppend(a[1..], b);
    }
  }

  /**
   * Performing `steps` in order when `calls` foreign calls have been made so
   * far and call number `n` raises exactly when `n in faults`.  A raising call
   * emits nothing and ends the run; later steps are never attempted.
   */
  function Perform(steps: seq<Event>, calls: nat, faults: set<nat>): Run
    decreases |steps|
  {
    if steps == [] then Run([], Completed, calls)
    else if IsCall(steps[0]) && calls in faults then Run([], Raised(EffectFailure), calls + 1)
    else
      var rest := Perform(steps[1..], if IsCall(steps[0]) then calls + 1 else calls, faults);
      Run([steps[0]] + rest.emitted, rest.outcome, rest.calls)
  }

  /**
   * A run that completes emitted every step and made one call per foreign
   * call among them; a run that raises re-raises the call's failure after
   * emitting a proper prefix of the steps.
   */
  lemma {:induction false} PerformShape(steps: seq<Event>, calls: nat, faults: set<nat>)
    ensures Perform(steps, calls, faults).outcome.Completed? ==>
      Perform(steps, calls, faults).emitted == steps && Perform(steps, calls, faults).calls == calls + CallsIn(steps)
    ensures Perform(steps, calls, faults).outcome.Raised? ==>
      Perform(steps, calls, faults).outcome.error == EffectFailure &&
      |Perform(steps, calls, faults).emitted| < |steps| &&
      Perform(steps, calls, faults).emitted == steps[..|Perform(steps, calls, faults).emitted|]
    decreases |steps|
  {
    if steps != [] && !(IsCall(steps[0]) && calls in faults) {
      var next := if IsCall(steps[0]) then calls + 1 else calls;
      PerformShape(steps[1..], next, faults);
      var rest := Perform(steps[1..], next, faults);
      assert Perform(steps, calls, faults) == Run([steps[0]] + rest.emitted, rest.outcome, rest.calls);
      if rest.outcome.Completed? {
        assert [steps[0]] + steps[1..] == steps;
      } else {
        assert [steps[0]] + steps[1..][..|rest.emitted|] == steps[..1 + |rest.emitted|];
      }
    }
  }

  /** Step `i` of `steps` is a foreign call whose number is in `faults`. */
  ghost predicate FailsAt(steps: seq<Event>, i: nat, calls: nat, faults: set<nat>)
    requires i < |steps|
  {
    IsCall(steps[i]) && calls + CallsIn(steps[..i]) in faults
  }

  lemma CallsInCons(steps: seq<Event>, i: nat)
    requires 0 < |steps| && i < |steps|
    ensures CallsIn(steps[..i + 1]) == (if IsCall(steps[0]) then 1 else 0) + CallsIn(steps[1..][..i])
  {
    assert steps[..i + 1][1..] == steps[1..][..i];
  }

  /** Step `j + 1` fails exactly when step `j` of the rest fails, counting calls from after the first step. */
  lemma FailsAtInTail(steps: seq<Event>, calls: nat, faults: set<nat>, j: nat)
    requires j + 1 < |steps|
    ensures FailsAt(steps, j + 1, calls, faults) == FailsAt(steps[1..], j, if IsCall(steps[0]) then calls + 1 else calls, faults)
  {
    CallsInCons(steps, j);
    assert steps[1..][j] == steps[j + 1];
  }

  /** Without a failing step, every event is emitted and the run completes. */
  lemma {:induction false} PerformWithoutFault(steps: seq<Event>, calls: nat, faults: set<nat>)
    requires forall i: nat :: i < |steps| ==> !FailsAt(steps, i, calls, faults)
    ensures Perform(steps, calls, faults) == Run(steps, Completed, calls + CallsIn(steps))
    decreases |steps|
  {
    if steps != [] {
      var next := if IsCall(steps[0]) then calls + 1 else calls;
      assert !FailsAt(steps, 0, calls, faults);
      forall i: nat | i < |steps[1..]|
        ensures !FailsAt(steps[1..], i, next, faults)
      {
        FailsAtInTail(steps, calls, faults, i);
      }
      PerformWithoutFault(steps[1..], next, faults);
    }
  }

  /**
   * The run stops at the first failing step: the events before it are
   * emitted, nothing at or after it is, and the failure is re-raised.
   */
  lemma {:induction false} PerformStopsAtFirstFault(steps: seq<Event>, calls: nat, faults: set<nat>, i: nat)
    requires i < |steps| && FailsAt(steps, i, calls, faults)
    requires forall j: nat :: j < i ==> !FailsAt(steps, j, calls, faults)
    ensures Perform(steps, calls, faults) == Run(steps[..i], Raised(EffectFailure), calls + CallsIn(steps[..i]) + 1)
    decreases i
  {
    if i == 0 {
      assert steps[..0] == [];
    } else {
      var next := if IsCall(steps[0]) then calls + 1 else calls;
      assert !FailsAt(steps, 0, calls, faults);
      FailsAtInTail(steps, calls, faults, i - 1);
      forall j: nat | j < i - 1
        ensures !FailsAt(steps[1..], j, next, faults)
      {
        FailsAtInTail(steps, calls, faults, j);
      }
      PerformStopsAtFirstFault(steps[1..], next, faults, i - 1);
      assert steps[..i] == [steps[0]] + steps[1..][..i - 1];
      CallsInCons(steps, i - 1);
    }
  }

  /** Every step in the emitted prefix of a run went through without a fault. */
  lemma {:induction false} PerformPassesEmittedSteps(steps: seq<Event>, calls: nat, faults: set<nat>)
    ensures |Perform(steps, calls, faults).emitted| <= |steps|
    ensures forall j: nat :: j < |Perform(steps, calls, faults).emitted| ==> !FailsAt(steps, j, calls, faults)
    decreases |steps|
  {
    if steps != [] && !FailsAt(steps, 0, calls, faults) {
      var next := if IsCall(steps[0]) then calls + 1 else calls;
      var rest := Perform(steps[1..], next, faults);
      assert Perform(steps, calls, faults) == Run([steps[0]] + rest.emitted, rest.outcome, rest.calls);
      PerformPassesEmittedSteps(steps[1..], next, faults);
      forall j: nat | 0 < j < 1 + |rest.emitted|
        ensures !FailsAt(steps, j, calls, faults)
      {
        CallsInCons(steps, j - 1);
        assert !FailsAt(steps[1..], j - 1, next, faults);
      }
    } else if steps != [] {
      assert Perform(steps, calls, faults).emitted == [];
    }
  }

  /** A run that raises raised at the step right after its emitted prefix. */
  lemma {:induction false} PerformRaisesAtFirstUnemittedStep(steps: seq<Event>, calls: nat, faults: set<nat>)
    ensures Perform(steps, calls, faults).outcome.Raised? ==>
      |Perform(steps, calls, faults).emitted| < |steps| && FailsAt(steps, |Perform(steps, calls, faults).emitted|, calls, faults)
    decreases |steps|
  {
    PerformShape(steps, calls, faults);
    if steps != [] && !FailsAt(steps, 0, calls, faults) {
      var next := if IsCall(steps[0]) then calls + 1 else calls;
      var rest := Perform(steps[1..], next, faults);
      assert Perform(steps, calls, faults) == Run([steps[0]] + rest.emitted, rest.outcome, rest.calls);
      PerformRaisesAtFirstUnemittedStep(steps[1..], next, faults);
      if rest.outcome.Raised? {
        CallsInCons(steps, |rest.emitted|);
      }
    } else if steps != [] {
      assert steps[..0] == [];
    }
  }

  /** Continuing a run with `next`, unless it has already raised. */
  function Then(r: Run, next: seq<Event>, faults: set<nat>): Run
  {
    if r.outcome.Raised? then r
    else
      var s := Perform(next, r.calls, faults);
      Run(r.emitted + s.emitted, s.outcome, s.calls)
  }

  /** Performing `a + b` is performing `a`, then `b` only if `a` completed. */
  lemma {:induction false} PerformAppend(a: seq<Event>, b: seq<Event>, calls: nat, faults: set<nat>)
    ensures Perform(a + b, calls, faults) == Then(Perform(a, calls, faults), b, faults)
    decreases |a|
  {
    if a == [] {
      assert a + b == b;
    } else {
      assert (a + b)[1..] == a[1..] + b;
      var next := if IsCall(a[0]) then calls + 1 else calls;
      PerformAppend(a[1..], b, next, faults);
    }
  }

  /** `trace1`, `calls1` and `outcome` are what performing `r` left behind, starting from `trace0`. */
  ghost predicate Produced(r: Run, trace0: seq<Event>, trace1: seq<Event>, calls1: nat, outcome: Outcome)
  {
    trace1 == trace0 + r.emitted && calls1 == r.calls && outcome == r.outcome
  }

  /** Having performed `done` without a fault, performing `next` from there amounts to performing `done + next`. */
  lemma Extend(done: seq<Event>, next: seq<Event>, calls0: nat, faults: set<nat>,
               trace0: seq<Event>, trace1: seq<Event>, calls1: nat,
               trace2: seq<Event>, calls2: nat, outcome: Outcome)
    requires Produced(Perform(done, calls0, faults), trace0, trace1, calls1, Completed)
    requires Produced(Perform(next, calls1, faults), trace1, trace2, calls2, outcome)
    ensures Produced(Perform(done + next, calls0, faults), trace0, trace2, calls2, outcome)
  {
    var r, s := Perform(done, calls0, faults), Perform(next, calls1, faults);
    assert Perform(done + next, calls0, faults) == Run(r.emitted + s.emitted, s.outcome, s.calls) by {
      PerformAppend(done, next, calls0, faults);
    }
    assert trace2 == trace0 + (r.emitted + s.emitted);
  }

  /** Once `done` has raised, whatever was meant to follow it never happens. */
  lemma Stop(done: seq<Event>, rest: seq<Event>, calls0: nat, faults: set<nat>,
             trace0: seq<Event>, trace1: seq<Event>, calls1: nat, error: Error)
    requires Produced(Perform(done, calls0, faults), trace0, trace1, calls1, Raised(error))
    ensures Produced(Perform(done + rest, calls0, faults), trace0, trace1, calls1, Raised(error))
  {
    PerformAppend(done, rest, calls0, faults);
  }

  /** The concatenation of `chunks`, in order. */
  function Flatten(chunks: seq<seq<Event>>): seq<Event>
  {
    if chunks == [] then [] else chunks[0] + Flatten(chunks[1..])
  }

  lemma {:induction false} FlattenSplit(chunks: seq<seq<Event>>, k: nat)
    requires k <= |chunks|
    ensures Flatten(chunks) == Flatten(chunks[..k]) + Flatten(chunks[k..])
    decreases k
  {
    if k == 0 {
      assert chunks[k..] == chunks;
    } else {
      FlattenSplit(chunks[1..], k - 1);
      assert chunks[..k][1..] == chunks[1..][..k - 1];
      assert chunks[1..][k - 1..] == chunks[k..];
    }
  }

  /**
   * One more chunk of a script has been performed, from the state after
   * `chunks[..k]`.  If it completed, the first `k + 1` chunks have been
   * performed; if it raised, or was the last chunk, the whole script has had
   * its effect.
   */
  lemma ChunkDone(chunks: seq<seq<Event>>, k: nat, calls0: nat, faults: set<nat>,
                  trace0: seq<Event>, trace1: seq<Event>, calls1: nat,
                  trace2: seq<Event>, calls2: nat, outcome: Outcome)
    requires k < |chunks|
    requires Produced(Perform(Flatten(chunks[..k]), calls0, faults), trace0, trace1, calls1, Completed)
    requires Produced(Perform(chunks[k], calls1, faults), trace1, trace2, calls2, outcome)
    ensures outcome.Completed? ==> Produced(Perform(Flatten(chunks[..k + 1]), calls0, faults), trace0, trace2, calls2, outcome)
    ensures outcome.Raised? || k + 1 == |chunks| ==> Produced(Perform(Flatten(chunks), calls0, faults), trace0, trace2, calls2, outcome)
  {
    var prefix := chunks[..k + 1];
    FlattenSplit(prefix, k);
    assert prefix[..k] == chunks[..k];
    assert Flatten(prefix[k..]) == chunks[k] by {
      assert prefix[k..] == [chunks[k]];
      assert prefix[k..][1..] == [];
    }
    Extend(Flatten(chunks[..k]), chunks[k], calls0, faults, trace0, trace1, calls1, trace2, calls2, outcome);
    if k + 1 == |chunks| {
      assert prefix == chunks;
    } else if outcome.Raised? {
      FlattenSplit(chunks, k + 1);
      Stop(Flatten(prefix), Flatten(chunks[k + 1..]), calls0, faults, trace0, trace2, calls2, outcome.error);
    }
  }

  /**
   * The desktop session the app injects into.  `trace` holds the effects that
   * took place, `calls` counts the foreign calls attempted; the oracle
   * `faults` and the exit code every subprocess reports are fixed.
   */
  class Desktop {
    var trace: seq<Event>
    var calls: nat
    const faults: set<nat>
    const exitCode: int

    constructor (faults: set<nat>, exitCode: int)
      ensures trace == [] && calls == 0
      ensures this.faults == faults && this.exitCode == exitCode
    {
      trace, calls := [], 0;
      this.faults, this.exitCode := faults, exitCode;
    }

    /** One foreign call: it raises exactly when its number is in `faults`, and only a call that returns is recorded. */
    method Call(e: Event) returns (outcome: Outcome)
      requires IsCall(e)
      modifies this
      ensures Produced(Perform([e], old(calls), faults), old(trace), trace, calls, outcome)
    {
      if calls in faults {
        outcome := Raised(EffectFailure);
      } else {
        outcome := Completed;
        trace := trace + [e];
      }
      calls := calls + 1;
    }

    /**
     * Starting a thread that makes the call `e`: the caller goes on at once
     * and never sees whether the call raises.
     */
    method Spawn(e: Event)
      requires IsCall(e)
      modifies this
      ensures trace == old(trace) + Perform([e], old(calls), faults).emitted
      ensures calls == old(calls) + 1
    {
      var outcome := Call(e);
    }

    /**
     * `time.sleep`: a non-negative length is waited out and never raises; a
     * negative one raises `ValueError` before anything happens.
     */
    method Wait(ms: int) returns (outcome: Outcome)
      modifies this
      ensures ms >= 0 ==> Produced(Perform([Sleep(ms as nat)], old(calls), faults), old(trace), trace, calls, outcome)
      ensures ms >= 0 ==> outcome == Completed
      ensures ms < 0 ==> trace == old(trace) && calls == old(calls) && outcome == Raised(NegativeSleep)
    {
      if ms < 0 {
        return Raised(NegativeSleep);
      }
      trace := trace + [Sleep(ms as nat)];
      outcome := Completed;
    }

    /** `subprocess.run`: raises when the process cannot be started, otherwise reports `exitCode`. */
    method RunProcess(argv: seq<string>, shell: bool) returns (outcome: Outcome, returncode: int)
      modifies this
      ensures Produced(Perform([RunCommand(argv, shell)], old(calls), faults), old(trace), trace, calls, outcome)
      ensures outcome.Completed? ==> returncode == exitCode
    {
      outcome := Call(RunCommand(argv, shell));
      returncode := exitCode;
    }
  }
}
