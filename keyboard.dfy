/**
 * Keyboard control: turning a hyphen-delimited token into one injector call,
 * pressing a list of keys in order, and pressing and holding one key.
 */
module Keyboard {
  import opened Effects

  /** The separator between the keys of a chord. */
  const Separator: char := '-'

  /** The number of occurrences of `c` in `s` (Python's `s.count(c)`). */
  function Count(s: string, c: char): nat
  {
    if s == [] then 0 else (if s[0] == c then 1 else 0) + Count(s[1..], c)
  }

  /** The pieces joined back together with `sep` between them (Python's `sep.join(parts)`). */
  function Join(parts: seq<string>, sep: char): string
    requires |parts| >= 1
  {
    if |parts| == 1 then parts[0] else parts[0] + [sep] + Join(parts[1..], sep)
  }

  /**
   * Python's `s.split(sep)` for a one-character separator: the text between
   * consecutive separators, empty pieces included.
   */
  function Split(s: string, sep: char): (parts: seq<string>)
    ensures |parts| == Count(s, sep) + 1
    ensures Join(parts, sep) == s
    ensures forall k :: 0 <= k < |parts| ==> sep !in parts[k]
  {
    if s == [] then [""]
    else
      var rest := Split(s[1..], sep);
      if s[0] == sep then [""] + rest
      else
        var parts := [[s[0]] + rest[0]] + rest[1..];
        assert parts[1..] == rest[1..];
        parts
  }

  lemma SplitWithoutSeparator(s: string, sep: char)
    requires sep !in s
    ensures Split(s, sep) == [s]
  {
  }

  lemma {:induction false} SplitAfterPiece(a: string, rest: string, sep: char)
    requires sep !in a
    ensures Split(a + [sep] + rest, sep) == [a] + Split(rest, sep)
    decreases |a|
  {
    if a == [] {
      assert a + [sep] + rest == [sep] + rest;
      assert ([sep] + rest)[1..] == rest;
    } else {
      assert (a + [sep] + rest)[1..] == a[1..] + [sep] + rest;
      SplitAfterPiece(a[1..], rest, sep);
      assert [a[0]] + a[1..] == a;
    }
  }

  /**
   * Splitting is the inverse of joining: pieces that contain no separator
   * are given back exactly, in order, empty pieces included.
   */
  lemma {:induction false} SplitJoin(parts: seq<string>, sep: char)
    requires |parts| >= 1
    requires forall k :: 0 <= k < |parts| ==> sep !in parts[k]
    ensures Split(Join(parts, sep), sep) == parts
    decreases |parts|
  {
    if |parts| == 1 {
      SplitWithoutSeparator(parts[0], sep);
    } else {
      SplitJoin(parts[1..], sep);
      SplitAfterPiece(parts[0], Join(parts[1..], sep), sep);
      assert [parts[0]] + parts[1..] == parts;
    }
  }

  /**
   * The single injector call `press_button_combination` makes for `token`:
   * a chord of the pieces between hyphens when the token has one, otherwise
   * a press of the token itself.  Key names are never altered.
   */
  function Combination(token: string): (e: Event)
    ensures Separator in token ==> e.Hotkey? && |e.keys| == Count(token, Separator) + 1
    ensures Separator in token ==> Join(e.keys, Separator) == token
    ensures Separator in token ==> forall k :: 0 <= k < |e.keys| ==> Separator !in e.keys[k]
    ensures Separator !in token ==> e == Press(token, InjectorDefault)
  {
    if Separator in token then Hotkey(Split(token, Separator)) else Press(token, InjectorDefault)
  }

  /** A chord built from hyphen-free keys is a chord of exactly those keys. */
  lemma CombinationOfJoin(keys: seq<Key>)
    requires |keys| >= 2
    requires forall k :: 0 <= k < |keys| ==> Separator !in keys[k]
    ensures Combination(Join(keys, Separator)) == Hotkey(keys)
  {
    SplitJoin(keys, Separator);
    assert Join(keys, Separator) == keys[0] + [Separator] + Join(keys[1..], Separator);
    assert Join(keys, Separator)[|keys[0]|] == Separator;
  }

  /** `press_button_combination(token)`: one chord or one single press. */
  method PressButtonCombination(d: Desktop, token: string) returns (outcome: Outcome)
    modifies d
    ensures Produced(Perform([Combination(token)], old(d.calls), d.faults), old(d.trace), d.trace, d.calls, outcome)
  {
    if Separator in token {
      var keys := Split(token, Separator);
      outcome := d.Call(Hotkey(keys));
    } else {
      outcome := d.Call(Press(token, InjectorDefault));
    }
  }

  /** The default `interval` of `press_sequence`, 0.05 seconds. */
  const DefaultSequenceInterval: nat := 50

  /** The presses `press_sequence(keys, interval)` asks for: one per key, in list order. */
  function SequenceSteps(keys: seq<Key>, interval: nat): (steps: seq<Event>)
  {
    seq(|keys|, i requires 0 <= i < |keys| => Press(keys[i], Millis(interval)))
  }

  /**
   * The presses for a list are the presses for any split of it, one after
   * the other: one press per key, in list order, and none for an empty list.
   */
  lemma SequenceStepsAppend(a: seq<Key>, b: seq<Key>, interval: nat)
    ensures SequenceSteps(a + b, interval) == SequenceSteps(a, interval) + SequenceSteps(b, interval)
    ensures SequenceSteps([], interval) == []
  {
  }

  /** `press_sequence(keys, interval)`: presses each key in turn; the first press that raises ends it. */
  method PressSequence(d: Desktop, keys: seq<Key>, interval: nat := DefaultSequenceInterval) returns (outcome: Outcome)
    modifies d
    ensures Produced(Perform(SequenceSteps(keys, interval), old(d.calls), d.faults), old(d.trace), d.trace, d.calls, outcome)
  {
    outcome := Completed;
    for i := 0 to |keys|
      invariant outcome == Completed
      invariant Produced(Perform(SequenceSteps(keys[..i], interval), old(d.calls), d.faults), old(d.trace), d.trace, d.calls, outcome)
    {
      ghost var trace1, calls1 := d.trace, d.calls;
      var press := Press(keys[i], Millis(interval));
      outcome := d.Call(press);
      Extend(SequenceSteps(keys[..i], interval), [press], old(d.calls), d.faults, old(d.trace), trace1, calls1, d.trace, d.calls, outcome);
      assert SequenceSteps(keys[..i + 1], interval) == SequenceSteps(keys[..i], interval) + [press];
      if outcome.Raised? {
        Stop(SequenceSteps(keys[..i + 1], interval), SequenceSteps(keys[i + 1..], interval), old(d.calls), d.faults, old(d.trace), d.trace, d.calls, outcome.error);
        assert SequenceSteps(keys, interval) == SequenceSteps(keys[..i + 1], interval) + SequenceSteps(keys[i + 1..], interval);
        return;
      }
    }
    assert keys[..|keys|] == keys;
  }

  /** The effects `press_and_hold(key, duration)` asks for. */
  function HoldSteps(key: Key, duration: nat): seq<Event>
  {
    [KeyDown(key), Sleep(duration), KeyUp(key)]
  }

  /**
   * What `press_and_hold(key, duration)` does: the three steps for a
   * non-negative duration; for a negative one the key goes down, the sleep
   * raises and the key is never released.
   */
  function HoldRun(key: Key, duration: int, calls: nat, faults: set<nat>): Run
  {
    if duration >= 0 then Perform(HoldSteps(key, duration as nat), calls, faults)
    else
      var down := Perform([KeyDown(key)], calls, faults);
      if down.outcome.Raised? then down else Run(down.emitted, Raised(NegativeSleep), down.calls)
  }

  /** Without a fault, a non-negative hold emits exactly key down, the wait and key up. */
  lemma HoldWithoutFault(key: Key, duration: nat, calls: nat, faults: set<nat>)
    requires calls !in faults && calls + 1 !in faults
    ensures HoldRun(key, duration, calls, faults) == Run([KeyDown(key), Sleep(duration), KeyUp(key)], Completed, calls + 2)
  {
    var steps := HoldSteps(key, duration);
    assert steps[1..] == [Sleep(duration), KeyUp(key)];
    assert steps[1..][1..] == [KeyUp(key)];
    assert Perform([KeyUp(key)], calls + 1, faults) == Run([KeyUp(key)], Completed, calls + 2) by {
      assert [KeyUp(key)][1..] == [];
    }
    assert Perform(steps[1..], calls + 1, faults) == Run([Sleep(duration), KeyUp(key)], Completed, calls + 2);
  }

  /**
   * A negative duration leaves the key held: only `KeyDown` is emitted, one
   * call is made, and the sleep's `ValueError` is raised.
   */
  lemma NegativeHoldLeavesKeyDown(key: Key, duration: int, calls: nat, faults: set<nat>)
    requires duration < 0 && calls !in faults
    ensures HoldRun(key, duration, calls, faults) == Run([KeyDown(key)], Raised(NegativeSleep), calls + 1)
  {
    assert Perform([KeyDown(key)], calls, faults) == Run([KeyDown(key)], Completed, calls + 1) by {
      assert [KeyDown(key)][1..] == [];
    }
  }

  /** `press_and_hold(key, duration)`: key down, wait, key up. */
  method PressAndHold(d: Desktop, key: Key, duration: int) returns (outcome: Outcome)
    modifies d
    ensures Produced(HoldRun(key, duration, old(d.calls), d.faults), old(d.trace), d.trace, d.calls, outcome)
  {
    ghost var trace0, calls0 := d.trace, d.calls;
    outcome := d.Call(KeyDown(key));
    if outcome.Raised? {
      if duration >= 0 {
        ghost var chunks := [[KeyDown(key)], [Sleep(duration as nat)], [KeyUp(key)]];
        HoldChunks(key, duration as nat);
        assert chunks[..0] == [];
        ChunkDone(chunks, 0, calls0, d.faults, trace0, trace0, calls0, d.trace, d.calls, outcome);
      }
      return;
    }
    ghost var trace1, calls1 := d.trace, d.calls;
    outcome := d.Wait(duration);
    if outcome.Raised? {
      return;
    }
    ghost var chunks := [[KeyDown(key)], [Sleep(duration as nat)], [KeyUp(key)]];
    HoldChunks(key, duration as nat);
    assert chunks[..0] == [];
    ChunkDone(chunks, 0, calls0, d.faults, trace0, trace0, calls0, trace1, calls1, Completed);
    ChunkDone(chunks, 1, calls0, d.faults, trace0, trace1, calls1, d.trace, d.calls, Completed);
    ghost var trace2, calls2 := d.trace, d.calls;
    outcome := d.Call(KeyUp(key));
    ChunkDone(chunks, 2, calls0, d.faults, trace0, trace2, calls2, d.trace, d.calls, outcome);
  }

  /** The hold steps, one chunk per statement of `press_and_hold`. */
  lemma HoldChunks(key: Key, duration: nat)
    ensures Flatten([[KeyDown(key)], [Sleep(duration)], [KeyUp(key)]]) == HoldSteps(key, duration)
  {
    var chunks := [[KeyDown(key)], [Sleep(duration)], [KeyUp(key)]];
    assert Flatten(chunks[2..]) == [KeyUp(key)] by { assert chunks[2..][1..] == []; }
    assert Flatten(chunks[1..]) == [Sleep(duration), KeyUp(key)] by { assert chunks[1..][1..] == chunks[2..]; }
  }
}
