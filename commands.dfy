/**
 * System commands: the closed registry from command names to handlers, and
 * what each handler's `execute` does, as the effects it asks for in order.
 * A handler that meets a raising call stops there and re-raises.
 */
module Commands {
  import opened Wrappers
  import opened Effects
  import Keyboard

  /** The handler variants; `VolumeHandler` and `OpenWebsiteHandler` keep their constructor argument. */
  datatype Handler =
    | ShutdownHandler
    | SleepHandler
    | BsodHandler
    | VolumeHandler(direction: string)
    | OpenWebsiteHandler(site: string)
    | OpenCameraHandler

  /** The settings the handlers read: the site-to-URL table and the camera path. */
  datatype Config = Config(urls: map<string, string>, cameraPath: string)

  const DefaultConfig := Config(
    map["youtube" := "https://www.youtube.com", "spotify" := "https://open.spotify.com"],
    "C:\\Windows\\System32\\Camera.exe")

  /** The pause between the UI steps of the shutdown and sleep sequences, 0.2 seconds. */
  const SettleMillis: nat := 200

  /** The tokens the shutdown and sleep sequences press. */
  const MinimiseAll: string := "win-m"
  const CloseWindow: string := "alt-f4"
  const Confirm: string := "enter"

  /** How many times a volume key is pressed, and the interval between presses (0.01 seconds). */
  const VolumeRepeats: nat := 10
  const VolumeIntervalMillis: nat := 10

  // ---------------------------------------------------------------------------
  // Registry

  /** The names `get_command_handler` resolves. */
  const CommandNames: set<string> :=
    {"shutdown", "sleep", "bsod", "volume-up", "volume-down", "open-spotify", "open-youtube", "open-camera"}

  /** The table of handlers that take no argument (`_COMMAND_HANDLERS`). */
  const HandlerTable: map<string, Handler> :=
    map["shutdown" := ShutdownHandler, "sleep" := SleepHandler, "bsod" := BsodHandler]

  /**
   * `get_command_handler(command)`: the parameterised handlers by an exact
   * comparison, then the table; `None` for every other name.
   */
  function GetCommandHandler(command: string): (h: Option<Handler>)
    ensures h.None? <==> command !in CommandNames
  {
    if command == "volume-up" then Some(VolumeHandler("up"))
    else if command == "volume-down" then Some(VolumeHandler("down"))
    else if command == "open-spotify" then Some(OpenWebsiteHandler("spotify"))
    else if command == "open-youtube" then Some(OpenWebsiteHandler("youtube"))
    else if command == "open-camera" then Some(OpenCameraHandler)
    else if command in HandlerTable then Some(HandlerTable[command])
    else None
  }

  /** The command name a handler is registered under, if any. */
  function NameOf(h: Handler): Option<string>
  {
    match h
    case ShutdownHandler => Some("shutdown")
    case SleepHandler => Some("sleep")
    case BsodHandler => Some("bsod")
    case VolumeHandler(direction) =>
      if direction == "up" then Some("volume-up")
      else if direction == "down" then Some("volume-down")
      else None
    case OpenWebsiteHandler(site) =>
      if site == "spotify" then Some("open-spotify")
      else if site == "youtube" then Some("open-youtube")
      else None
    case OpenCameraHandler => Some("open-camera")
  }

  /**
   * The registry is exactly the table of names: a name resolves to a handler
   * if and only if that handler is registered under that very name.
   */
  lemma RegistryMatchesNames(command: string, h: Handler)
    ensures GetCommandHandler(command) == Some(h) <==> NameOf(h) == Some(command)
  {
  }

  // ---------------------------------------------------------------------------
  // What each handler asks for.  A script is a list of chunks performed in
  // order.  The four statements the shutdown and sleep handlers both begin
  // with form one chunk, `Opening`; every other statement of a handler's
  // `execute` is a chunk of its own.

  /** `[x] * n` */
  function Repeat<T>(x: T, n: nat): (r: seq<T>)
    ensures |r| == n
    ensures forall i :: 0 <= i < n ==> r[i] == x
  {
    if n == 0 then [] else Repeat(x, n - 1) + [x]
  }

  lemma {:induction false} CallsInRepeat(e: Event, n: nat)
    requires IsCall(e)
    ensures CallsIn(Repeat(e, n)) == n
  {
    if n > 0 {
      CallsInRepeat(e, n - 1);
      CallsInAppend(Repeat(e, n - 1), [e]);
    }
  }

  /**
   * What a handler's `execute` asks for: a script of effects performed in
   * order, a single call handed to a
   * thread of its own, or the rejection of its argument before any effect.
   */
  datatype Plan =
    | Script(chunks: seq<seq<Event>>)
    | Detached(call: Event)
    | Rejected(error: Error)

  /** The four effects both the shutdown and the sleep sequence begin with. */
  const Opening: seq<Event> :=
    [Hotkey(["win", "m"]), Sleep(SettleMillis), Hotkey(["alt", "f4"]), Sleep(SettleMillis)]

  const ConfirmEvent: Event := Press("enter", InjectorDefault)

  function ShutdownScript(): seq<seq<Event>>
  {
    [Opening, [ConfirmEvent]]
  }

  function SleepScript(): seq<seq<Event>>
  {
    [Opening,
     Repeat(Press("down", Millis(Keyboard.DefaultSequenceInterval)), 5),
     Repeat(Press("up", Millis(Keyboard.DefaultSequenceInterval)), 2),
     [ConfirmEvent]]
  }

  const BsodCommand: seq<string> := ["bsod"]

  function BsodScript(): seq<seq<Event>>
  {
    [[RunCommand(BsodCommand, false)]]
  }

  /** The media key for a direction: anything but "up" turns the volume down. */
  function VolumeKey(direction: string): Key
  {
    if direction == "up" then "volumeup" else "volumedown"
  }

  function VolumeScript(direction: string): seq<seq<Event>>
  {
    [Repeat(Press(VolumeKey(direction), Millis(VolumeIntervalMillis)), VolumeRepeats)]
  }

  function CameraCommand(cfg: Config): seq<string>
  {
    ["start", "microsoft.windows.camera:", cfg.cameraPath]
  }

  function CameraScript(cfg: Config): seq<seq<Event>>
  {
    [[RunCommand(CameraCommand(cfg), true)]]
  }

  function UnknownWebsite(site: string): Error
  {
    ValueError("Unknown website: " + site)
  }

  function PlanOf(h: Handler, cfg: Config): Plan
  {
    match h
    case ShutdownHandler => Script(ShutdownScript())
    case SleepHandler => Script(SleepScript())
    case BsodHandler => Script(BsodScript())
    case VolumeHandler(direction) => Script(VolumeScript(direction))
    case OpenWebsiteHandler(site) =>
      if site in cfg.urls then Detached(OpenUrl(cfg.urls[site])) else Rejected(UnknownWebsite(site))
    case OpenCameraHandler => Script(CameraScript(cfg))
  }

  /** What `execute` does from a state where `calls` foreign calls have been made. */
  function Expected(h: Handler, cfg: Config, calls: nat, faults: set<nat>): Run
  {
    match PlanOf(h, cfg)
    case Script(chunks) => Perform(Flatten(chunks), calls, faults)
    case Detached(call) => Run(Perform([call], calls, faults).emitted, Completed, calls + 1)
    case Rejected(error) => Run([], Raised(error), calls)
  }

  // ---------------------------------------------------------------------------
  // The tokens the shutdown and sleep sequences press

  lemma ChordOf(a: Key, b: Key)
    requires |a| > 0 && |b| > 0 && Keyboard.Separator !in a && Keyboard.Separator !in b
    ensures Keyboard.Combination(a + "-" + b) == Hotkey([a, b])
  {
    var keys := [a, b];
    assert Keyboard.Join(keys[1..], Keyboard.Separator) == b;
    assert Keyboard.Join(keys, Keyboard.Separator) == a + "-" + b;
    Keyboard.CombinationOfJoin(keys);
  }

  /** "win-m" is the chord win+m (minimise all windows). */
  lemma MinimiseAllChord()
    ensures Keyboard.Combination(MinimiseAll) == Hotkey(["win", "m"])
  {
    ChordOf("win", "m");
    assert "win" + "-" + "m" == MinimiseAll;
  }

  /** "alt-f4" is the chord alt+f4 (close the window, or on the bare desktop open the shutdown dialog). */
  lemma CloseChord()
    ensures Keyboard.Combination(CloseWindow) == Hotkey(["alt", "f4"])
  {
    ChordOf("alt", "f4");
    assert "alt" + "-" + "f4" == CloseWindow;
  }

  /** "enter" has no hyphen, so it is a single press. */
  lemma ConfirmPress()
    ensures Keyboard.Combination(Confirm) == ConfirmEvent
  {
  }

  lemma SequenceOfRepeat(key: Key, n: nat, interval: nat)
    ensures Keyboard.SequenceSteps(Repeat(key, n), interval) == Repeat(Press(key, Millis(interval)), n)
  {
  }

  // ---------------------------------------------------------------------------
  // Properties of the handlers

  /** The opening makes two foreign calls; its sleeps are not calls. */
  lemma OpeningCalls()
    ensures CallsIn(Opening) == 2
  {
    var o := Opening;
    assert CallsIn(o[3..]) == 0 by { assert o[3..][1..] == []; }
    assert CallsIn(o[2..]) == 1 + CallsIn(o[3..]) by { assert o[2..][1..] == o[3..]; }
    assert CallsIn(o[1..]) == CallsIn(o[2..]) by { assert o[1..][1..] == o[2..]; }
  }

  /** Shutdown: minimise all, wait, close, wait, confirm; nothing else, in that order. */
  lemma ShutdownEvents(cfg: Config, calls: nat)
    ensures Expected(ShutdownHandler, cfg, calls, {}) ==
      Run([Hotkey(["win", "m"]), Sleep(200), Hotkey(["alt", "f4"]), Sleep(200), Press("enter", InjectorDefault)], Completed, calls + 3)
  {
    var c := ShutdownScript();
    assert Flatten(c[1..]) == [ConfirmEvent] by { assert c[1..][1..] == []; }
    PerformWithoutFault(Flatten(c), calls, {});
    CallsInAppend(Opening, [ConfirmEvent]);
    OpeningCalls();
    assert CallsIn([ConfirmEvent]) == 1;
  }

  /**
   * Sleep: the same opening as shutdown, then exactly five presses of `down`,
   * two of `up` and one `enter`, in that order.
   */
  lemma SleepEvents(cfg: Config, calls: nat)
    ensures Expected(SleepHandler, cfg, calls, {}) ==
      Run(Opening + Repeat(Press("down", Millis(50)), 5) + Repeat(Press("up", Millis(50)), 2) + [Press("enter", InjectorDefault)],
          Completed, calls + 10)
  {
    var c := SleepScript();
    assert Flatten(c[3..]) == [ConfirmEvent] by { assert c[3..][1..] == []; }
    assert Flatten(c[2..]) == c[2] + Flatten(c[3..]) by { assert c[2..][1..] == c[3..]; }
    assert Flatten(c[1..]) == c[1] + Flatten(c[2..]) by { assert c[1..][1..] == c[2..]; }
    var events := Opening + c[1] + c[2] + [ConfirmEvent];
    assert Flatten(c) == events;
    PerformWithoutFault(events, calls, {});
    CallsInAppend(Opening + c[1] + c[2], [ConfirmEvent]);
    CallsInAppend(Opening + c[1], c[2]);
    CallsInAppend(Opening, c[1]);
    CallsInRepeat(Press("down", Millis(50)), 5);
    CallsInRepeat(Press("up", Millis(50)), 2);
    OpeningCalls();
    assert CallsIn([ConfirmEvent]) == 1;
  }

  /** Volume: exactly ten presses 10 ms apart, of `volumeup` for "up" and of `volumedown` for any other direction. */
  lemma VolumeEvents(cfg: Config, direction: string, calls: nat)
    ensures Expected(VolumeHandler(direction), cfg, calls, {}) ==
      Run(Repeat(Press(if direction == "up" then "volumeup" else "volumedown", Millis(10)), 10), Completed, calls + 10)
  {
    var c := VolumeScript(direction);
    assert Flatten(c) == c[0] by { assert c[1..] == []; }
    PerformWithoutFault(c[0], calls, {});
    CallsInRepeat(Press(VolumeKey(direction), Millis(VolumeIntervalMillis)), VolumeRepeats);
  }

  /** Opening a site missing from the table raises `ValueError` and opens nothing. */
  lemma UnknownWebsiteOpensNothing(site: string, cfg: Config, calls: nat, faults: set<nat>)
    requires site !in cfg.urls
    ensures Expected(OpenWebsiteHandler(site), cfg, calls, faults) == Run([], Raised(ValueError("Unknown website: " + site)), calls)
  {
  }

  /**
   * Opening a listed site makes exactly one browser call, with its URL, on a
   * thread of its own: the handler completes whether or not that call raises.
   */
  lemma KnownWebsiteOpensItsUrl(site: string, cfg: Config, calls: nat, faults: set<nat>)
    requires site in cfg.urls
    ensures Expected(OpenWebsiteHandler(site), cfg, calls, faults) ==
      Run(if calls in faults then [] else [OpenUrl(cfg.urls[site])], Completed, calls + 1)
  {
    var e := OpenUrl(cfg.urls[site]);
    assert [e][1..] == [];
    assert [e] + [] == [e];
    assert PlanOf(OpenWebsiteHandler(site), cfg) == Detached(e);
    assert IsCall(e);
    if calls !in faults {
      assert Perform([e], calls, faults) == Run([e] + Perform([], calls + 1, faults).emitted, Completed, calls + 1);
    }
  }

  /** Under the default settings, `open-spotify` opens Spotify's web player and nothing else. */
  lemma DefaultSpotifyOpensPlayer(calls: nat, faults: set<nat>)
    requires calls !in faults
    ensures GetCommandHandler("open-spotify") == Some(OpenWebsiteHandler("spotify"))
    ensures Expected(OpenWebsiteHandler("spotify"), DefaultConfig, calls, faults) ==
      Run([OpenUrl("https://open.spotify.com")], Completed, calls + 1)
  {
  }

  /**
   * A handler whose effect number `i` is the first one to raise emits
   * exactly the effects before it and re-raises; nothing later happens.
   */
  lemma HandlerStopsAtFirstFault(h: Handler, cfg: Config, calls: nat, faults: set<nat>, i: nat)
    requires PlanOf(h, cfg).Script?
    requires i < |Flatten(PlanOf(h, cfg).chunks)|
    requires FailsAt(Flatten(PlanOf(h, cfg).chunks), i, calls, faults)
    requires forall j: nat :: j < i ==> !FailsAt(Flatten(PlanOf(h, cfg).chunks), j, calls, faults)
    ensures Expected(h, cfg, calls, faults).emitted == Flatten(PlanOf(h, cfg).chunks)[..i]
    ensures Expected(h, cfg, calls, faults).outcome == Raised(EffectFailure)
  {
    PerformStopsAtFirstFault(Flatten(PlanOf(h, cfg).chunks), calls, faults, i);
  }

  /** A handler none of whose calls raises performs its whole script and completes. */
  lemma HandlerCompletesWithoutFault(h: Handler, cfg: Config, calls: nat, faults: set<nat>)
    requires PlanOf(h, cfg).Script?
    requires forall j: nat :: j < |Flatten(PlanOf(h, cfg).chunks)| ==> !FailsAt(Flatten(PlanOf(h, cfg).chunks), j, calls, faults)
    ensures Expected(h, cfg, calls, faults).emitted == Flatten(PlanOf(h, cfg).chunks)
    ensures Expected(h, cfg, calls, faults).outcome == Completed
  {
    PerformWithoutFault(Flatten(PlanOf(h, cfg).chunks), calls, faults);
  }

  // ---------------------------------------------------------------------------
  // The statements of the shutdown and sleep sequences

  /** `press_button_combination("win-m")` */
  method PressMinimiseAll(d: Desktop) returns (outcome: Outcome)
    modifies d
    ensures Produced(Perform([Hotkey(["win", "m"])], old(d.calls), d.faults), old(d.trace), d.trace, d.calls, outcome)
  {
    outcome := Keyboard.PressButtonCombination(d, MinimiseAll);
    MinimiseAllChord();
  }

  /** `press_button_combination("alt-f4")` */
  method PressCloseWindow(d: Desktop) returns (outcome: Outcome)
    modifies d
    ensures Produced(Perform([Hotkey(["alt", "f4"])], old(d.calls), d.faults), old(d.trace), d.trace, d.calls, outcome)
  {
    outcome := Keyboard.PressButtonCombination(d, CloseWindow);
    CloseChord();
  }

  /** `press_button_combination("enter")` */
  method PressConfirm(d: Desktop) returns (outcome: Outcome)
    modifies d
    ensures Produced(Perform([ConfirmEvent], old(d.calls), d.faults), old(d.trace), d.trace, d.calls, outcome)
  {
    outcome := Keyboard.PressButtonCombination(d, Confirm);
    ConfirmPress();
  }

  /** `press_sequence([key] * n)`: `n` presses of `key` at the default interval. */
  method PressRepeatedly(d: Desktop, key: Key, n: nat) returns (outcome: Outcome)
    modifies d
    ensures Produced(Perform(Repeat(Press(key, Millis(Keyboard.DefaultSequenceInterval)), n), old(d.calls), d.faults),
                     old(d.trace), d.trace, d.calls, outcome)
  {
    outcome := Keyboard.PressSequence(d, Repeat(key, n));
    SequenceOfRepeat(key, n, Keyboard.DefaultSequenceInterval);
  }

  /** The four statements both sequences begin with: minimise all, wait, close, wait. */
  method PressOpening(d: Desktop) returns (outcome: Outcome)
    modifies d
    ensures Produced(Perform(Opening, old(d.calls), d.faults), old(d.trace), d.trace, d.calls, outcome)
  {
    ghost var c := [[Hotkey(["win", "m"])], [Sleep(SettleMillis)], [Hotkey(["alt", "f4"])], [Sleep(SettleMillis)]];
    assert Flatten(c) == Opening by {
      assert Flatten(c[3..]) == c[3] by { assert c[3..][1..] == []; }
      assert Flatten(c[2..]) == c[2] + Flatten(c[3..]) by { assert c[2..][1..] == c[3..]; }
      assert Flatten(c[1..]) == c[1] + Flatten(c[2..]) by { assert c[1..][1..] == c[2..]; }
    }
    ghost var trace0, calls0 := d.trace, d.calls;
    assert c[..0] == [];
    outcome := PressMinimiseAll(d);
    ChunkDone(c, 0, calls0, d.faults, trace0, trace0, calls0, d.trace, d.calls, outcome);
    if outcome.Raised? {
      return;
    }
    ghost var trace1, calls1 := d.trace, d.calls;
    var settled := d.Wait(SettleMillis);
    ChunkDone(c, 1, calls0, d.faults, trace0, trace1, calls1, d.trace, d.calls, Completed);
    ghost var trace2, calls2 := d.trace, d.calls;
    outcome := PressCloseWindow(d);
    ChunkDone(c, 2, calls0, d.faults, trace0, trace2, calls2, d.trace, d.calls, outcome);
    if outcome.Raised? {
      return;
    }
    ghost var trace3, calls3 := d.trace, d.calls;
    settled := d.Wait(SettleMillis);
    ChunkDone(c, 3, calls0, d.faults, trace0, trace3, calls3, d.trace, d.calls, Completed);
  }

  // ---------------------------------------------------------------------------
  // The handlers' `execute`

  method ExecuteShutdown(d: Desktop) returns (outcome: Outcome)
    modifies d
    ensures Produced(Perform(Flatten(ShutdownScript()), old(d.calls), d.faults), old(d.trace), d.trace, d.calls, outcome)
  {
    ghost var c := ShutdownScript();
    ghost var trace0, calls0 := d.trace, d.calls;
    assert c[..0] == [];
    outcome := PressOpening(d);
    ChunkDone(c, 0, calls0, d.faults, trace0, trace0, calls0, d.trace, d.calls, outcome);
    if outcome.Raised? {
      return;
    }
    ghost var trace1, calls1 := d.trace, d.calls;
    outcome := PressConfirm(d);
    ChunkDone(c, 1, calls0, d.faults, trace0, trace1, calls1, d.trace, d.calls, outcome);
  }

  method ExecuteSleep(d: Desktop) returns (outcome: Outcome)
    modifies d
    ensures Produced(Perform(Flatten(SleepScript()), old(d.calls), d.faults), old(d.trace), d.trace, d.calls, outcome)
  {
    ghost var c := SleepScript();
    ghost var trace0, calls0 := d.trace, d.calls;
    assert c[..0] == [];
    outcome := PressOpening(d);
    ChunkDone(c, 0, calls0, d.faults, trace0, trace0, calls0, d.trace, d.calls, outcome);
    if outcome.Raised? {
      return;
    }
    ghost var trace1, calls1 := d.trace, d.calls;
    outcome := PressRepeatedly(d, "down", 5);
    ChunkDone(c, 1, calls0, d.faults, trace0, trace1, calls1, d.trace, d.calls, outcome);
    if outcome.Raised? {
      return;
    }
    ghost var trace2, calls2 := d.trace, d.calls;
    outcome := PressRepeatedly(d, "up", 2);
    ChunkDone(c, 2, calls0, d.faults, trace0, trace2, calls2, d.trace, d.calls, outcome);
    if outcome.Raised? {
      return;
    }
    ghost var trace3, calls3 := d.trace, d.calls;
    outcome := PressConfirm(d);
    ChunkDone(c, 3, calls0, d.faults, trace0, trace3, calls3, d.trace, d.calls, outcome);
  }

  /**
   * Runs the `bsod` command.  A non-zero exit code is only logged: the
   * handler completes unless the process could not be started.
   */
  method ExecuteBsod(d: Desktop) returns (outcome: Outcome)
    modifies d
    ensures Produced(Perform(Flatten(BsodScript()), old(d.calls), d.faults), old(d.trace), d.trace, d.calls, outcome)
    ensures outcome == if old(d.calls) in d.faults then Raised(EffectFailure) else Completed
  {
    var returncode;
    outcome, returncode := d.RunProcess(BsodCommand, false);
    if outcome.Completed? && returncode != 0 {
      // the exit code and stderr are logged as a warning; the outcome is unchanged
    }
    assert Flatten(BsodScript()) == [RunCommand(BsodCommand, false)];
  }

  method ExecuteVolume(d: Desktop, direction: string) returns (outcome: Outcome)
    modifies d
    ensures Produced(Perform(Flatten(VolumeScript(direction)), old(d.calls), d.faults), old(d.trace), d.trace, d.calls, outcome)
  {
    var key := VolumeKey(direction);
    outcome := Keyboard.PressSequence(d, Repeat(key, VolumeRepeats), VolumeIntervalMillis);
    SequenceOfRepeat(key, VolumeRepeats, VolumeIntervalMillis);
    ghost var c := VolumeScript(direction);
    assert Flatten(c) == c[0] by { assert c[1..] == []; }
  }

  /** The browser call runs on a thread of its own, so its failure never reaches the handler. */
  method ExecuteOpenWebsite(d: Desktop, cfg: Config, site: string) returns (outcome: Outcome)
    modifies d
    ensures Produced(Expected(OpenWebsiteHandler(site), cfg, old(d.calls), d.faults), old(d.trace), d.trace, d.calls, outcome)
  {
    if site !in cfg.urls {
      outcome := Raised(UnknownWebsite(site));
      return;
    }
    d.Spawn(OpenUrl(cfg.urls[site]));
    outcome := Completed;
  }

  /** Starts the camera application; its exit code is not looked at. */
  method ExecuteOpenCamera(d: Desktop, cfg: Config) returns (outcome: Outcome)
    modifies d
    ensures Produced(Perform(Flatten(CameraScript(cfg)), old(d.calls), d.faults), old(d.trace), d.trace, d.calls, outcome)
  {
    var returncode;
    outcome, returncode := d.RunProcess(CameraCommand(cfg), true);
    assert Flatten(CameraScript(cfg)) == [RunCommand(CameraCommand(cfg), true)];
  }

  /** `handler.execute()` */
  method Execute(h: Handler, cfg: Config, d: Desktop) returns (outcome: Outcome)
    modifies d
    ensures Produced(Expected(h, cfg, old(d.calls), d.faults), old(d.trace), d.trace, d.calls, outcome)
  {
    match h
    case ShutdownHandler => outcome := ExecuteShutdown(d);
    case SleepHandler => outcome := ExecuteSleep(d);
    case BsodHandler => outcome := ExecuteBsod(d);
    case VolumeHandler(direction) => outcome := ExecuteVolume(d, direction);
    case OpenWebsiteHandler(site) => outcome := ExecuteOpenWebsite(d, cfg, site);
    case OpenCameraHandler => outcome := ExecuteOpenCamera(d, cfg);
  }
}
