# Remote-control desktop commands, modelled in Dafny

This project models the core of a small remote-control server for a Windows
desktop. A phone sends commands such as `shutdown`, `sleep` or `volume-up`. The
server looks up a handler for the command, and the handler drives the desktop
through a key injector (`pyautogui`), the clock, the web browser or a
subprocess.

The model has five modules:

- `Effects` (effects.dfy): the outside world as an append-only trace of
  events. `Hotkey`, `Press`, `KeyDown`, `KeyUp`, `Sleep`, `RunCommand` and
  `OpenUrl` are recorded in the order they are asked for. Every event except a
  sleep is a foreign call that may raise. Which calls raise is decided by a
  fault oracle, a set of call numbers fixed when the `Desktop` is created. A
  raising call records nothing. `Perform` is the reference semantics of a list
  of events: it stops at the first raising call and re-raises it. The
  `Desktop` class holds the trace and the call counter, and its methods
  update them in place.
- `Keyboard` (keyboard.dfy): `press_button_combination`, `press_sequence` and
  `press_and_hold`. A hyphenated token becomes one chord, split on every `-`.
  Any other token becomes one press of the token itself.
- `Commands` (commands.dfy): the closed registry `get_command_handler` and
  the `execute` of every handler. Most handlers have a script, a list of
  chunks of events performed in order. The four statements that the shutdown
  and sleep handlers both begin with form one chunk, and every other
  statement is a chunk of its own. Each `Execute…` method is proved to leave
  exactly the trace, call count and outcome that `Expected` gives for its
  handler. For a scripted handler that is the result of performing its
  script. `open-<site>` has no script: it rejects an unknown site, or hands
  one browser call to a thread of its own.
- `Security` (security.dfy): the accept/reject decision of `check_api_key`
  and the 401 error it raises.
- `System` (system.dfy): the pure part of `get_local_ip`. It covers Python's
  `splitlines`, the `"IPv4 Address" in line` filter, the choice of the last
  match, and `strip`.

The `/exec` route calls `handler.execute()` synchronously
(app/api.py:111), so an error from a handler reaches the route.

## Model

| member | source | states |
|---|---|---|
| Effects.PerformShape | app/services/commands.py:28-37 | A completed run emitted every step. A raised run re-raises the call's own failure after emitting a proper prefix of the steps. |
| Effects.PerformWithoutFault | app/services/commands.py:28-34 | When no call raises, every event is emitted in order and the run completes, having made one call per foreign call. |
| Effects.PerformStopsAtFirstFault | app/services/commands.py:35-37 | When call `i` is the first to raise, exactly the events before it are emitted, the failure is re-raised, and nothing after it is attempted. |
| Effects.PerformPassesEmittedSteps | app/services/commands.py:28-37 | Every emitted event passed without a fault. |
| Effects.PerformRaisesAtFirstUnemittedStep | app/services/commands.py:35-37 | A raised run failed at the event right after its emitted prefix. |
| Effects.PerformAppend | app/services/commands.py:28-37 | Performing `a + b` is performing `a`, then performing `b` only if `a` completed. |
| Effects.Desktop.Call | app/services/keyboard.py:25 | One injector call: it raises exactly when its number is in the oracle, and only a call that returns is recorded. |
| Effects.Desktop.Wait | app/services/commands.py:30 | `time.sleep` records a non-negative duration in milliseconds and completes. A negative duration raises `ValueError` and records nothing. |
| Effects.Desktop.Spawn | app/services/commands.py:108-111 | A call started on a thread of its own: the caller goes on and never sees whether the call raises. |
| Effects.Desktop.RunProcess | app/utils/system.py:40-62 | `run_system_command`: the process either cannot start, and the failure is re-raised, or it reports its exit code. |
| Keyboard.Split | app/services/keyboard.py:23 | `str.split("-")` returns count(`-`)+1 pieces, none containing `-`, that join back to the token. Empty pieces are kept. |
| Keyboard.SplitJoin | app/services/keyboard.py:23 | Splitting is the inverse of joining for hyphen-free pieces: they come back unchanged, in order. |
| Keyboard.Combination | app/services/keyboard.py:22-28 | A token with `-` becomes one `Hotkey` of count+1 keys that join back to the token. A token without `-` becomes one `Press` of the unchanged token at the injector's default interval. |
| Keyboard.CombinationOfJoin | app/services/keyboard.py:22-25 | A chord written as hyphen-free keys joined by `-` is a `Hotkey` of exactly those keys. |
| Keyboard.PressButtonCombination | app/services/keyboard.py:15-28 | Makes the single injector call `Combination(token)`: it is recorded if it returns, and raises otherwise. |
| Keyboard.SequenceStepsAppend | app/services/keyboard.py:38-39 | The presses for a list are one press per key, in list order. An empty list gives none. |
| Keyboard.PressSequence | app/services/keyboard.py:30-39 | One `Press(key, interval)` per key in list order, at 50 ms by default. The loop stops at the first press that raises and re-raises it. |
| Keyboard.HoldWithoutFault | app/services/keyboard.py:49-51 | Without a fault, a non-negative hold emits exactly `KeyDown k`, `Sleep d`, `KeyUp k`, with two calls. |
| Keyboard.NegativeHoldLeavesKeyDown | app/services/keyboard.py:49-51 | With a negative duration only `KeyDown k` is emitted, the sleep's `ValueError` is raised, and the key is never released. |
| Keyboard.PressAndHold | app/services/keyboard.py:41-51 | The trace, call count and outcome are those of `HoldRun`: key down, wait, key up, stopping at the first call or sleep that raises. |
| Commands.GetCommandHandler | app/services/commands.py:137-162 | The result is `None` exactly for names outside the eight command names. The match is exact and case-sensitive. |
| Commands.RegistryMatchesNames | app/services/commands.py:131-162 | A name resolves to a handler if and only if that handler is registered under that name, e.g. `volume-up` to `VolumeHandler("up")` and `open-spotify` to `OpenWebsiteHandler("spotify")`. |
| Commands.MinimiseAllChord | app/services/commands.py:29 | `"win-m"` is the chord win+m. |
| Commands.CloseChord | app/services/commands.py:31 | `"alt-f4"` is the chord alt+f4. |
| Commands.ConfirmPress | app/services/commands.py:33 | `"enter"` is a single press. |
| Commands.OpeningCalls | app/services/commands.py:29-32 | The shared opening makes two foreign calls, because its two sleeps are not calls. |
| Commands.ShutdownEvents | app/services/commands.py:27-37 | Without faults, shutdown emits exactly `Hotkey[win,m]`, `Sleep 200`, `Hotkey[alt,f4]`, `Sleep 200`, `Press enter`, in that order, with three calls. |
| Commands.SleepEvents | app/services/commands.py:42-55 | Without faults, sleep emits the shutdown opening, then exactly 5 `down`, 2 `up` and one `enter`, with ten calls. |
| Commands.VolumeEvents | app/services/commands.py:82-89 | Without faults, volume emits exactly 10 presses 10 ms apart: `volumeup` for `"up"`, `volumedown` for any other direction. |
| Commands.DefaultSpotifyOpensPlayer | app/utils/config.py:20-23 | Under the default settings, `open-spotify` makes the one browser call `https://open.spotify.com` and completes. |
| Commands.UnknownWebsiteOpensNothing | app/services/commands.py:105-106 | A site missing from the table raises `ValueError("Unknown website: …")` with no browser call. |
| Commands.KnownWebsiteOpensItsUrl | app/services/commands.py:105-111 | A listed site makes exactly one browser call with its URL. The handler completes even if that call raises, because the call runs on its own thread. |
| Commands.HandlerStopsAtFirstFault | app/services/commands.py:35-37 | For every scripted handler, if event `i` is the first to raise, exactly the events before it are emitted and the failure is re-raised. |
| Commands.HandlerCompletesWithoutFault | app/services/commands.py:28-34 | For every scripted handler, if no call raises, the whole script is emitted and the handler completes. |
| Commands.PressMinimiseAll | app/services/commands.py:29 | `press_button_combination("win-m")` makes the call `Hotkey[win,m]`. |
| Commands.PressCloseWindow | app/services/commands.py:31 | `press_button_combination("alt-f4")` makes the call `Hotkey[alt,f4]`. |
| Commands.PressConfirm | app/services/commands.py:33 | `press_button_combination("enter")` makes the call `Press enter`. |
| Commands.PressRepeatedly | app/services/commands.py:49-50 | `press_sequence([key] * n)` makes `n` presses of `key` at 50 ms. |
| Commands.PressOpening | app/services/commands.py:29-32 | Minimise all, wait 200 ms, close, wait 200 ms, stopping at a call that raises. |
| Commands.ExecuteShutdown | app/services/commands.py:27-37 | The trace, call count and outcome are those of performing the shutdown script. |
| Commands.ExecuteSleep | app/services/commands.py:42-55 | The trace, call count and outcome are those of performing the sleep script. |
| Commands.ExecuteBsod | app/services/commands.py:60-68 | Runs `bsod` once. The handler raises only if the process cannot start, whatever its exit code. |
| Commands.ExecuteVolume | app/services/commands.py:82-89 | The trace, call count and outcome are those of the ten volume presses. |
| Commands.ExecuteOpenWebsite | app/services/commands.py:103-115 | Rejects an unknown site before any effect. Otherwise it hands the URL to a thread and completes. |
| Commands.ExecuteOpenCamera | app/services/commands.py:120-129 | Runs `start microsoft.windows.camera: <path>` in a shell once. Its exit code is ignored. |
| Commands.Execute | app/services/commands.py:19-22 | `handler.execute()` for every handler variant does what `Expected` says for that handler. |
| Security.CheckApiKey | app/utils/security.py:7-26 | Accepts if and only if the check is off, or the header is present, non-empty and equal to the key. A rejection is status 401, detail `Invalid API Key`, and `WWW-Authenticate` set to the header name. |
| Security.DisabledAcceptsAll | app/utils/security.py:17-18 | With the check off, every header is accepted. |
| Security.DefaultSettingsAcceptAll | app/utils/config.py:16-18 | Under the default settings the check is off, so every request is accepted. |
| Security.EmptyKeyRejectsAll | app/utils/security.py:20-21 | With the check on and an empty key, every request is rejected, even an empty header. |
| Security.AcceptedCarriesKey | app/utils/security.py:20-21 | An accepted request with the check on carried exactly the configured key. |
| System.SplitLines | app/utils/system.py:30 | No line produced by `splitlines` contains a line-break character. |
| System.SplitLinesAtBreak | app/utils/system.py:30 | A single break ends the line before it, and the next line starts right after it. |
| System.SplitLinesAtCrLf | app/utils/system.py:30 | `\r\n` is one break: it ends the line before it and starts no empty line. |
| System.SplitLinesOfLine | app/utils/system.py:30 | A non-empty text without breaks is a single line. |
| System.SplitLinesKeepsText | app/utils/system.py:30 | The lines put back together are the output with only its line breaks removed. |
| System.MatchingLines | app/utils/system.py:30 | The filter keeps exactly the lines that contain `"IPv4 Address"`. |
| System.Strip | app/utils/system.py:35 | `strip` keeps a substring surrounded only by whitespace, which starts and ends with a non-space character. |
| System.StripKeepsInnerText | app/utils/system.py:35 | Text that begins and ends with non-space characters survives stripping. |
| System.GetLocalIp | app/utils/system.py:10-38 | `None` if and only if `ipconfig` could not run, returned non-zero, or printed no line containing `"IPv4 Address"`. |
| System.LastMatchingLine | app/utils/system.py:30-35 | `ip_lines[-1]` is the last line of the output that matches. |
| System.FoundIsLastIpv4Line | app/utils/system.py:30-35 | A result is the last matching line, stripped, and no later line matches. |
| System.FoundKeepsLabel | app/utils/system.py:30-35 | A result still contains `"IPv4 Address"` and lies within one line. |

## Left out

- The real `pyautogui`, `time.sleep`, `webbrowser.open` and `subprocess.run` are not modelled. They appear only as events and as a fault oracle deciding which foreign call raises.
- Effects.Desktop.Call: a call that raises records nothing. Keys a real injector may have pressed before it failed are not modelled.
- Effects.Desktop.Wait: durations are whole milliseconds, negative ones included. The source's fractional seconds and real timing are not modelled.
- Effects.Desktop.RunProcess: every process reports the one exit code fixed for the desktop. Its stdout and stderr are not modelled.
- Commands.ExecuteOpenWebsite: the browser thread is not modelled beyond its one call. Its scheduling relative to later events is left out, and so is a failure to start the thread.
- Commands.ExecuteBsod: the warning log with the exit code and stderr is left out, because logging has no effect on the outcome.
- Logging (app/utils/logger.py) is not modelled anywhere.
- The FastAPI routes, middleware, exception-to-HTTP mapping and static files (app/api.py, main.py) are not modelled. This includes the `/exec` route's 400 for unknown commands and 500 for handler failures.
- static/script.js, the canvas joystick, is not modelled.
- Settings come from environment variables in app/utils/config.py. The model takes them as values (`Commands.DefaultConfig`, `Security.DefaultSettings`).
- Security.CheckApiKey: takes the header value already looked up. Starlette's case-insensitive header lookup is not modelled.
- System.GetLocalIp: takes what `subprocess.run(['ipconfig'])` returned, or `None` when it raised. Running the command is not modelled.
- Concurrent `/exec` requests interleaving their key events are not modelled. The model has one caller at a time.
