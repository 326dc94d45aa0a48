# MediaPiler "now playing" listener — a Dafny model

MediaPiler shows the track playing on a paired Bluetooth device, with its album
cover, on a local web page. A background `Listener` thread polls the device
every `UPDATE_INTERVAL` (5) seconds. It publishes the picture, author and track
into the `shared_data` dictionary that the `/metadata` and `/image` routes read.
Each successful cycle also rebinds the GPIO button so that a press toggles play
or pause.

This project models that listener cycle and the dictionary as a small state
machine. Everything the listener calls into is an input: one `Outcome` per
cycle says what the collaborators did. These are the handle lookup, the
`Track` and `Status` reads, the Last.fm cover lookup `fetch`, the download and
decode `display`, and `ImageOps.fit`.

- `base.dfy` (module `Base`): `Option`, which also stands for "the call raised",
  and Python's `dict.get`.
- `store.dfy` (module `Store`): images, snapshots and the `shared_data` dictionary.
  The dictionary is a map from keys to values, held by the class `SharedData`.
  It has the three-key placeholder initialisation, the atomic publish of the
  lock-guarded block, and the `/metadata` read. `WellFormed` says the dictionary
  holds exactly `img`, `author` and `track`. That is why the fallbacks in the
  `/metadata` route never apply.
- `player.dfy` (module `Player`): the player handle, the `play_pause` closure
  `Fire` (its two independent `if`s as written), the toggle decision
  `PressEffect`, and `Press`, which runs the closure on the current values of
  its free variables. The class `Scope` holds the two local variables of
  `Listener.run` that the closure reads, `handle` and `status`. The class
  `Button` holds `when_pressed`.
- `polling.dfy` (module `Polling`): the specification of one cycle. `CycleEffect`
  says how far the `try` body got: which of `handle` and `status` it assigned,
  and whether it published or raised. `Step` gives the new state: the snapshot,
  the two variables, whether a closure is bound, and the sleep count. `Replay`
  runs a finite sequence of cycles, standing in for `while True`. The class
  `Listener` has the imperative `Cycle` and `Run`, proved equal to `Step` and
  `Replay`. The lemmas cover failure, last-success-wins, the variables the
  button reads, sleep counting and defaulting.

`play_pause` is defined inside `run` and reads `run`'s `handle` and `status`
when it is called, not when it is defined. Every closure bound to the button
therefore reads the same two variables. Any later cycle rewrites them as far
as its reads get, even one that then fails. A cycle whose lookup succeeds
assigns `handle`. One that also reads `Track` and `Status` assigns `status`.
So once any cycle has published, a press acts on the latest status read, on
the device of the latest successful lookup. In the model the button is bound
to the `Scope` object, the run's variables, and a press reads its fields at
press time.

As the code is written, the `DeviceNotFoundError` path sleeps twice per cycle:
once in its handler and once in `finally`. Every other path sleeps once. The
model keeps this.

Until the first successful cycle, readers see the 400x200 blue placeholder,
not a 1000x1000 image. `AlwaysFormed` says a reader sees the placeholder or a
fitted 1000x1000 cover. Publishing performs no validation of the new entries.

## Model

| member | source | states |
|---|---|---|
| `Base.Get` | app_flask.py:63-65 | `dict.get`: the stored value for a present key, the default for a missing one |
| `Store.Placeholder` | app_flask.py:15-23 | the initial snapshot is a blue 400x200 image with author "Author" and track "Track" |
| `Store.Entries` | app_flask.py:21-23 | a snapshot's dictionary has exactly the keys img, author and track, holding that snapshot's picture and text |
| `Store.Read` | app_flask.py:21-23 | a well-formed dictionary is determined completely by the snapshot read from it |
| `Store.ReadEntries` | app_flask.py:77-80 | writing a snapshot's three entries and reading them back gives that snapshot |
| `Store.SharedData.constructor` | app_flask.py:15-23 | the dictionary starts well formed, holding the placeholder snapshot |
| `Store.SharedData.Publish` | app_flask.py:77-80 | all three entries are replaced together by the new snapshot's, and the dictionary stays well formed |
| `Store.SharedData.Metadata` | app_flask.py:103-110 | on a well-formed dictionary the reply is exactly the stored author and track; a missing key would give "Unknown Author" / "Unknown Track" |
| `Player.PressEffect` | app_flask.py:82-89 | status "playing" gives Pause, "paused" gives Play, and any other status gives neither, each as an if-and-only-if |
| `Player.Fire` | app_flask.py:82-89 | the closure body issues at most one call, always on the given handle and never a no-op |
| `Player.FireIsPressEffect` | app_flask.py:82-89 | the closure's two independent tests issue exactly the toggle decision: one call on the handle, or none |
| `Player.Press` | app_flask.py:82-89 | calling the closure on its variables' current values raises exactly when `status` is unassigned, or `handle` is unassigned and the status asks for a call; otherwise it issues the toggle decision on the handle |
| `Player.Scope.constructor` | app_flask.py:55-61 | before the first cycle, neither `handle` nor `status` of `run` is assigned |
| `Player.Button.constructor` | app_flask.py:25 | the button starts with no callback bound |
| `Player.Button.Bind` | app_flask.py:91 | the new closure replaces whatever was bound before; it reads the given variables |
| `Player.Button.Pressed` | app_flask.py:82-91 | a press issues nothing while unbound; otherwise it runs the closure on the variables' values at press time |
| `Polling.Artist` | app_flask.py:63 | the Artist value when present, "Unknown Artist" when missing |
| `Polling.Album` | app_flask.py:64 | the Album value when present, "Unknown Album" when missing |
| `Polling.Title` | app_flask.py:65 | the Title value when present, "Unknown Track" when missing |
| `Polling.Fit` | app_flask.py:72-73 | the fitted image is 1000x1000 and made from the given source |
| `Polling.CycleEffect` | app_flask.py:57-80 | `handle` is assigned exactly when the lookup succeeds, and `status` exactly when Track and Status are also read; only a missing device is DeviceNotFoundError; a cycle publishes exactly when the lookup, both reads, fetch, display and fit all succeed; the published snapshot is then the fitted 1000x1000 cover fetched with (artist, album), with the defaulted artist and the defaulted title |
| `Polling.SleepsFor` | app_flask.py:93-99 | a cycle sleeps one or two intervals, and two exactly on DeviceNotFoundError |
| `Polling.Step` | app_flask.py:56-99 | a cycle that does not publish leaves the snapshot and whether a closure is bound unchanged; one that publishes replaces the snapshot and leaves a closure bound; `handle` and `status` take this cycle's values when it read them, whatever happened after; two sleeps without a device and one otherwise |
| `Polling.Replay` | app_flask.py:56-99 | a run of n cycles sleeps at least n intervals, and a bound closure stays bound |
| `Polling.FailuresKeepState` | app_flask.py:93-99 | any run of failing cycles leaves the snapshot, and whether a closure is bound, as they were |
| `Polling.PlaceholderUntilFirstSuccess` | app_flask.py:21-25 | until a cycle succeeds, readers see the placeholder and a press does nothing |
| `Polling.LastPublishWins` | app_flask.py:77-91 | after a run, the snapshot is that of the most recent successful cycle, and a closure is bound |
| `Polling.BoundAfter` | app_flask.py:91 | once a cycle has published, a closure stays bound for the rest of the run |
| `Polling.LastLookupWins` | app_flask.py:58 | after a run, `handle` is the device of the most recent successful lookup, whether or not that cycle published |
| `Polling.LastStatusWins` | app_flask.py:59-61 | after a run, `status` is the value read by the most recent cycle that read one, whether or not it published |
| `Polling.StaysCoherent` | app_flask.py:58-91 | once a closure is bound, both variables it reads are assigned, so a press never meets an unassigned variable |
| `Polling.SleepCount` | app_flask.py:93-99 | a run of n cycles sleeps n intervals, plus one more for each cycle without a device |
| `Polling.AlwaysFormed` | app_flask.py:15-23 | from process start, readers always see either the placeholder or a fitted 1000x1000 cover |
| `Polling.ButtonFollowsLastReads` | app_flask.py:58-91 | after a publish, a press acts on the most recently read status and the most recently found device: one Pause for "playing", one Play for "paused", nothing otherwise |
| `Polling.PublishedDefaults` | app_flask.py:63-68 | a missing Artist, Album or Title becomes "Unknown Artist", "Unknown Album" or "Unknown Track"; present values are used unchanged; the cover is requested with the album, not the title |
| `Polling.PublishThenLookupFailure` | app_flask.py:58-91 | a playing Radiohead / OK Computer / Paranoid Android cycle with a 300x300 cover publishes that author and track at 1000x1000, and a press pauses; a following cycle that reads "paused" and then fails its cover lookup keeps the snapshot, but a press now plays |
| `Polling.LaterLookupRetargetsPress` | app_flask.py:58-61 | a cycle that finds a second device and then fails reading Status keeps the snapshot and the old status, but a press now acts on the second device |
| `Polling.Listener.constructor` | app_flask.py:51-53 | the listener takes its interval, its variables are unassigned, and it has slept no interval yet |
| `Polling.Listener.Cycle` | app_flask.py:57-99 | one pass of the loop body changes the dictionary, the variables, the button and the sleep count exactly as `Step` says; the dictionary stays well formed and a bound closure reads this run's assigned variables |
| `Polling.Listener.Run` | app_flask.py:55-99 | a run over any finite sequence of outcomes processes every cycle in order, as `Replay` says; the dictionary is well formed throughout |
| `Polling.Listener.Press` | app_flask.py:82-91 | a press does what the state's closure does, and it never meets an unassigned variable |
| `Polling.Start` | app_flask.py:247-252 | at process start the listener has the default interval of 5 and the state is the placeholder, unassigned variables, no closure bound and no sleeps |

## Left out

- Threads and the lock: publish is one atomic step and reads happen between cycles. Interleavings of the Flask thread with the listener are not modelled.
- D-Bus device discovery in `MediaPlayer.get_handle` and `main.py`: this is foreign I/O. It is the `Lookup` input (found, not found, or another bus error).
- `cover_fetcher.py` `fetch` and `display` (Last.fm lookup, HTTP download, PIL decode): foreign calls. They are function-valued inputs returning a result or "raised".
- `ImageOps.fit` resampling: only its 1000x1000 result and its source are kept. Whether it raises, for example when `Image.ANTIALIAS` is missing in newer Pillow, is the `fitOk` input.
- The `/image` route and its PNG encoding, the `/` page, the HTTP headers and the Flask server: serving and UI, not part of the polling logic.
- The GPIO hardware and the duration of `time.sleep`: the binding is kept as state and the sleeps as a count. Time slept is the count times `interval`.
- Closure identity: each successful cycle binds a new `play_pause` function object, but all of them read the same two variables of `run`. The model binds the button to those variables. It does not distinguish the function objects.
- What a `handle.Pause()` or `handle.Play()` call does on the device: a press is modelled by the calls it issues.
- The `print` logging in the two handlers: output only.
