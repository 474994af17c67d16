# win10smtc: the advertisement state machine, in Dafny

This is a model of the bookkeeping in the VLC interface module that mirrors
the player's state onto the Windows 10 system media transport controls
(`src/module.cpp`). The player calls two callbacks, one for input events and
one for track changes. These callbacks write into the single-slot
`intf_sys_t` mailbox: the pending flag `advertise`, the latest `input_state`,
the per-track `metadata_advertised` flag and the held `input`. The advertiser
thread wakes up on the pending flag. It publishes the status and, once per
track, the title and artist. A button handler turns the OS buttons into
playlist commands.

Files, one module each:

- `wrappers.dfy`: `Option`, used for the pointers that may be null.
- `status.dfy`: the VLC 3 `input_state_e` values and `MediaPlaybackStatus`. It also holds the total mapping `StatusOf`.
- `metadata.dfy`: the item the player reports, and the placeholder fallback for title and artist.
- `buttons.dfy`: the ten transport-control buttons and the five playlist commands.
- `smtc.dfy`: the state as a value (`Sys`) and the pure transitions over it. It also holds the class `IntfSys`, which has the same fields. Its methods (`InputEvent`, `PlaylistEvent`, `AdvertiseState`, `ReadAndAdvertiseMetadata`, `AdvertiseStep`, `ButtonPressed`) update the fields in place. `InputEvent`, `PlaylistEvent`, `AdvertiseStep` and `ButtonPressed` are each proved to move the state exactly as their transition (`OnInputEvent`, `OnTrackChange`, `Advertise`, `OnButton`) does. The two helpers of the advertise step have no transition of their own: `AdvertiseState` appends exactly `[SetStatus(StatusOf(..))]` to the log and `ReadAndAdvertiseMetadata` appends exactly `MetadataEffects(input, meta)`, and both may change only the log.
- `traces.dfy`: runs, meaning sequences of events applied one at a time. This file holds the lemmas that span several handler calls.

Everything the module does to the outside world goes into an effect log, in
order. A status publish is `SetStatus`. A title/artist/thumbnail publish is
`ShowMetadata`. The reference-count calls are `Hold` and `Release`, and the
callback registration is `Subscribe`. The playlist calls are `LockPlaylist`,
`Issue(cmd)` and `UnlockPlaylist`.

Modelling choices:

- `input_state` is an `Option<int>`. It is `None` until the first state event, because the constructor leaves it uninitialised.
- States are unbounded integers. The handler's cast of the reported `int64_t` to `input_state_e` is taken to keep the value; see "## Left out". The `>= PLAYING_S` test uses the VLC 3 order: INIT 0, OPENING 1, PLAYING 2, PAUSE 3, END 4, ERROR 5. The input event codes are STATE 0 and DEAD 1.
- A death event that finds no held input fails the source's assertion. `OnInputEvent` returns `None` in that case, and the method requires a held input.
- A wake-up while `advertise` is false goes back to waiting, as the source's wait loop does. The advertise step itself requires `advertise`.
- The player's answers to the metadata queries are a parameter, `meta: InputId -> Item`, given to each wake-up.

Three behaviours of the code that are easy to miss, which the model keeps:

- A track change does not release the previously held input. It only holds and subscribes to the new one.
- `metadata_advertised` is set after every qualifying pass, even when no input is held and nothing was published.
- The metadata test is `input_state >= PLAYING_S`. So END, ERROR and any larger value also qualify, not just Playing and Paused. In particular, after an ERROR state the metadata can go out right after a `Closed` status.

## Model

| member | source | states |
|---|---|---|
| `PlaybackStatus.StatusOf` | src/module.cpp:98-110 | Total mapping. OPENING gives Changing, PLAYING gives Playing, PAUSE gives Paused, END gives Stopped, each in both directions. Every other integer (INIT, ERROR, unknown) gives the default, whose value is 0 (Closed). |
| `Metadata.ReadMetadata` | src/module.cpp:119-139 | A title or artist the player reports is shown as is. A missing one shows "Unknown Title" or "Unknown Artist". A shown value other than the placeholder is exactly the reported one. |
| `Buttons.CommandFor` | src/module.cpp:49-70 | Play, Pause, Stop, Next and Previous each map to their own playlist command (play, pause, stop, next, prev), in both directions. The other five buttons map to no command. |
| `Smtc.ButtonEffects` | src/module.cpp:47-72 | The playlist lock comes first and the unlock last, for every button. Between them is exactly one command, the button's own, when the button is routed, and nothing otherwise. |
| `Smtc.Advertise` | src/module.cpp:239-250 | One advertiser pass. The status of the latest state is published first. At most one more effect follows: the held input's title and artist. It is published exactly when state >= PLAYING_S, the flag is unset and an input is held. The flag ends up set whenever state >= PLAYING_S, even with no input. `advertise` ends up false. The input and the state are unchanged. |
| `Smtc.IntfSys.constructor` | src/module.cpp:27-36 | No input held, `advertise` and `metadata_advertised` false, `input_state` unwritten, nothing published. |
| `Smtc.IntfSys.InputEvent` | src/module.cpp:175-203 | A state event overwrites `input_state` with the reported state and sets `advertise`, nothing else. A death event needs a held input, releases it and leaves `input` null. Any other event changes nothing. It always returns VLC_SUCCESS. |
| `Smtc.IntfSys.PlaylistEvent` | src/module.cpp:205-223 | A null input changes nothing. A non-null one clears `metadata_advertised`, becomes the held input, and is held and subscribed to. The previous input is not released. It always returns VLC_SUCCESS. |
| `Smtc.IntfSys.AdvertiseState` | src/module.cpp:98-112 | Appends exactly one status publish, the mapping of the current `input_state`. |
| `Smtc.IntfSys.ReadAndAdvertiseMetadata` | src/module.cpp:114-148 | Publishes nothing when no input is held. Otherwise it publishes the held input's title and artist with their placeholders. |
| `Smtc.IntfSys.AdvertiseStep` | src/module.cpp:239-250 | One loop pass after the wait: the same new state as `Advertise`, with `advertise` cleared and the object invariant kept. |
| `Smtc.IntfSys.ButtonPressed` | src/module.cpp:46-73 | Appends the lock, the button's command if any, and the unlock. The advertiser's fields are untouched. |
| `Traces.LatestWins` | src/module.cpp:184-193 | Over any run, `input_state` ends at the state of the last state event, or is untouched if there was none. `advertise` can only have been raised by a state event. Without wake-ups, `advertise` is raised exactly when some state event happened. From a valid state, the invariant is kept, and a raised `advertise` comes from a state event after the last wake-up, or was already raised with no wake-up since. |
| `Traces.PendingImpliesWritten` | src/module.cpp:27-36 | From the constructor's state, whenever `advertise` is true, `input_state` has been written and holds the last reported state. |
| `Traces.CoalescedWakePublishesLatest` | src/module.cpp:239-244 | After several state events and no wake-up, the next wake-up advertises. It publishes exactly one status, that of the last state. Anything after it in that pass is metadata. |
| `Traces.MetadataAtMostOncePerTrack` | src/module.cpp:244-249 | With no track change, a run adds at most one metadata publish. It adds none once the track's metadata flag is set, and the flag stays set. |
| `Traces.RunKeepsOrder` | src/module.cpp:244-249 | In every run, each metadata publish directly follows a status publish, and that status is never Changing. |
| `Traces.EndToEndScenario` | src/module.cpp:184-250 | Track A goes Opening, Playing, Paused, Playing, with one wake-up each. The statuses published are Changing, Playing, Paused, Playing. The metadata "Song A" / "Artist A" is published once, right after the first Playing. |
| `Traces.CoalescingScenario` | src/module.cpp:184-193 | Opening then Playing before a single wake-up. Only Playing is published, followed by the metadata. |
| `Traces.NextTrackScenario` | src/module.cpp:215-219 | Track 0 plays and its metadata goes out. A change to track 1 clears the flag, so the next Playing publishes track 1's title and artist as well. |

## Left out

- The WinRT session is not modelled: apartment init and uninit, `MediaPlayer` construction, the `SMTC()` and `Disp()` accessors, the `Is*Enabled` switches and the playback type. These are foreign API calls with no visible logic.
- The thumbnail is not modelled: the `RandomAccessStreamReference` created from the default URI, and the initial `Closed` status set at thread start. `ShowMetadata` stands for title, artist, default thumbnail and `Update()` together.
- Threads are not modelled: the mutex, the condition variable, `vlc_clone`, cancellation and its masking, and the cleanup handlers. Each handler and each loop pass is an atomic step, and the blocking wait is reduced to the `advertise` precondition. Two unsynchronised writes race with the advertiser thread, and this sequential model cannot express either. One is the write to `metadata_advertised` in `PlaylistEvent` (src/module.cpp:218). The other is the write to `input` in `PlaylistEvent` (src/module.cpp:219) and in the death branch (src/module.cpp:198-199). The advertiser reads `input` under the lock at src/module.cpp:116 and src/module.cpp:119, so a death event can release the input between the null test and `input_GetItem`.
- Reference counting is reduced to log entries. The `vlc_object_hold`/`vlc_object_release` internals and `var_AddCallback` appear only as `Hold`, `Release` and `Subscribe`. The per-input "intf-event" callback added at src/module.cpp:220 is never removed: not on death and not on a track change. So an earlier input that was never released keeps reaching `InputEvent`, and its death event releases whichever input is held at that moment. `Close` removes only the playlist's "input-current" callback, and `Close` is not modelled.
- Which input sent an event is not modelled. The death handler releases whichever input is held, whatever input sent the event. The model's events carry no sender, so they cover the calls from earlier inputs described above.
- The module lifecycle is not modelled: `Open`, `Close` (with its assertion that no input is held) and the module descriptor macros. They are allocation and registration boilerplate.
- String conversion is not modelled: `winrt::to_hstring` and `libvlc_free`. Strings are plain `string` values.
- `input_item_GetTitleFbName` picks between the title and the item's name inside the player. The model takes its result as given.
- The cast at src/module.cpp:186 is treated as value-preserving. It converts the `int64_t` from `var_GetInteger` to `input_state_e`, and that conversion does not keep every value. Outside the enumeration's range it is undefined in standard C++. With a 32-bit underlying type, the bits above 32 are dropped. The model's unbounded `int` keeps, say, 2^32+1 as a value at least PLAYING_S that maps to Closed, where a truncating cast would give OPENING_S and Changing. Every value VLC's "state" variable actually takes lies in the enumeration's range, where the two agree.
- The status table's `operator[]` also inserts the default entry for an unmapped state. This has no effect on what is published, so it is not modelled.
