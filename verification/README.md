# pmb-pitft player core in Dafny

This project models the playback core of the PiTFT music-player front end:

- `MPDControl` (mpd_control.py). This is the MPD backend. It keeps a cached status, a cached song, a cover-art path and eight change flags (`active`, `state`, `elapsed`, `random`, `repeat`, `volume`, `trackinfo`, `coverart`).
  - Each `refresh` compares fresh server replies with the caches. It raises the flags of the fields that changed and saves the new values.
  - `force_update` raises flags and `update_ack` lowers them.
  - `control` maps the command vocabulary onto MPD client calls.
  - `fetch_coverart` picks the largest local `folder.*` image.
- `PlayerControl` (control.py). This is the controller. It owns an ordered list of backends and the index `current`.
  - Each cycle refreshes every backend (fully only the current one) and then arbitrates. Every backend whose `active` flag is up is switched to in list order, so the last one wins. Every other backend that is playing is sent `pause`.
  - It also forwards commands (`play_pause` is rewritten, `switch` is handled locally), sets the volume (relative or absolute, clamped to 0..100), acknowledges flags and lists the player names.

Layout:

- `wrappers.dfy`: `Option`.
- `text.dfy`: the parts of Python's `str.lower`, `str.upper`, `str.endswith` and `int(str)` that the code relies on.
- `mpd_control.dfy` (module `MpdControl`): the backend.
  - The class `Backend` has the source's fields.
  - The methods that refresh or command a backend are proved against functions on the value `BackendState`: `Refreshed`, `Controlled`, `AlbumChecked`, `SongStored`, `FetchedCover`.
  - The comparison helpers are proved against functions on the replies and records: `DiffStatus` and `FieldsDiff` (status), `WithDefaults` (sanity check), `SongFlags` (song).
  - `ForceUpdate`, `UpdateAck` and `SetVolume` state their new flags or request log directly.
  - `ChooseCover` is the cover-file loop, proved against `BestCover`.
- `control.dfy` (module `PlayerControl`): the controller.
  - The class `Controller` holds `players: seq<Backend>` and `current`.
  - Its methods are proved against functions on the sequence of backend states: `RefreshedUpTo`, `Scan`, `Paused`, `Arbitrated`, `Switched`, `Dispatched`, `VolumeTarget`.
- `mpd_properties.dfy` and `control_properties.dfy`: lemmas stating what the source promises, proved about those functions.

The MPD server is not part of the model. One refresh is driven by a `Poll` value with these parts:

- whether a reconnect succeeds;
- the `status()` reply, or `None` when the call raises;
- the `currentsong()` reply, or `None` when the call raises;
- the `folder.*` files of the song's directory, with their sizes.

A command sent to the server carries a `delivered` flag that is false when the client call raises. Every call the backend issues is appended to the ghost log `calls`. Every request the controller sends to a backend is appended to the ghost log `received`.

Some conventions of the model:

- Replies are dictionaries (`map<string, string>`). A key that a reply lacks leads where the source's `KeyError` leads: the connection is dropped.
- The caches are records with the fields the source reads, plus the remaining keys of the saved reply.
  - `StatusDict`/`ToStatus` and `SongDict`/`ToSong` convert between record and dictionary without loss.
  - The status comparison compares the raw reply with `StatusDict` of the cache, as the source compares dictionaries.
  - The song comparison compares records. In every reachable state (`Consistent`: kept by `Initial`, `Refreshed` and `Controlled`) a cached record never repeats one of its six fields among its other keys, and `SongComparisonFaithful` proves that the record comparison then decides what the dictionary comparison decides.
- The `update` dictionary of eight booleans is modelled as the set `raised` of flags that are true.
- A cached status always holds its five keys, so the source's test that the current status is not empty (control.py:104) always passes and is not modelled.

Where the code and its description disagree, the model follows the code:

- `update_ack("all")` does not clear every flag.
- The `radio` command raises instead of loading a playlist, because it names the undefined `self_current`.

## Model

| member | source | states |
|---|---|---|
| Text.Lower | mpd_control.py:308 | `str.lower` keeps the length and lowers every ASCII capital, leaving other characters alone |
| Text.Upper | control.py:52 | `str.upper` keeps the length and raises every ASCII lower-case letter, leaving other characters alone |
| Text.ParseInt | control.py:92-94 | `int(s)` succeeds exactly on an optional sign followed by at least one decimal digit |
| MpdControl.StatusDict | mpd_control.py:42-47 | the cached status always holds the five keys the refresh reads |
| MpdControl.StatusRoundTrip | mpd_control.py:104-105 | saving a reply that holds the five status keys loses nothing: the record turned back into a dictionary is the reply |
| MpdControl.SongDict | mpd_control.py:49-55 | the cached song always holds the six keys the refresh reads |
| MpdControl.SongRoundTrip | mpd_control.py:170-171 | saving a song that holds the six keys loses nothing |
| MpdControl.StateFlags | mpd_control.py:87-91 | `state` is raised exactly when the state differs, `active` exactly when it differs and the new state is "play", and no other flag |
| MpdControl.DiffStatus | mpd_control.py:86-105 | a reply equal to the cache changes nothing; the comparison never raises `trackinfo` or `coverart`; a failed comparison keeps the cache (the iffs are in `StateAndActiveFlags`, `FieldFlags`, `ElapsedFlag` and `StatusSaved`) |
| MpdControl.FieldsDiff | mpd_control.py:87-105 | the field comparison succeeds exactly when state, repeat, random and volume are present and, unless the state is "stop", elapsed too; it never raises `trackinfo` or `coverart`; a failure keeps the cache |
| MpdControl.SongFlags | mpd_control.py:155-168 | `trackinfo` is raised exactly when one of the six fields differs, `coverart` exactly when the album differs, `elapsed` exactly when the time differs, and no other flag |
| MpdControl.Initial | mpd_control.py:40-68 | a new backend has no flag raised, no cover and a blank state |
| MpdControl.Default | mpd_control.py:119-120 | one step of the sanity check leaves the key present and keeps every key and value already there |
| MpdControl.WithDefaults | mpd_control.py:118-135 | after the sanity check the six song keys are present and every key and value of the reply is kept |
| MpdControl.IsImage | mpd_control.py:308 | a path accepted as an image is at least four characters long |
| MpdControl.ImageIgnoresCase | mpd_control.py:308 | the image test ignores case: the upper-cased path is an image exactly when the path is |
| MpdControl.Images | mpd_control.py:308 | a file counts as an image exactly when its lower-cased path ends in .png, .jpg, .jpeg or .gif |
| MpdControl.Largest | mpd_control.py:307-316 | the selection among the images is none exactly when there is no image; otherwise it is an image at least as large as every image and strictly larger than every earlier one |
| MpdControl.BestCover | mpd_control.py:299-316 | the cover file chosen is none exactly when no file is an image; otherwise it is the earliest of the largest images |
| MpdControl.LargestStep | mpd_control.py:307-316 | one more file changes the selection only when it is an image and it is the first image or strictly larger than the one selected |
| MpdControl.FetchedCover | mpd_control.py:291-325 | the cover lookup changes only the cover, its path and the `coverart` flag, and raises no flag other than `coverart` |
| MpdControl.AlbumChecked | mpd_control.py:137-152 | the album check changes only the cover, its path and the `coverart` flag, and lowers no flag |
| MpdControl.SongStored | mpd_control.py:154-171 | the song comparison stores the fetched song and changes nothing but the song and the flags, lowering none |
| MpdControl.SongUpdated | mpd_control.py:137-171 | the song part of a full refresh changes only song, cover, cover path and flags, and lowers no flag |
| MpdControl.CoverPath | mpd_control.py:317-321 | the stored path is "" exactly when no file is an image, and otherwise is an image path |
| MpdControl.ChooseCover | mpd_control.py:299-316 | the selection loop returns the path of `BestCover`, and "" exactly when no file is an image |
| MpdControl.Refreshed | mpd_control.py:77-176 | a refresh leaves the call and request logs as they were and never lowers a flag |
| MpdControl.Toggled | mpd_control.py:240-245 | the repeat/random toggle fails exactly when `int` rejects the cached value, and otherwise asks for one minus its parity |
| MpdControl.ClientCallFor | mpd_control.py:221-247 | a command does nothing exactly when it is outside the vocabulary or is `seek`/`volume` with -1; it fails exactly when `seek`, `repeat` or `random` reads a cached value that `int` rejects |
| MpdControl.Controlled | mpd_control.py:221-252 | `control` always logs the request, never changes caches, flags or cover, issues at most one client call, and never brings a connection back |
| MpdControl.CompareStatus | mpd_control.py:86-105 | the step-by-step status comparison adds exactly the flags of `DiffStatus` to those already up, saves its cache, and fails where it fails |
| MpdControl.CompareFields | mpd_control.py:87-105 | the field-by-field comparison of a reply that differs from the cache adds exactly the flags of `FieldsDiff`, saves its cache, and fails where a key read is missing |
| MpdControl.FillDefaults | mpd_control.py:118-135 | the in-place sanity check yields `WithDefaults` of the reply |
| MpdControl.CompareSong | mpd_control.py:155-168 | the song comparison adds exactly `SongFlags` to the flags already up |
| MpdControl.Backend.constructor | mpd_control.py:13-68 | a new backend is in the `Initial` state, connected when the first connect succeeds |
| MpdControl.Backend.RefreshStatus | mpd_control.py:83-111 | the status part of the refresh updates flags and cache as `DiffStatus` says |
| MpdControl.Backend.FetchCoverArt | mpd_control.py:291-325 | the local cover lookup ends in the state `FetchedCover` describes |
| MpdControl.Backend.CheckAlbum | mpd_control.py:137-152 | the album check ends in the state `AlbumChecked` describes |
| MpdControl.Backend.StoreSong | mpd_control.py:154-171 | the song comparison ends in the state `SongStored` describes |
| MpdControl.Backend.RefreshSong | mpd_control.py:113-171 | the song part of the refresh ends in the state `SongUpdated` describes |
| MpdControl.Backend.Refresh | mpd_control.py:77-176 | one refresh ends in the state `Refreshed` describes |
| MpdControl.Backend.ForceUpdate | mpd_control.py:178-182 | "all" raises every flag, a named flag raises just that one, and nothing else changes |
| MpdControl.Backend.UpdateAck | mpd_control.py:184-185 | exactly the named flag is lowered and nothing else changes |
| MpdControl.Backend.Control | mpd_control.py:221-252 | a command ends in the state `Controlled` describes |
| MpdControl.Backend.SetVolume | mpd_control.py:218-219 | a volume request is logged and nothing else changes |
| MpdProperties.DisconnectedRefreshOnlyReconnects | mpd_control.py:80-81 | without a connection a refresh only tries to reconnect: caches, cover and flags are untouched |
| MpdProperties.FailedFetchDisconnects | mpd_control.py:83-111 | a status call that raises, a status reply lacking a key the comparison reads (`KeyError`), or a song call that raises on a full refresh, drops the connection |
| MpdProperties.StateAndActiveFlags | mpd_control.py:86-91 | `state` is raised exactly when the state differs from the cached one; `active` exactly when it differs and the new state is "play" |
| MpdProperties.FieldFlags | mpd_control.py:92-97 | `repeat`, `random` and `volume` are raised exactly when that field differs, provided no key read earlier is missing |
| MpdProperties.ElapsedFlag | mpd_control.py:98-102 | the status comparison raises `elapsed` exactly when the player is not stopped and the elapsed time differs |
| MpdProperties.StatusSaved | mpd_control.py:83-111 | the comparison succeeds exactly when the reply equals the cache or holds every key read; the cache then equals the reply, with a stopped player's elapsed blanked; after a failure the cache is unchanged |
| MpdProperties.RefreshKeepsStoppedBlank | mpd_control.py:98-105 | a stopped player's saved elapsed time stays blank across refreshes |
| MpdProperties.InitialConsistent | mpd_control.py:40-55 | a new backend is consistent: stopped-blank status and no named key among the other keys |
| MpdProperties.RefreshedStatus | mpd_control.py:83-105 | a refresh keeps the cached status or replaces it by the cache of the status comparison |
| MpdProperties.RefreshedSong | mpd_control.py:113-171 | a refresh keeps the cached song or replaces it by the fetched song with its defaults |
| MpdProperties.RefreshKeepsConsistent | mpd_control.py:77-176 | a refresh keeps a backend consistent |
| MpdProperties.ControlKeepsConsistent | mpd_control.py:221-252 | a command keeps a backend consistent |
| MpdProperties.SongDictInjective | mpd_control.py:155 | two song records whose other keys hold none of the six are equal exactly when their dictionaries are |
| MpdProperties.SongComparisonFaithful | mpd_control.py:155 | in a consistent state the record comparison of the fetched song with the cache decides what the source's dictionary comparison decides |
| MpdProperties.StatusOnlyRefreshKeepsSong | mpd_control.py:115-116 | a status-only refresh leaves song, cover, `trackinfo` and `coverart` alone |
| MpdProperties.SongDefaults | mpd_control.py:118-135 | each song field missing from the reply is read as "" |
| MpdProperties.SongUpdateFlags | mpd_control.py:138-171 | the fetched song replaces the cached one; `trackinfo` is raised exactly when one of the six fields differs, `elapsed` when the time differs, `coverart` when the album differs, and no other flag |
| MpdProperties.AlbumChangeFetchesCover | mpd_control.py:138-150 | after an album change the cover is set exactly when the song names a file, a library path is configured and an image exists, and its path is `CoverPath` |
| MpdProperties.SameAlbumKeepsCover | mpd_control.py:138 | without an album change the cover and its path are kept |
| MpdProperties.ToggleValues | mpd_control.py:240-245 | "0" toggles to 1, "1" to 0, and a blank value makes the toggle fail |
| MpdProperties.MinusOneIgnored | mpd_control.py:237-247 | `seek` and `volume` with parameter -1 do nothing |
| MpdProperties.ControlIssues | mpd_control.py:221-252 | without a connection a command is only logged; with one, exactly the named call is issued and the connection survives only if it is delivered; an ignored command changes nothing, a failed one disconnects |
| PlayerControl.RefreshedStep | control.py:78-80 | one more step of the refresh loop refreshes exactly the next backend |
| PlayerControl.PausedStep | control.py:67-73 | one more step of the pause loop changes at most the next backend, and only when it is not active and plays |
| PlayerControl.Switched | control.py:144-155 | switching touches only the chosen backend's flags: all forced up when it was not current, `active` always lowered |
| PlayerControl.Scan | control.py:59-65 | the scan keeps the number of backends and the current index in range |
| PlayerControl.ScanTouchesOnlyFlags | control.py:59-65 | the scan changes only flags, and leaves the backends before its start alone |
| PlayerControl.Paused | control.py:67-73 | the pause loop keeps the number of backends |
| PlayerControl.Arbitrated | control.py:58-73 | arbitration keeps the number of backends |
| PlayerControl.RefreshedUpTo | control.py:77-80 | the refresh loop keeps the number of backends |
| PlayerControl.Translate | control.py:104-109 | only `play_pause` is rewritten, to `pause` exactly when the current state is "play" and to `play` otherwise |
| PlayerControl.Dispatched | control.py:102-122 | dispatch keeps the number of backends and the current index in range |
| PlayerControl.Clamp | control.py:98-99 | the volume sent is in 0..100, equals the request when that is in range, and is 100 or 0 when it is above or below |
| PlayerControl.VolumeTarget | control.py:89-99 | the volume computed is in 0..100; it fails exactly when the direction is relative and `int` rejects the cached volume |
| PlayerControl.Present | control.py:14-36 | the configured backends are at most as many as the setups, and none exactly when no setup yields one |
| PlayerControl.Controller.constructor | control.py:11-12 | a controller starts at index 0 |
| PlayerControl.Controller.NewBackends | control.py:14-36 | the setup loop yields one distinct fresh backend per setup that yields one, in order, each in its `Initial` state |
| PlayerControl.Controller.New | control.py:9-36 | construction fails exactly when no backend could be set up; otherwise one fresh backend per setup, in order, with `current` 0 |
| PlayerControl.Controller.GetCurrent | control.py:55-56 | returns the current index, which is in range |
| PlayerControl.Controller.GetPlayerNames | control.py:49-53 | one upper-cased name per backend, in list order |
| PlayerControl.Controller.UpdateAck | control.py:85-86 | exactly the named flag of the current backend is lowered |
| PlayerControl.Controller.SwitchActivePlayer | control.py:144-155 | the current index becomes `id` and the backend states change as `Switched` says |
| PlayerControl.Controller.SetVolume | control.py:89-100 | nothing happens without volume support; otherwise the backend receives exactly the clamped `VolumeTarget`, or the call fails where `int` rejects the cached volume |
| PlayerControl.Controller.ControlPlayer | control.py:102-122 | states, current index and failure are as `Dispatched` says |
| PlayerControl.Controller.ControlTarget | control.py:120-122 | the command reaches the target backend, which ends as `Controlled` says, and no other backend changes |
| PlayerControl.Controller.DetermineActivePlayer | control.py:58-73 | states and current index are as `Arbitrated` says |
| PlayerControl.Controller.SwitchToActive | control.py:59-65 | the scan loop ends as `Scan` from 0 and reports the last backend switched to, or -1 exactly when none had `active` up |
| PlayerControl.Controller.ScanStep | control.py:61-65 | one step of the first loop keeps `Scanning`: the rest of the scan ends where the whole scan does, later backends are untouched, and `active` is the last backend switched to, or -1 exactly when none had `active` up so far |
| PlayerControl.Controller.VisitPlayer | control.py:61-65 | one scan step switches to the backend exactly when its `active` flag is up and touches no other backend |
| PlayerControl.Controller.PauseOthers | control.py:67-73 | the pause loop ends as `Paused` and keeps the current index |
| PlayerControl.Controller.PausePlayer | control.py:69-73 | one step of the pause loop sends `pause` to the backend exactly when it is not the active one and its cached state is "play" |
| PlayerControl.Controller.RefreshAll | control.py:78-80 | the refresh loop ends as `RefreshedUpTo` over every backend |
| PlayerControl.Controller.Refresh | control.py:77-83 | every backend is refreshed, fully exactly when it is current or `force` is set, and then arbitration runs |
| PlayerControl.Controller.RefreshPlayer | control.py:79-80 | one backend is refreshed and no other changes |
| ControlProperties.ScanFlags | control.py:59-65 | after the scan each backend that had `active` up has it lowered and every other flag forced up, unless it already was current when reached; the others keep their flags |
| ControlProperties.ScanCurrent | control.py:59-65 | the current index after the scan is the last backend that had `active` up, and nothing changes when none had |
| ControlProperties.ScanCurrentSwitching | control.py:61-65 | a scan that reaches a backend with `active` up ends on the last backend with `active` up |
| ControlProperties.ScanOutcome | control.py:58-65 | after the scan no backend has `active` up; each one that had it has every flag forced up unless it already was current when reached; the current index is the last backend that had `active` up, and nothing changes when none had |
| ControlProperties.ArbitrationOutcome | control.py:58-73 | after arbitration no backend has `active` up and the current index is the last one that had it; when one had, each other backend in state "play" receives exactly one `pause` and no backend receives anything else; caches are untouched |
| ControlProperties.SwitchForcesFlags | control.py:144-155 | a newly chosen backend that was not current ends with every flag except `active` up |
| ControlProperties.RefreshReadsSongOfCurrentOnly | control.py:77-80 | without `force` only the current backend's song and cover can change |
| ControlProperties.ArbitrationLowersOnlyActive | control.py:58-73 | arbitration lowers no flag other than `active` |
| ControlProperties.RefreshLoopNeverLowers | control.py:77-80 | the refresh loop lowers no flag |
| ControlProperties.CycleLowersOnlyActive | control.py:77-83 | a whole refresh cycle lowers no flag other than `active` |
| ControlProperties.DispatchRouting | control.py:102-122 | `play_pause` is decided by the current backend's state even when a target is named; `switch` changes the current index and sends nothing; any other command reaches exactly the named backend, or the current one |
| ControlProperties.VolumeExamples | control.py:89-100 | absolute 150 is sent as 100, "-" 200 from volume "10" is sent as 0, and "+" on a blank volume fails |

## Left out

- MPD client I/O (`connect`, `disconnect`, `status`, `currentsong`, and the command calls) is not modelled. A `Poll` and the `delivered` flags stand for the server's answers, and issued calls go to a ghost log.
- The Last.fm cover lookup (`connect_lfm`, `get_album`, `get_cover_image`) and the `wget` download are left out because they are network I/O. The model behaves as if Last.fm were never connected.
- `glob` and `os.path.getsize` are file-system I/O. The `folder.*` files are passed in as (path, size) pairs, and each size is taken as that path's size.
- The cover-art thread is left out. The source calls `fetch_coverart` synchronously while building the thread, so it is modelled as a plain call.
- Logging and the `noConnection` log-suppression flag are left out because they are side output only.
- The `config` module is left out; the options used are constructor parameters (`volumeEnabled`, `localCovers`).
- `__getitem__`, `__call__` and `get_active_player` are left out. They are plain lookups; `get_active_player` equals `get_current`.
- The Spotify and CD backends are not part of this model. Their code is not available, so every backend is an MPD `Backend`. Whether a backend's setup yields it is an input.
- The playlist operations `load_playlist`, `get_playlists`, `get_playlist` and `play_item` are left out. As written they name the undefined `self_current` and raise `NameError`. The `radio` command is modelled only as raising.
- MpdControl.ClientCallFor: the `seek` position `parameter * float(time)` is floating point. It is modelled as `SeekScaled(parameter, time)` with the time read by `int`. A fractional duration, which `float` accepts, is therefore modelled as raising.
- MpdControl.Backend.SetVolume: it only logs the request. The source forwards to a `control` method the MPD client does not have, and that exception is not modelled.
- MpdControl.Backend.UpdateAck: it takes one of the eight flags. The source's `update_ack("all")` only adds an unused key named "all" and lowers nothing.
- MpdControl.Backend.ForceUpdate: it takes `None` for "all" or one of the eight flags. Other strings in the source would add unused keys.
- PlayerControl.Controller.SwitchActivePlayer: it requires `id` to be in range. For `id` at or beyond the number of players, the source sets `current` and then fails to index the list. A negative `id` down to minus the number of players is accepted by Python's indexing and leaves `current` negative; afterwards `refresh` (control.py:80) refreshes no backend fully unless `force` is set. Neither case is modelled.
- PlayerControl.Controller.ControlPlayer: it requires a `switch` parameter, and a target `id` other than -1, to be in range. Python's negative indices that count from the end are not modelled.
- Text.ParseInt: it accepts ASCII digits with an optional sign only. Surrounding whitespace, which Python 2's `int` strips from a byte string, is not modelled.
- Text.Lower and Text.Upper change ASCII letters only; Unicode case mapping is not modelled.
