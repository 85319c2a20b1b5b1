# PyRadio playback and recording control, modelled in Dafny

PyRadio (`plknetradioplayer.py`) is a PyQt6 internet-radio player built on
python-vlc. This project models the part of its `RadioApp` window class
that has real logic:

- the **station catalog**: the genre-to-stations dictionary, the sorted
  genre list of `load_genres`, and the playlist lookup of `populate_playlist`;
- the **recording file name**: the station name reduced to its alphanumeric
  characters, the `YYYYMMDD_HHMMSS` time stamp, the path
  `<home>/Music/rec_<name>_<stamp>.mp3`, and the VLC `sout` option that
  transcodes to MP3 (128 kbit/s, 2 channels, 44100 Hz) into that file;
- the **playback/recording state machine**: `start_playback`,
  `play_selected_station`, `toggle_play_pause`, `stop_playback`,
  `toggle_record`, `start_record`, `stop_record`, and the status and track
  decision of the `update_ui` tick. These act on the fields `is_recording`,
  `current_url`, `current_station_name` and `record_path`, on the VLC player,
  and on the display texts.

The VLC player is an abstract device (`Vlc`). It has a state (Stopped,
Playing or Paused) and the media last given to `set_media`, which is a URL
plus the options added to it. The abstraction follows libvlc:
`set_media` tears the previous pipeline down and leaves the player stopped;
`play` with no media does nothing; `pause` toggles between Playing and
Paused; `stop` keeps the media.

Layout:

- `wrappers.dfy`: `Option`, for Python's `None`.
- `catalog.dfy` (module `Catalog`): stations, Python's string order,
  insertion sort for `sorted(...)`, and `dict.get(genre, [])`.
- `recording.dfy` (module `Recording`):
  - the sanitizer, the zero-padded fields, the time stamp, POSIX
    `os.path.join`, the record path and the `sout` option;
  - a parser for each of these, as its round-trip partner.
- `vlc.dfy` (module `Vlc`): the player as a value (`Device`) and as the
  object `RadioApp` drives (`MediaPlayer`).
- `engine.dfy` (module `Engine`):
  - the window's state as a `Session` value, with one pure transition per
    method;
  - the invariant `Inv` that the operations the user interface calls keep;
  - the lemmas stating what each operation guarantees.
- `app.dfy` (module `App`): the class `RadioApp`. Each method runs the
  source's steps on mutable fields and the `MediaPlayer`. Each is proved to
  reach the state the matching `Engine` function gives. The operations the
  user interface calls also keep `Valid()`.

Outside inputs are parameters:

- the home directory (`os.path.expanduser('~')`);
- the clock (`datetime.now()`, as a `DateTime`);
- the playlist selection (an `Option` of a station);
- VLC's Now Playing tag (an `Option` of a string).

The invariant `Engine.Inv` holds after construction and after each operation
the user interface calls: `LoadGenres`, `PopulatePlaylist`, `PlaySelectedStation`, `TogglePlayPause`, `StopPlayback`, `ToggleRecord` and `UpdateUi`. The helpers `start_playback`, `start_record`
and `stop_record` are reached only through these. They need not keep it
on their own: `start_record` on a stopped player would record while stopped,
but `toggle_record` calls it only while playing. The invariant says:

- a URL is stored exactly when a station name is;
- stored URLs are non-empty;
- before any station is chosen, the player is fresh and nothing records;
- while recording there is a record path and the player is not stopped;
- the player holds the current URL, carrying the transcode option for
  `record_path` exactly while recording.

The model keeps these behaviours of the code as written:

- `record_path` is never cleared after a recording ends.
- `set_volume` is not modelled. The code forwards the value with no clamp,
  and the model adds none.
- `toggle_record` refuses only when the player is not playing *and* nothing
  is recording. While recording, it stops the recording even when paused.
- `toggle_play_pause` with a playlist item selected reloads that station
  rather than resuming. A paused recording then ends
  (`Engine.PlayOnPausedRecordingEndsIt`).
- The code handles no backend or file-system error. It catches no exception, so an
  error raised midway leaves the fields as they were at that point.

## Model

| member | source | states |
|---|---|---|
| Catalog.StationsIn | plknetradioplayer.py:188 | a genre that is not a key gives the empty list; every station returned is listed under that genre |
| Catalog.StationsInDeclared | plknetradioplayer.py:185-191 | with unique keys, the playlist of a genre is exactly its declared station list, in declared order |
| Catalog.StationsInEmptyIffAbsent | plknetradioplayer.py:188 | when no genre is empty, the playlist is empty if and only if the genre is not a key |
| Catalog.StationsInUrlsNonEmpty | plknetradioplayer.py:188-191 | if no catalog URL is empty, no playlist item's URL is empty |
| Catalog.Insert | plknetradioplayer.py:183 | inserting into an ascending list keeps it ascending and adds exactly that element |
| Catalog.Sort | plknetradioplayer.py:183 | `sorted` gives an ascending list (Python code-point order) that is a permutation of its input |
| Catalog.SortedGenres | plknetradioplayer.py:183 | definition: `sorted` of the keys; stated by `Catalog.SortedGenresSpec` and `Catalog.SortedUnique` |
| Catalog.SortedGenresSpec | plknetradioplayer.py:181-183 | the genre list is ascending, holds each key as often as the catalog does, and holds exactly the keys |
| Catalog.SortedUnique | plknetradioplayer.py:183 | two ascending permutations of the same keys are equal, so the genre order is determined |
| Catalog.Default | plknetradioplayer.py:37-63 | definition: the built-in genre dictionary, literally; stated by `Catalog.DefaultWellFormed`, `Catalog.DefaultKeys`, `Catalog.DefaultGenres` and `Catalog.DefaultJazz` |
| Catalog.DefaultWellFormed | plknetradioplayer.py:37-63 | the built-in catalog has unique genre keys and no empty URL |
| Catalog.DefaultKeys | plknetradioplayer.py:37-63 | the built-in keys in declared order |
| Catalog.DefaultGenres | plknetradioplayer.py:181-183 | the drop-down lists "80s Hits", "Classic Rock", "Classical", "Electronic / Chill", "Jazz" |
| Catalog.DefaultJazz | plknetradioplayer.py:48-52 | the Jazz playlist is Jazz24, TSF Jazz, Swiss Jazz with their URLs, in that order |
| Recording.Sanitize | plknetradioplayer.py:217 | the sanitized name is no longer than the name and holds only alphanumeric characters |
| Recording.SanitizeIsSubsequence | plknetradioplayer.py:217 | the sanitized name is a subsequence of the name: original order is kept |
| Recording.SanitizeCounts | plknetradioplayer.py:217 | each alphanumeric character occurs as often as in the name, every other character never |
| Recording.SanitizeFixpoint | plknetradioplayer.py:217 | a name is unchanged if and only if it is already all alphanumeric |
| Recording.Pad | plknetradioplayer.py:218 | a zero-padded field has exactly its width and only digits |
| Recording.PadRoundTrip | plknetradioplayer.py:218 | reading a padded field back gives the number when it fits the width |
| Recording.Timestamp | plknetradioplayer.py:218 | the stamp is 15 characters: 8 digits, `_`, 6 digits |
| Recording.TimestampRoundTrip | plknetradioplayer.py:218 | for a valid date and time, parsing the stamp gives back year, month, day, hour, minute and second |
| Recording.JoinPath | plknetradioplayer.py:219 | definition of POSIX `os.path.join` for two parts; its properties are `Recording.JoinPathParts` and `Recording.JoinPathBaseName` |
| Recording.JoinPathParts | plknetradioplayer.py:219 | an absolute second part replaces the first; a relative one is appended after the first, with only a `/` between them, placed exactly when the first part is non-empty and does not already end in `/` |
| Recording.JoinPathBaseName | plknetradioplayer.py:219 | a second part without `/` is the base name of the joined path |
| Recording.MusicFolder | plknetradioplayer.py:316-318 | definition: `home` joined with `Music`; stated by `Recording.MusicFolderUnderHome` |
| Recording.MusicFolderUnderHome | plknetradioplayer.py:316-318 | the music folder is `<home>/Music`, with no doubled separator; its last component is `Music` |
| Recording.RecordFileName | plknetradioplayer.py:217-219 | definition of `rec_<sanitized name>_<stamp>.mp3`; stated by `Recording.RecordFileNameRoundTrip` and `Recording.RecordFileNameHasNoSlash` |
| Recording.RecordPath | plknetradioplayer.py:212-219 | definition: the file name joined to the music folder; stated by `Recording.RecordPathLayout` |
| Recording.RecordFileNameHasNoSlash | plknetradioplayer.py:217-219 | the file name `rec_<name>_<stamp>.mp3` contains no path separator |
| Recording.RecordPathLayout | plknetradioplayer.py:212-219 | the record path is `<music folder>/rec_<name>_<stamp>.mp3`, and its base name is that file name |
| Recording.RecordFileNameRoundTrip | plknetradioplayer.py:217-219 | parsing the file name gives back the sanitized station name and the start time |
| Recording.SoutOption | plknetradioplayer.py:221-224 | definition of the `sout=` option string; stated by `Recording.SoutRoundTrip` |
| Recording.SoutRoundTrip | plknetradioplayer.py:221-224 | the option starts with the fixed MP3 transcode settings and writes to exactly the given path |
| Recording.JazzExample | plknetradioplayer.py:217-219 | "Jazz24!" at 2024-05-01 12:00:00 records to `<home>/Music/rec_Jazz24_20240501_120000.mp3` |
| Vlc.Device.SetMedia | plknetradioplayer.py:226 | definition of `set_media`: the media is loaded and the player left stopped; laws in `Vlc.SetMediaPlayLaws` |
| Vlc.Device.Play | plknetradioplayer.py:227 | definition of `play`: loaded media plays, no media means no change; laws in `Vlc.SetMediaPlayLaws` |
| Vlc.Device.Pause | plknetradioplayer.py:236 | definition of `pause` as a toggle between Playing and Paused; laws in `Vlc.PauseStopLaws` |
| Vlc.Device.Stop | plknetradioplayer.py:252 | definition of `stop`, which keeps the media; laws in `Vlc.PauseStopLaws` |
| Vlc.SetMediaPlayLaws | plknetradioplayer.py:226-227 | `set_media` then `play` plays exactly the new media, whatever was loaded; a second `set_media` replaces the first; `play` without media does nothing; `play` twice is `play` once |
| Vlc.MediaKept | plknetradioplayer.py:227-252 | `play`, `pause` and `stop` keep the loaded media |
| Vlc.PauseStopLaws | plknetradioplayer.py:233-256 | pausing twice resumes; stopping twice is stopping once; a stopped player with media can play again |
| Vlc.MediaPlayer.constructor | plknetradioplayer.py:66-67 | a new player is stopped with no media |
| Vlc.MediaPlayer.IsPlayingNow | plknetradioplayer.py:235 | `is_playing()` is true exactly in state Playing |
| Vlc.MediaPlayer.GetState | plknetradioplayer.py:297 | `get_state()` reports the state |
| Vlc.MediaPlayer.GetMedia | plknetradioplayer.py:301 | `get_media()` reports the loaded media |
| Vlc.MediaPlayer.SetMedia | plknetradioplayer.py:226 | the object follows `Device.SetMedia` |
| Vlc.MediaPlayer.Play | plknetradioplayer.py:227 | the object follows `Device.Play` |
| Vlc.MediaPlayer.Pause | plknetradioplayer.py:236 | the object follows `Device.Pause` |
| Vlc.MediaPlayer.Stop | plknetradioplayer.py:252 | the object follows `Device.Stop` |
| Engine.Init | plknetradioplayer.py:66-70 | definition of the state after `__init__`: fresh player, no station, not recording, initial labels; stated by `Engine.InitInv` |
| Engine.StartPlayback | plknetradioplayer.py:204-231 | definition of `start_playback`, live or recording; stated by `Engine.StartPlaybackLoads` and `Engine.StartPlaybackWithoutStation` |
| Engine.StartRecord | plknetradioplayer.py:273-282 | definition of `start_record`; stated by `Engine.StartRecordEffect` |
| Engine.StopRecord | plknetradioplayer.py:284-293 | definition of `stop_record`; stated by `Engine.StopRecordEffect` |
| Engine.PlaySelectedStation | plknetradioplayer.py:193-202 | definition of `play_selected_station`; stated by `Engine.PlaySelectedStationEffect` |
| Engine.TogglePlayPause | plknetradioplayer.py:233-246 | definition of `toggle_play_pause`, with the selection as a parameter; stated by `Engine.TogglePlayPauseCases` |
| Engine.StopPlayback | plknetradioplayer.py:248-256 | definition of `stop_playback`; stated by `Engine.StopPlaybackEffect` and `Engine.StopPlaybackIdempotent` |
| Engine.ToggleRecord | plknetradioplayer.py:262-271 | definition of `toggle_record`; stated by `Engine.ToggleRecordRefused`, `Engine.ToggleRecordStops` and `Engine.ToggleRecordStarts` |
| Engine.UpdateUi | plknetradioplayer.py:295-307 | definition of one `update_ui` tick, with the Now Playing tag as a parameter; stated by `Engine.UpdateUiEffect` |
| Engine.PopulatePlaylist | plknetradioplayer.py:185-191 | definition: the playlist becomes the genre's stations; stated by `Engine.InvPopulatePlaylist` and `Catalog.StationsInDeclared` |
| Engine.LoadGenres | plknetradioplayer.py:181-183 | definition: the sorted keys are appended to the genre items; stated by `Engine.InvLoadGenres` and `Catalog.SortedGenresSpec` |
| Engine.Inv | plknetradioplayer.py:193-293 | definition of the invariant the operations keep (listed above); it holds initially by `Engine.InitInv` and is kept by the `Engine.Inv*` lemmas |
| Engine.InitInv | plknetradioplayer.py:66-70 | the initial state keeps the invariant: not recording, player stopped |
| Engine.RecordingMeansLive | plknetradioplayer.py:273-282 | under the invariant, while recording: the player is not stopped, a station is set, and the loaded media carries the sink for `record_path` |
| Engine.StartPlaybackLoads | plknetradioplayer.py:210-231 | with a station: freshly loaded media with its URL, now playing; the transcode sink for the new record path is attached if and only if started for recording (`is_for_recording`); status "Buffering..." |
| Engine.StartPlaybackWithoutStation | plknetradioplayer.py:206-208 | with no URL, or an empty one: the player and the fields are unchanged; status "No station selected" |
| Engine.StartRecordEffect | plknetradioplayer.py:273-282 | recording is on, and the same URL plays again with a sink whose destination is the new `record_path`; status "RECORDING..." |
| Engine.StopRecordEffect | plknetradioplayer.py:284-293 | recording is off, and the same URL plays again without a sink; status "Recording saved to Music folder" |
| Engine.ToggleRecordRefused | plknetradioplayer.py:264-266 | neither playing nor recording: recording stays off, the player and the fields are unchanged; status "Cannot record: not playing." |
| Engine.ToggleRecordStops | plknetradioplayer.py:268-269 | while recording, paused or not: recording ends and the station plays live |
| Engine.ToggleRecordStarts | plknetradioplayer.py:270-271 | while playing and not recording: recording starts into the new record path |
| Engine.RecordTwiceResumesLive | plknetradioplayer.py:262-293 | toggling record twice while playing returns to live playback of the same URL without re-selection |
| Engine.StopPlaybackEffect | plknetradioplayer.py:248-256 | stopping ends any recording and stops the player; URL and name are kept; the labels are reset; the current URL stays loaded without a sink |
| Engine.StopPlaybackIdempotent | plknetradioplayer.py:248-256 | stopping twice gives the same state as stopping once |
| Engine.PlaySelectedStationEffect | plknetradioplayer.py:193-202 | name and URL come from the item, recording ends, and the item's URL plays without a sink; recording was on or off before |
| Engine.TogglePlayPauseCases | plknetradioplayer.py:233-246 | if playing: pause, with no new media. Otherwise, with a selection: as `play_selected_station`. Otherwise, with a station: resume the loaded media. Otherwise: no change |
| Engine.PlayOnPausedRecordingEndsIt | plknetradioplayer.py:239-242 | play on a paused recording with an item selected ends the recording and plays the item live |
| Engine.StopThenResume | plknetradioplayer.py:243-245 | choose a station, stop, press play with nothing selected: that station plays again |
| Engine.UpdateUiEffect | plknetradioplayer.py:295-307 | the tick sets "Playing" only when playing and not recording. It shows the Now Playing tag when non-empty, "..." otherwise, and leaves the track text alone without media |
| Engine.InvPlaySelectedStation | plknetradioplayer.py:193-202 | choosing a station with a URL keeps the invariant |
| Engine.InvTogglePlayPause | plknetradioplayer.py:233-246 | play/pause with a playlist selection or none keeps the invariant |
| Engine.InvStopPlayback | plknetradioplayer.py:248-256 | stopping keeps the invariant |
| Engine.InvToggleRecord | plknetradioplayer.py:262-293 | toggling record keeps the invariant |
| Engine.InvUpdateUi | plknetradioplayer.py:295-307 | the tick keeps the invariant |
| Engine.InvPopulatePlaylist | plknetradioplayer.py:185-191 | filling the playlist from a catalog without empty URLs keeps the invariant |
| Engine.InvLoadGenres | plknetradioplayer.py:181-183 | filling the genre list keeps the invariant |
| App.RadioApp.constructor | plknetradioplayer.py:32-94 | fresh player, nothing selected or recording, initial labels, then the sorted genres in the drop-down; `Valid()` holds |
| App.RadioApp.LoadGenres | plknetradioplayer.py:181-183 | the sorted keys are appended to the drop-down items; `Valid()` is kept |
| App.RadioApp.PopulatePlaylist | plknetradioplayer.py:185-191 | the loop leaves the playlist equal to the genre's stations, in order; `Valid()` is kept |
| App.RadioApp.StartPlayback | plknetradioplayer.py:204-231 | the new state is `Engine.StartPlayback` of the old |
| App.RadioApp.StartRecord | plknetradioplayer.py:273-282 | the new state is `Engine.StartRecord` of the old |
| App.RadioApp.StopRecord | plknetradioplayer.py:284-293 | the new state is `Engine.StopRecord` of the old |
| App.RadioApp.ToggleRecord | plknetradioplayer.py:262-271 | the new state is `Engine.ToggleRecord` of the old; `Valid()` is kept |
| App.RadioApp.PlaySelectedStation | plknetradioplayer.py:193-202 | the new state is `Engine.PlaySelectedStation` of the old; `Valid()` is kept |
| App.RadioApp.TogglePlayPause | plknetradioplayer.py:233-246 | the new state is `Engine.TogglePlayPause` of the old; `Valid()` is kept |
| App.RadioApp.StopPlayback | plknetradioplayer.py:248-256 | the new state is `Engine.StopPlayback` of the old; `Valid()` is kept |
| App.RadioApp.UpdateUi | plknetradioplayer.py:295-307 | the new state is `Engine.UpdateUi` of the old; `Valid()` is kept |
| App.StopTwice | plknetradioplayer.py:248-256 | two stops in a row leave exactly the state one stop gives; the application is then valid, not recording and stopped |

## Left out

- Widget construction, layout, style sheet, icon and embedded font (`_create_ui`, `_create_control_button`, `_apply_stylesheet`, `_get_app_icon`, `_get_font_data`) are presentation only. Of the widgets, the model keeps only the label texts, the play/pause glyph, the record button's tooltip (not its colour), the playlist items and the genre items.
- Qt signal wiring is not modelled. Adding genres to the empty drop-down makes Qt call `populate_playlist` for the first genre, which the model does not do. Clicking an item calls `play_selected_station`. Each operation is a separate method here.
- `set_volume` and the initial volume of 80 are a bare pass-through to VLC, with no clamping in the code.
- The 1-second `QTimer` and `closeEvent` are event-loop and resource plumbing. Each `update_ui` tick is a call of `UpdateUi`.
- `main.py` only starts the Qt application.
- VLC internals are not modelled: opening, buffering, decoding, metadata extraction, and the Ended and Error states. Opening and Buffering count as Playing. A stream that ends by itself, or fails, is not modelled, so the invariant covers the application's own operations only.
- The file system is not modelled. Creating the missing music folder (`os.path.exists`, `os.makedirs`) does nothing here, and writing the MP3 file belongs to VLC.
- Engine.StartRecord: treats `os.makedirs` (line 215) as never failing. In the code, a failure raises after `is_recording` is set (line 275) and the player is stopped (line 280), which leaves a stopped player marked as recording, the state `Engine.Inv` excludes. The model does not reach that state.
- Recording.IsAlnum: accepts ASCII letters and digits only. Python's `str.isalnum` also accepts other Unicode letters and digits, which this model drops.
- Recording.Timestamp: an abstract clock reading. It zero-pads years below 1000 to four digits, which the C library's `%Y` may not do.
- Recording.JoinPath: follows POSIX `os.path.join` only. The Windows rules for drives and back-slashes are not modelled.
- App.RadioApp.constructor: takes the catalog as an argument rather than building the literal itself. This keeps the verifier from evaluating `sorted` on the literal. `Catalog.Default` is that literal, and `Catalog.DefaultWellFormed` shows it meets the constructor's requirements.
- App.RadioApp.PlaySelectedStation: requires the item to be one of the playlist's, as the widget only delivers its own items. The same holds for `App.RadioApp.TogglePlayPause` and its selection. An item with an empty URL can therefore not arrive through these methods. `Engine.StartPlayback` still models the "No station selected" branch for an empty or missing URL.
- App.RadioApp.StartPlayback: requires that a stored URL comes with a station name, which every path through the code keeps. In Python, recording with a URL but no name would fail with a `TypeError`; that case is not modelled.
