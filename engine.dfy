/**
 * The playback/recording state machine of `RadioApp`, as pure transitions
 * over a `Session` value: the four fields the methods update
 * (`is_recording`, `current_url`, `current_station_name`, `record_path`),
 * the player they drive, the texts they put on the display, and the
 * playlist and genre list. `App.RadioApp` runs the same steps on mutable
 * fields and is proved to agree with these functions; the lemmas below state
 * what the operations guarantee.
 */
module Engine {
  import opened Wrappers
  import opened Vlc
  import Catalog
  import Recording

  /** The texts on screen: labels, the play/pause glyph and the record button's tooltip. */
  datatype Display = Display(station: string, track: string, status: string, playPause: string, recordTip: string)

  datatype Session = Session(
    player: Device,
    isRecording: bool,
    currentUrl: Option<string>,
    currentStationName: Option<string>,
    recordPath: Option<string>,
    display: Display,
    playlist: seq<Catalog.Station>,
    genres: seq<string>)

  /** `is_for_recording`; recording also reads the home directory and the clock. */
  datatype Capture = Live | Record(home: string, now: Recording.DateTime)

  const PlayGlyph := "\U{25B6}"
  const PauseGlyph := "\U{275A}\U{275A}"
  const WelcomeText := "Welcome to PyRadio"
  const SelectText := "Select a station to begin"

  /** The state after `__init__` up to, not including, `load_genres`. */
  function Init(): Session
  {
    Session(Fresh, false, None, None, None,
            Display(WelcomeText, SelectText, "Stopped", PlayGlyph, "Record"), [], [])
  }

  /** `if not self.current_url` fails: no URL, or the empty string. */
  predicate HasUrl(s: Session)
  {
    s.currentUrl.Some? && s.currentUrl.value != ""
  }

  /** A URL is only ever stored together with its station's name. */
  predicate Paired(s: Session)
  {
    s.currentUrl.Some? ==> s.currentStationName.Some?
  }

  /** The options the media for the current station carries: the sink while recording, none otherwise. */
  function Sink(s: Session): seq<string>
  {
    if s.isRecording && s.recordPath.Some? then [Recording.SoutOption(s.recordPath.value)] else []
  }

  // ---------------------------------------------------------------------
  // The operations.

  /** `start_playback(is_for_recording)`. */
  function StartPlayback(s: Session, mode: Capture): Session
    requires Paired(s)
  {
    if !HasUrl(s) then s.(display := s.display.(status := "No station selected"))
    else
      var url, name := s.currentUrl.value, s.currentStationName.value;
      var path := if mode.Record? then Some(Recording.RecordPath(mode.home, name, mode.now)) else s.recordPath;
      var options := if mode.Record? then [Recording.SoutOption(path.value)] else [];
      s.(player := s.player.SetMedia(Media(url, options)).Play(),
         recordPath := path,
         display := s.display.(playPause := PauseGlyph, station := name, status := "Buffering..."))
  }

  /** `start_record`: set the flag, stop, and start again with the file sink. */
  function StartRecord(s: Session, home: string, now: Recording.DateTime): Session
    requires Paired(s)
  {
    var flagged := s.(isRecording := true, display := s.display.(recordTip := "Stop Recording"));
    var restarted := StartPlayback(flagged.(player := flagged.player.Stop()), Record(home, now));
    restarted.(display := restarted.display.(status := "RECORDING..."))
  }

  /** `stop_record`: clear the flag, stop, and start again without a sink. */
  function StopRecord(s: Session): Session
    requires Paired(s)
  {
    var cleared := s.(isRecording := false, display := s.display.(recordTip := "Record"));
    var restarted := StartPlayback(cleared.(player := cleared.player.Stop()), Live);
    restarted.(display := restarted.display.(status := "Recording saved to Music folder"))
  }

  /** `play_selected_station(item)`. */
  function PlaySelectedStation(s: Session, item: Catalog.Station): Session
  {
    var chosen := s.(currentStationName := Some(item.name), currentUrl := Some(item.url));
    if chosen.isRecording then StartPlayback(StopRecord(chosen), Live)
    else StartPlayback(chosen, Live)
  }

  /** `toggle_play_pause`; `selected` is the first selected playlist item, if any. */
  function TogglePlayPause(s: Session, selected: Option<Catalog.Station>): Session
  {
    if s.player.IsPlaying() then
      s.(player := s.player.Pause(), display := s.display.(playPause := PlayGlyph))
    else if selected.Some? then PlaySelectedStation(s, selected.value)
    else if HasUrl(s) then
      s.(player := s.player.Play(), display := s.display.(playPause := PauseGlyph))
    else s
  }

  /** `stop_playback`. */
  function StopPlayback(s: Session): Session
    requires Paired(s)
  {
    var ended := if s.isRecording then StopRecord(s) else s;
    ended.(player := ended.player.Stop(),
           display := ended.display.(playPause := PlayGlyph, station := WelcomeText,
                                     track := SelectText, status := "Stopped"))
  }

  /** `toggle_record`. */
  function ToggleRecord(s: Session, home: string, now: Recording.DateTime): Session
    requires Paired(s)
  {
    if !s.player.IsPlaying() && !s.isRecording then
      s.(display := s.display.(status := "Cannot record: not playing."))
    else if s.isRecording then StopRecord(s)
    else StartRecord(s, home, now)
  }

  /** One tick of `update_ui`; `nowPlaying` is what VLC reports as the Now Playing tag. */
  function UpdateUi(s: Session, nowPlaying: Option<string>): Session
  {
    var polled := if s.player.state == Playing && !s.isRecording
                  then s.(display := s.display.(status := "Playing")) else s;
    if polled.player.media.None? then polled
    else polled.(display := polled.display.(
      track := if nowPlaying.Some? && nowPlaying.value != "" then nowPlaying.value else "..."))
  }

  /** `populate_playlist(genre)`. */
  function PopulatePlaylist(s: Session, c: Catalog.Catalog, genre: string): Session
  {
    s.(playlist := Catalog.StationsIn(c, genre))
  }

  /** `load_genres`: the sorted keys are appended to the drop-down. */
  function LoadGenres(s: Session, c: Catalog.Catalog): Session
  {
    s.(genres := s.genres + Catalog.SortedGenres(c))
  }

  // ---------------------------------------------------------------------
  // The invariant kept by the operations the user interface calls (load_genres,
  // populate_playlist, play_selected_station, toggle_play_pause, stop_playback,
  // toggle_record, update_ui); start_playback, start_record and stop_record are
  // helpers reached only through them.

  ghost predicate Inv(s: Session)
  {
    && (s.currentUrl.Some? <==> s.currentStationName.Some?)
    && (s.currentUrl.Some? ==> s.currentUrl.value != "")
    && (forall i :: 0 <= i < |s.playlist| ==> s.playlist[i].url != "")
    // nothing was ever played before a station is chosen
    && (s.currentUrl.None? ==> s.player == Fresh && !s.isRecording)
    // a recording always has a file and a live pipeline
    && (s.isRecording ==> s.recordPath.Some? && s.player.state != Stopped)
    // the player holds the current station, with the sink exactly while recording
    && (s.currentUrl.Some? ==> s.player.media == Some(Media(s.currentUrl.value, Sink(s))))
  }

  lemma InitInv()
    ensures Inv(Init())
    ensures !Init().isRecording && Init().player.state == Stopped
  {
  }

  /** Recording never goes on while the player is stopped. */
  lemma RecordingMeansLive(s: Session)
    requires Inv(s)
    ensures s.isRecording ==> s.player.state != Stopped && HasUrl(s)
    ensures s.isRecording ==> s.player.media == Some(Media(s.currentUrl.value, [Recording.SoutOption(s.recordPath.value)]))
  {
  }

  // ---------------------------------------------------------------------
  // start_playback.

  /** With a station, the player is playing a freshly loaded media for it, with the sink exactly when recording. */
  lemma StartPlaybackLoads(s: Session, mode: Capture)
    requires Paired(s) && HasUrl(s)
    ensures var r := StartPlayback(s, mode);
      && r.player.state == Playing
      && r.player.media.Some? && r.player.media.value.url == s.currentUrl.value
      && (r.player.media.value.options != [] <==> mode.Record?)
      && (mode.Record? ==>
            var path := Recording.RecordPath(mode.home, s.currentStationName.value, mode.now);
            r.player.media.value.options == [Recording.SoutOption(path)] && r.recordPath == Some(path))
      && (mode.Live? ==> r.player.media.value.options == [] && r.recordPath == s.recordPath)
      && r.isRecording == s.isRecording && r.currentUrl == s.currentUrl
      && r.currentStationName == s.currentStationName
      && r.display.status == "Buffering..." && r.display.station == s.currentStationName.value
  {
  }

  /** Without a station nothing is loaded or started; only the status says so. */
  lemma StartPlaybackWithoutStation(s: Session, mode: Capture)
    requires Paired(s) && !HasUrl(s)
    ensures var r := StartPlayback(s, mode);
      && r.player == s.player && r.recordPath == s.recordPath && r.isRecording == s.isRecording
      && r.currentUrl == s.currentUrl && r.currentStationName == s.currentStationName
      && r.display.status == "No station selected"
  {
  }

  // ---------------------------------------------------------------------
  // start_record, stop_record, toggle_record.

  /** After `start_record` the pipeline is restarted with the sink writing to the new record path. */
  lemma StartRecordEffect(s: Session, home: string, now: Recording.DateTime)
    requires Paired(s) && HasUrl(s)
    ensures var r := StartRecord(s, home, now);
      var path := Recording.RecordPath(home, s.currentStationName.value, now);
      && r.isRecording && r.recordPath == Some(path)
      && r.player == Device(Playing, Some(Media(s.currentUrl.value, [Recording.SoutOption(path)])))
      && Recording.SinkDestination(r.player.media.value.options[0]) == Some(path)
      && r.currentUrl == s.currentUrl && r.currentStationName == s.currentStationName
      && r.display.status == "RECORDING..." && r.display.recordTip == "Stop Recording"
  {
    Recording.SoutRoundTrip(Recording.RecordPath(home, s.currentStationName.value, now));
  }

  /** After `stop_record` the same URL is playing again, without a sink. */
  lemma StopRecordEffect(s: Session)
    requires Paired(s) && HasUrl(s)
    ensures var r := StopRecord(s);
      && !r.isRecording
      && r.player == Device(Playing, Some(Media(s.currentUrl.value, [])))
      && r.currentUrl == s.currentUrl && r.currentStationName == s.currentStationName
      && r.display.status == "Recording saved to Music folder" && r.display.recordTip == "Record"
  {
  }

  /** Toggling record while neither playing nor recording is refused and changes nothing else. */
  lemma ToggleRecordRefused(s: Session, home: string, now: Recording.DateTime)
    requires Paired(s) && !s.player.IsPlaying() && !s.isRecording
    ensures var r := ToggleRecord(s, home, now);
      && !r.isRecording && r.player == s.player && r.recordPath == s.recordPath
      && r.currentUrl == s.currentUrl && r.currentStationName == s.currentStationName
      && r.display.status == "Cannot record: not playing."
  {
  }

  /** While recording, toggling stops the recording, paused or not, and plays the station live. */
  lemma ToggleRecordStops(s: Session, home: string, now: Recording.DateTime)
    requires Inv(s) && s.isRecording
    ensures var r := ToggleRecord(s, home, now);
      && !r.isRecording && r.player == Device(Playing, Some(Media(s.currentUrl.value, [])))
      && r.currentUrl == s.currentUrl
  {
    StopRecordEffect(s);
  }

  /** While playing without recording, toggling starts a recording of the current station. */
  lemma ToggleRecordStarts(s: Session, home: string, now: Recording.DateTime)
    requires Inv(s) && s.player.IsPlaying() && !s.isRecording
    ensures var r := ToggleRecord(s, home, now);
      var path := Recording.RecordPath(home, s.currentStationName.value, now);
      && r.isRecording && r.recordPath == Some(path)
      && r.player == Device(Playing, Some(Media(s.currentUrl.value, [Recording.SoutOption(path)])))
  {
    StartRecordEffect(s, home, now);
  }

  /** Record on, record off while playing: back to live playback of the same station, no re-selection. */
  lemma RecordTwiceResumesLive(s: Session, home: string, t1: Recording.DateTime, t2: Recording.DateTime)
    requires Inv(s) && s.player.IsPlaying() && !s.isRecording
    ensures var once := ToggleRecord(s, home, t1);
      Inv(once) && !ToggleRecord(once, home, t2).isRecording
      && ToggleRecord(once, home, t2).player == Device(Playing, Some(Media(s.currentUrl.value, [])))
  {
    ToggleRecordStarts(s, home, t1);
    var once := ToggleRecord(s, home, t1);
    InvToggleRecord(s, home, t1);
    ToggleRecordStops(once, home, t2);
  }

  // ---------------------------------------------------------------------
  // stop_playback.

  /** Stopping ends any recording, stops the player and keeps the station for a later resume. */
  lemma StopPlaybackEffect(s: Session)
    requires Paired(s)
    ensures var r := StopPlayback(s);
      && !r.isRecording && r.player.state == Stopped
      && r.currentUrl == s.currentUrl && r.currentStationName == s.currentStationName
      && r.display == Display(WelcomeText, SelectText, "Stopped", PlayGlyph, r.display.recordTip)
      && (Inv(s) ==> r.player.media == if s.currentUrl.Some? then Some(Media(s.currentUrl.value, [])) else None)
  {
    if s.isRecording && HasUrl(s) {
      StopRecordEffect(s);
    }
  }

  /** Stopping twice is stopping once. */
  lemma StopPlaybackIdempotent(s: Session)
    requires Paired(s)
    ensures Paired(StopPlayback(s))
    ensures StopPlayback(StopPlayback(s)) == StopPlayback(s)
  {
    StopPlaybackEffect(s);
  }

  // ---------------------------------------------------------------------
  // play_selected_station and toggle_play_pause.

  /** Choosing a station records its name and URL, ends any recording and plays it live. */
  lemma PlaySelectedStationEffect(s: Session, item: Catalog.Station)
    requires Paired(s)
    ensures var r := PlaySelectedStation(s, item);
      && r.currentStationName == Some(item.name) && r.currentUrl == Some(item.url)
      && !r.isRecording
      && (item.url != "" ==> r.player == Device(Playing, Some(Media(item.url, [])))
                              && r.display.status == "Buffering..." && r.display.station == item.name)
      && (item.url == "" ==> r.display.status == "No station selected")
  {
    var chosen := s.(currentStationName := Some(item.name), currentUrl := Some(item.url));
    if item.url != "" {
      if chosen.isRecording {
        StopRecordEffect(chosen);
      }
    }
  }

  /** The four cases of the play/pause button. */
  lemma TogglePlayPauseCases(s: Session, selected: Option<Catalog.Station>)
    requires Inv(s)
    ensures var r := TogglePlayPause(s, selected);
      && (s.player.IsPlaying() ==>
            r.player.state == Paused && r.player.media == s.player.media
            && r.isRecording == s.isRecording && r.currentUrl == s.currentUrl
            && r.display.playPause == PlayGlyph)
      && (!s.player.IsPlaying() && selected.Some? ==> r == PlaySelectedStation(s, selected.value))
      && (!s.player.IsPlaying() && selected.None? && s.currentUrl.Some? ==>
            r.player == Device(Playing, s.player.media) && r.player.media.Some?
            && r.isRecording == s.isRecording && r.display.playPause == PauseGlyph)
      && (!s.player.IsPlaying() && selected.None? && s.currentUrl.None? ==> r == s)
  {
  }

  /**
   * Pressing play on a paused recording while a playlist item is selected does
   * not resume: the selected station is reloaded live and the recording ends.
   */
  lemma PlayOnPausedRecordingEndsIt(s: Session, item: Catalog.Station)
    requires Inv(s) && s.isRecording && s.player.state == Paused && item.url != ""
    ensures var r := TogglePlayPause(s, Some(item));
      !r.isRecording && r.player == Device(Playing, Some(Media(item.url, [])))
  {
    PlaySelectedStationEffect(s, item);
  }

  /** Choose a station, stop, press play with nothing selected: the same station plays again. */
  lemma StopThenResume(s: Session, item: Catalog.Station)
    requires Inv(s) && item.url != ""
    ensures var stopped := StopPlayback(PlaySelectedStation(s, item));
      Inv(stopped)
      && TogglePlayPause(stopped, None).player == Device(Playing, Some(Media(item.url, [])))
  {
    var played := PlaySelectedStation(s, item);
    PlaySelectedStationEffect(s, item);
    InvPlaySelectedStation(s, item);
    InvStopPlayback(played);
    StopPlaybackEffect(played);
  }

  // ---------------------------------------------------------------------
  // update_ui.

  /** The poller shows "Playing" only when playing without recording, and never overwrites the recording status. */
  lemma UpdateUiEffect(s: Session, nowPlaying: Option<string>)
    ensures var r := UpdateUi(s, nowPlaying);
      && r.player == s.player && r.isRecording == s.isRecording && r.currentUrl == s.currentUrl
      && r.display.status == (if s.player.state == Playing && !s.isRecording then "Playing" else s.display.status)
      && (s.player.media.None? ==> r.display.track == s.display.track)
      && (s.player.media.Some? && nowPlaying.Some? && nowPlaying.value != "" ==> r.display.track == nowPlaying.value)
      && (s.player.media.Some? && (nowPlaying.None? || nowPlaying.value == "") ==> r.display.track == "...")
  {
  }

  // ---------------------------------------------------------------------
  // Each operation the user interface calls keeps the invariant.

  lemma InvPlaySelectedStation(s: Session, item: Catalog.Station)
    requires Inv(s) && item.url != ""
    ensures Inv(PlaySelectedStation(s, item))
  {
    PlaySelectedStationEffect(s, item);
  }

  lemma InvTogglePlayPause(s: Session, selected: Option<Catalog.Station>)
    requires Inv(s)
    requires selected.Some? ==> selected.value in s.playlist
    ensures Inv(TogglePlayPause(s, selected))
  {
    if !s.player.IsPlaying() && selected.Some? {
      InvPlaySelectedStation(s, selected.value);
    }
  }

  lemma InvStopPlayback(s: Session)
    requires Inv(s)
    ensures Inv(StopPlayback(s))
  {
    StopPlaybackEffect(s);
  }

  lemma InvToggleRecord(s: Session, home: string, now: Recording.DateTime)
    requires Inv(s)
    ensures Inv(ToggleRecord(s, home, now))
  {
    if s.isRecording {
      StopRecordEffect(s);
    } else if s.player.IsPlaying() {
      StartRecordEffect(s, home, now);
    }
  }

  lemma InvUpdateUi(s: Session, nowPlaying: Option<string>)
    requires Inv(s)
    ensures Inv(UpdateUi(s, nowPlaying))
  {
  }

  lemma InvPopulatePlaylist(s: Session, c: Catalog.Catalog, genre: string)
    requires Inv(s) && Catalog.UrlsNonEmpty(c)
    ensures Inv(PopulatePlaylist(s, c, genre))
  {
    Catalog.StationsInUrlsNonEmpty(c, genre);
  }

  lemma InvLoadGenres(s: Session, c: Catalog.Catalog)
    requires Inv(s)
    ensures Inv(LoadGenres(s, c))
  {
  }
}
