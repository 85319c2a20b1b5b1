/**
 * The `RadioApp` window object with the state its playback and recording
 * methods update. Each method follows the source step by step on the
 * object's fields and on its `MediaPlayer`, and is proved to produce the
 * state the corresponding `Engine` function describes; the ones the user
 * interface calls (all but `StartPlayback`, `StartRecord` and `StopRecord`)
 * also keep `Valid()`.
 */
module App {
  import opened Wrappers
  import opened Vlc
  import Catalog
  import Recording
  import Engine

  class RadioApp {
    /** `self.stations`, fixed at construction. */
    const catalog: Catalog.Catalog
    /** `os.path.expanduser('~')`. */
    const home: string
    /** `self.player`. */
    const player: MediaPlayer

    var isRecording: bool
    var currentUrl: Option<string>
    var currentStationName: Option<string>
    var recordPath: Option<string>

    // what the widgets show
    var stationLabel: string
    var trackLabel: string
    var statusLabel: string
    var playPauseText: string
    var recordTooltip: string
    var playlist: seq<Catalog.Station>
    var genreItems: seq<string>

    function Snapshot(): Engine.Session
      reads this, player
    {
      Engine.Session(player.View(), isRecording, currentUrl, currentStationName, recordPath,
                     Engine.Display(stationLabel, trackLabel, statusLabel, playPauseText, recordTooltip),
                     playlist, genreItems)
    }

    ghost predicate Valid()
      reads this, player
    {
      Engine.Inv(Snapshot()) && Catalog.UrlsNonEmpty(catalog) && Catalog.DistinctLabels(catalog)
    }

    /**
     * `__init__`: the station catalog (`Catalog.Default()` in the application),
     * a fresh player, nothing selected, then `load_genres()`.
     */
    constructor (home: string, stations: Catalog.Catalog)
      requires Catalog.UrlsNonEmpty(stations) && Catalog.DistinctLabels(stations)
      ensures Valid() && fresh(player)
      ensures catalog == stations && this.home == home
      ensures Snapshot() == Engine.LoadGenres(Engine.Init(), stations)
    {
      catalog := stations;
      this.home := home;
      player := new MediaPlayer();
      isRecording := false;
      currentUrl := None;
      currentStationName := None;
      recordPath := None;
      stationLabel := Engine.WelcomeText;
      trackLabel := Engine.SelectText;
      statusLabel := "Stopped";
      playPauseText := Engine.PlayGlyph;
      recordTooltip := "Record";
      playlist := [];
      genreItems := [];
      new;
      Engine.InitInv();
      LoadGenres();
    }

    /** `load_genres`. */
    method LoadGenres()
      requires Valid()
      modifies this
      ensures Snapshot() == Engine.LoadGenres(old(Snapshot()), catalog)
      ensures Valid()
    {
      genreItems := genreItems + Catalog.SortedGenres(catalog);
      Engine.InvLoadGenres(old(Snapshot()), catalog);
    }

    /** `populate_playlist(genre)`: clear the list, then add the genre's stations one by one. */
    method PopulatePlaylist(genre: string)
      requires Valid()
      modifies this
      ensures Snapshot() == Engine.PopulatePlaylist(old(Snapshot()), catalog, genre)
      ensures Valid()
    {
      var stations := Catalog.StationsIn(catalog, genre);
      playlist := [];
      for i := 0 to |stations|
        invariant playlist == stations[..i]
        invariant Snapshot() == old(Snapshot()).(playlist := playlist)
      {
        playlist := playlist + [stations[i]];
      }
      assert stations[..|stations|] == stations;
      Engine.InvPopulatePlaylist(old(Snapshot()), catalog, genre);
    }

    /** `start_playback(is_for_recording)`. */
    method StartPlayback(mode: Engine.Capture)
      requires Engine.Paired(Snapshot())
      modifies this, player
      ensures Snapshot() == Engine.StartPlayback(old(Snapshot()), mode)
    {
      if currentUrl.None? || currentUrl.value == "" {
        statusLabel := "No station selected";
        return;
      }
      var media := Media(currentUrl.value, []);
      if mode.Record? {
        // creating the music folder when it is missing touches only the file system
        recordPath := Some(Recording.RecordPath(mode.home, currentStationName.value, mode.now));
        media := media.(options := media.options + [Recording.SoutOption(recordPath.value)]);
      }
      assert mode.Record? ==> media.options == [Recording.SoutOption(recordPath.value)];
      player.SetMedia(media);
      player.Play();
      playPauseText := Engine.PauseGlyph;
      stationLabel := currentStationName.value;
      statusLabel := "Buffering...";
    }

    /** `start_record`. */
    method StartRecord(now: Recording.DateTime)
      requires Engine.Paired(Snapshot())
      modifies this, player
      ensures Snapshot() == Engine.StartRecord(old(Snapshot()), home, now)
    {
      isRecording := true;
      recordTooltip := "Stop Recording";
      player.Stop();
      StartPlayback(Engine.Record(home, now));
      statusLabel := "RECORDING...";
    }

    /** `stop_record`. */
    method StopRecord()
      requires Engine.Paired(Snapshot())
      modifies this, player
      ensures Snapshot() == Engine.StopRecord(old(Snapshot()))
    {
      isRecording := false;
      recordTooltip := "Record";
      player.Stop();
      StartPlayback(Engine.Live);
      statusLabel := "Recording saved to Music folder";
    }

    /** `toggle_record`; `now` is what `datetime.now()` would return. */
    method ToggleRecord(now: Recording.DateTime)
      requires Valid()
      modifies this, player
      ensures Snapshot() == Engine.ToggleRecord(old(Snapshot()), home, now)
      ensures Valid()
    {
      Engine.InvToggleRecord(Snapshot(), home, now);
      var playing := player.IsPlayingNow();
      if !playing && !isRecording {
        statusLabel := "Cannot record: not playing.";
        return;
      }
      if isRecording {
        StopRecord();
      } else {
        StartRecord(now);
      }
    }

    /** `play_selected_station(item)`; the item is one of the playlist's. */
    method PlaySelectedStation(item: Catalog.Station)
      requires Valid() && item in playlist
      modifies this, player
      ensures Snapshot() == Engine.PlaySelectedStation(old(Snapshot()), item)
      ensures Valid()
    {
      Engine.InvPlaySelectedStation(Snapshot(), item);
      currentStationName := Some(item.name);
      currentUrl := Some(item.url);
      if isRecording {
        StopRecord();
        StartPlayback(Engine.Live);
      } else {
        StartPlayback(Engine.Live);
      }
    }

    /** `toggle_play_pause`; `selected` is the playlist's first selected item, if any. */
    method TogglePlayPause(selected: Option<Catalog.Station>)
      requires Valid() && (selected.Some? ==> selected.value in playlist)
      modifies this, player
      ensures Snapshot() == Engine.TogglePlayPause(old(Snapshot()), selected)
      ensures Valid()
    {
      Engine.InvTogglePlayPause(Snapshot(), selected);
      var playing := player.IsPlayingNow();
      if playing {
        player.Pause();
        playPauseText := Engine.PlayGlyph;
      } else if selected.Some? {
        PlaySelectedStation(selected.value);
      } else if currentUrl.Some? && currentUrl.value != "" {
        player.Play();
        playPauseText := Engine.PauseGlyph;
      }
    }

    /** `stop_playback`. */
    method StopPlayback()
      requires Valid()
      modifies this, player
      ensures Snapshot() == Engine.StopPlayback(old(Snapshot()))
      ensures Valid()
    {
      Engine.InvStopPlayback(Snapshot());
      if isRecording {
        StopRecord();
      }
      player.Stop();
      playPauseText := Engine.PlayGlyph;
      stationLabel := Engine.WelcomeText;
      trackLabel := Engine.SelectText;
      statusLabel := "Stopped";
    }

    /** One tick of `update_ui`; `nowPlaying` is VLC's Now Playing tag for the loaded media. */
    method UpdateUi(nowPlaying: Option<string>)
      requires Valid()
      modifies this
      ensures Snapshot() == Engine.UpdateUi(old(Snapshot()), nowPlaying)
      ensures Valid()
    {
      Engine.InvUpdateUi(Snapshot(), nowPlaying);
      var st := player.GetState();
      if st == Playing {
        if !isRecording {
          statusLabel := "Playing";
        }
      }
      var media := player.GetMedia();
      if media.Some? {
        if nowPlaying.Some? && nowPlaying.value != "" {
          trackLabel := nowPlaying.value;
        } else {
          trackLabel := "...";
        }
      }
    }
  }

  /** Stopping twice in a row leaves the application as one stop does. */
  method StopTwice(app: RadioApp)
    requires app.Valid()
    modifies app, app.player
    ensures app.Snapshot() == Engine.StopPlayback(old(app.Snapshot()))
    ensures app.Valid() && !app.isRecording && app.player.state == Stopped
  {
    app.StopPlayback();
    ghost var once := app.Snapshot();
    app.StopPlayback();
    Engine.StopPlaybackIdempotent(old(app.Snapshot()));
    assert app.Snapshot() == once;
    Engine.StopPlaybackEffect(old(app.Snapshot()));
  }
}
