/**
 * The VLC media player as the application sees it: a playback state and the
 * media item last handed to `set_media`, a stream URL with the options added
 * to it. Decoding, buffering and metadata are VLC's business and are not
 * modelled; `Vlc.Device` gives the state as a value and `MediaPlayer` is the
 * object `RadioApp` drives.
 */
module Vlc {
  import opened Wrappers

  /** VLC's Opening and Buffering count as Playing; NothingSpecial counts as Stopped. */
  datatype PlayState = Stopped | Playing | Paused

  /** `instance.media_new(url)` followed by `media.add_option(o)` for each option. */
  datatype Media = Media(url: string, options: seq<string>)

  /** What the player holds: its state and its media, if any was ever set. */
  datatype Device = Device(state: PlayState, media: Option<Media>) {

    /** `is_playing()`. */
    predicate IsPlaying()
    {
      state == Playing
    }

    /** `set_media(m)`: the previous pipeline is torn down and `m` is loaded, not yet playing. */
    function SetMedia(m: Media): Device
    {
      Device(Stopped, Some(m))
    }

    /** `play()`: starts or resumes the loaded media; without media it does nothing. */
    function Play(): Device
    {
      if media.Some? then this.(state := Playing) else this
    }

    /** `pause()`: toggles between Playing and Paused; a stopped player stays stopped. */
    function Pause(): Device
    {
      match state
      case Playing => this.(state := Paused)
      case Paused => this.(state := Playing)
      case Stopped => this
    }

    /** `stop()`: the player stops and keeps its media for a later `play()`. */
    function Stop(): Device
    {
      this.(state := Stopped)
    }
  }

  /** A freshly created player: nothing loaded, nothing playing. */
  const Fresh := Device(Stopped, None)

  /** Pausing twice resumes, stopping twice is stopping once, and a stopped player with media can play again. */
  lemma PauseStopLaws(d: Device)
    ensures d.state != Stopped ==> d.Pause().Pause() == d
    ensures d.Stop().Stop() == d.Stop()
    ensures d.media.Some? ==> d.Stop().Play().IsPlaying()
  {
  }

  /**
   * Loading and playing: whatever the player held, `set_media` then `play`
   * plays exactly the new media; a second `set_media` replaces the first;
   * `play` without media does nothing, and `play` twice is `play` once.
   */
  lemma SetMediaPlayLaws(d: Device, m: Media, m2: Media)
    ensures d.SetMedia(m).Play() == Device(Playing, Some(m))
    ensures d.SetMedia(m).SetMedia(m2) == d.SetMedia(m2)
    ensures d.media.None? ==> d.Play() == d
    ensures d.Play().Play() == d.Play()
  {
  }

  /** Every operation but `set_media` keeps the loaded media. */
  lemma MediaKept(d: Device)
    ensures d.Play().media == d.media && d.Pause().media == d.media && d.Stop().media == d.media
  {
  }

  /** The `vlc.MediaPlayer` object. */
  class MediaPlayer {
    var state: PlayState
    var media: Option<Media>

    function View(): Device
      reads this
    {
      Device(state, media)
    }

    /** `instance.media_player_new()`. */
    constructor ()
      ensures View() == Fresh
    {
      state := Stopped;
      media := None;
    }

    method IsPlayingNow() returns (b: bool)
      ensures b <==> View().IsPlaying()
    {
      b := state == Playing;
    }

    /** `get_state()`. */
    method GetState() returns (st: PlayState)
      ensures st == View().state
    {
      st := state;
    }

    /** `get_media()`. */
    method GetMedia() returns (m: Option<Media>)
      ensures m == View().media
    {
      m := media;
    }

    method SetMedia(m: Media)
      modifies this
      ensures View() == old(View()).SetMedia(m)
    {
      media := Some(m);
      state := Stopped;
    }

    method Play()
      modifies this
      ensures View() == old(View()).Play()
    {
      if media.Some? {
        state := Playing;
      }
    }

    method Pause()
      modifies this
      ensures View() == old(View()).Pause()
    {
      if state == Playing {
        state := Paused;
      } else if state == Paused {
        state := Playing;
      }
    }

    method Stop()
      modifies this
      ensures View() == old(View()).Stop()
    {
      state := Stopped;
    }
  }
}
