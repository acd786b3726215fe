/** The computations of `components/Player.tsx`: the `m:ss` time label and the flags the bar is
    drawn from. */
module Player {
  import opened Types
  import opened JsText
  import Library
  import Transport

  /** `formatTime(seconds)`: `Math.floor(seconds / 60)`, a colon, a `0` when the floored remainder
      is below ten, then that remainder. */
  function FormatTime(seconds: real): (r: string)
    ensures var m := IntToString((seconds / 60.0).Floor); |r| > |m| + 1 && r[..|m|] == m && r[|m|] == ':'
  {
    var mins := (seconds / 60.0).Floor;
    var secs := JsRemReal(seconds, 60.0).Floor;
    IntToString(mins) + ":" + (if secs < 10 then "0" else "") + IntToString(secs)
  }

  /** The minutes and seconds `formatTime` takes from a non-negative time are those of its whole
      seconds. */
  lemma SplitOfWholeSeconds(seconds: real)
    requires seconds >= 0.0
    ensures (seconds / 60.0).Floor == seconds.Floor / 60
    ensures JsRemReal(seconds, 60.0).Floor == seconds.Floor % 60
  {
    var f := seconds.Floor;
    var q := f / 60;
    var r := f % 60;
    assert f == 60 * q + r;
    assert (q as real) * 60.0 <= seconds < (q as real) * 60.0 + 60.0;
    assert (q as real) <= seconds / 60.0 < (q as real) + 1.0;
    assert TruncReal(seconds / 60.0) == q;
    assert JsRemReal(seconds, 60.0) == seconds - 60.0 * (q as real);
    assert (r as real) <= seconds - 60.0 * (q as real) < (r as real) + 1.0;
  }

  /** For any non-negative time, the player's label is the library's duration label of its whole
      seconds, so the two screens agree. */
  lemma {:induction false} FormatTimeIsDurationLabel(seconds: real)
    requires seconds >= 0.0
    ensures FormatTime(seconds) == Library.DurationLabel(seconds.Floor)
  {
    var f := seconds.Floor;
    SplitOfWholeSeconds(seconds);
    LabelOfWholeSeconds(f);
  }

  /** The text `formatTime` assembles from the minutes and seconds of `f` is the duration label of `f`. */
  lemma LabelOfWholeSeconds(f: nat)
    ensures IntToString(f / 60) + ":" + (if f % 60 < 10 then "0" else "") + IntToString(f % 60)
         == Library.DurationLabel(f)
  {
    var q, r := f / 60, f % 60;
    PadTwoDigits(r);
    assert Library.DurationLabel(f) == NatToString(q) + ":" + PadStart(NatToString(r), 2, '0');
  }

  /** `padStart(2, '0')` on the seconds adds a `0` exactly below ten. */
  lemma PadTwoDigits(r: nat)
    requires r < 60
    ensures PadStart(NatToString(r), 2, '0') == (if r < 10 then "0" else "") + NatToString(r)
  {
    NatToStringWidth(r);
    var digits := NatToString(r);
    var p := PadStart(digits, 2, '0');
    if r < 10 {
      assert |p| == 2 && p[1..] == digits && p[0] == '0';
      assert p == "0" + digits;
    } else {
      assert p == digits;
    }
  }

  /** On whole seconds, `formatTime` and the library's duration column print the same text. */
  lemma FormatTimeOfWholeSeconds(d: nat)
    ensures FormatTime(d as real) == Library.DurationLabel(d)
  {
    assert (d as real).Floor == d;
    FormatTimeIsDurationLabel(d as real);
  }

  datatype Flags = Flags(isPlaying: bool, isDownloaded: bool, hasLyrics: bool)

  /** What the bar derives from the app state; None when there is no song, where the bar renders
      nothing. A present but empty lyrics text counts as no lyrics. */
  function PlayerFlags(currentSong: Option<Song>, state: PlaybackState, downloaded: set<string>): (r: Option<Flags>)
    ensures r.None? <==> currentSong.None?
    ensures r.Some? ==> (r.value.isPlaying <==> state == Playing)
    ensures r.Some? ==> (r.value.isDownloaded <==> currentSong.value.id in downloaded)
    ensures r.Some? ==> (r.value.hasLyrics <==> currentSong.value.lyrics.Some? && currentSong.value.lyrics.value != "")
  {
    match currentSong
    case None => None
    case Some(song) =>
      Some(Flags(state == Playing, song.id in downloaded, song.lyrics.Some? && song.lyrics.value != ""))
  }

  /** The bar shows "playing" only while a song is current, for every reachable state. */
  lemma PlayingFlagNeedsSong(s: Transport.AppState)
    requires Transport.Inv(s) && s.playbackState == Playing
    ensures PlayerFlags(s.currentSong, s.playbackState, s.downloadedSongs).Some?
    ensures PlayerFlags(s.currentSong, s.playbackState, s.downloadedSongs).value.isPlaying
  {
  }

  /** The progress slider runs from 0 to the song's duration, the volume slider from 0 to 1. */
  function ProgressRange(song: Song): (real, real)
  {
    (0.0, song.duration as real)
  }

  const VolumeRange: (real, real) := (0.0, 1.0)

  /** `setVolume` does not clamp; the volume stays within [0, 1] only because the slider does. */
  lemma VolumeFromSliderInRange(s: Transport.AppState, v: real)
    requires VolumeRange.0 <= v <= VolumeRange.1
    ensures 0.0 <= Transport.SetVolume(s, v).volume <= 1.0
  {
  }

  /** A guest dragging the progress slider of a song no longer than the preview never sees the upsell. */
  lemma ShortSongSeekNeverUpsells(s: Transport.AppState, song: Song, v: real)
    requires s.currentSong == Some(song) && song.duration <= 30
    requires ProgressRange(song).0 <= v <= ProgressRange(song).1
    ensures Transport.Seek(s, v).showUpsell == s.showUpsell
  {
  }
}
