/** The computations of `pages/Library.tsx`: resolving a playlist's ids against the catalog, which
    playlists and rows are usable offline, and the `m:ss` duration label. */
module Library {
  import opened Types
  import opened JsText
  import opened Seqs
  import Transport

  /** The ids of `ids` that some catalog song carries, in order. */
  function KnownIds(catalog: seq<Song>, ids: seq<string>): (r: seq<string>)
    ensures IsSubsequence(r, ids)
  {
    Filter(ids, id => Transport.IndexOfId(catalog, id) >= 0)
  }

  function Ids(songs: seq<Song>): (r: seq<string>)
    ensures |r| == |songs| && forall k :: 0 <= k < |songs| ==> r[k] == songs[k].id
  {
    seq(|songs|, k requires 0 <= k < |songs| => songs[k].id)
  }

  /** `getPlaylistSongs`: each id is looked up with `find` (first match); ids with no song are dropped. */
  function PlaylistSongs(catalog: seq<Song>, ids: seq<string>): (r: seq<Song>)
    ensures |r| <= |ids|
    ensures Ids(r) == KnownIds(catalog, ids)
    ensures forall k :: 0 <= k < |r| ==> r[k] == catalog[Transport.IndexOfId(catalog, r[k].id)]
  {
    if ids == [] then []
    else
      var rest := PlaylistSongs(catalog, ids[1..]);
      KnownIdsCons(catalog, ids);
      match Transport.FindSong(catalog, ids[0])
      case None => rest
      case Some(song) =>
        IdsCons(song, rest);
        [song] + rest
  }

  /** The known ids of a non-empty list: its head when the catalog has it, then those of the tail. */
  lemma KnownIdsCons(catalog: seq<Song>, ids: seq<string>)
    requires ids != []
    ensures KnownIds(catalog, ids) ==
      (if Transport.IndexOfId(catalog, ids[0]) >= 0 then [ids[0]] else []) + KnownIds(catalog, ids[1..])
  {
  }

  lemma IdsCons(song: Song, rest: seq<Song>)
    ensures Ids([song] + rest) == [song.id] + Ids(rest)
  {
  }

  /** When every id resolves, the playlist view lists one song per id, in the playlist's order. */
  lemma {:induction false} PlaylistSongsAllKnown(catalog: seq<Song>, ids: seq<string>)
    requires forall k :: 0 <= k < |ids| ==> Transport.IndexOfId(catalog, ids[k]) >= 0
    ensures |PlaylistSongs(catalog, ids)| == |ids|
    ensures forall k :: 0 <= k < |ids| ==> PlaylistSongs(catalog, ids)[k].id == ids[k]
  {
    var r := PlaylistSongs(catalog, ids);
    assert KnownIds(catalog, ids) == ids;
    assert Ids(r) == ids;
    forall k | 0 <= k < |ids| ensures r[k].id == ids[k] {
      assert Ids(r)[k] == r[k].id;
    }
  }

  /** `playlist.songs.some(id => downloadedSongs.has(id))`. */
  predicate AnyDownloaded(ids: seq<string>, downloaded: set<string>)
  {
    exists i :: 0 <= i < |ids| && ids[i] in downloaded
  }

  /** `isPlaylistAvailableOffline`: true exactly when `handlePlayPlaylist` finds a first downloaded id. */
  function IsAvailableOffline(p: Playlist, downloaded: set<string>): (r: bool)
    ensures r <==> AnyDownloaded(p.songs, downloaded)
  {
    Transport.FirstDownloaded(p.songs, downloaded).Some?
  }

  /** `displayedPlaylists`: offline, only the playlists with a downloaded song, in order; online, all. */
  function DisplayedPlaylists(playlists: seq<Playlist>, isOffline: bool, downloaded: set<string>): (r: seq<Playlist>)
    ensures !isOffline ==> r == playlists
    ensures IsSubsequence(r, playlists)
    ensures forall i :: 0 <= i < |r| ==> !isOffline || AnyDownloaded(r[i].songs, downloaded)
    ensures forall i :: 0 <= i < |playlists| && (!isOffline || AnyDownloaded(playlists[i].songs, downloaded))
              ==> playlists[i] in r
  {
    if isOffline then Filter(playlists, p => IsAvailableOffline(p, downloaded))
    else
      SubsequenceReflexive(playlists);
      playlists
  }

  /** The row flag `isAvailable`: a row can be played unless offline and not downloaded. */
  predicate IsRowAvailable(song: Song, isOffline: bool, downloaded: set<string>): (r: bool)
    ensures !isOffline ==> r
    ensures isOffline ==> (r <==> song.id in downloaded)
  {
    !isOffline || song.id in downloaded
  }

  /** An unavailable row is exactly a song `handlePlaySong` would refuse with the offline alert. */
  lemma RowAvailableIffPlayable(s: Transport.AppState, song: Song)
    ensures IsRowAvailable(song, s.isOfflineMode, s.downloadedSongs) <==> Transport.PlaySongAlert(s, song).None?
  {
  }

  /** The row's duration: whole minutes, a colon, then the seconds padded to two digits. */
  function DurationLabel(d: nat): (r: string)
    ensures var m := NatToString(d / 60); |r| >= |m| + 3 && r[..|m|] == m && r[|m|] == ':'
  {
    NatToString(d / 60) + ":" + PadStart(NatToString(d % 60), 2, '0')
  }

  /** The label reads back to the duration: minutes, then exactly two digits of seconds below 60. */
  lemma {:induction false} DurationLabelReadsBack(d: nat)
    ensures var r := DurationLabel(d);
      var m := NatToString(d / 60);
      AllDigits(m) && |r| == |m| + 3 && r[..|m|] == m && r[|m|] == ':' &&
      AllDigits(r[|m| + 1..]) && ParseNat(r[|m| + 1..]) < 60 &&
      ParseNat(m) * 60 + ParseNat(r[|m| + 1..]) == d
  {
    var m := NatToString(d / 60);
    var ss := NatToString(d % 60);
    NatToStringRoundTrip(d / 60);
    NatToStringRoundTrip(d % 60);
    NatToStringWidth(d % 60);
    var p := PadStart(ss, 2, '0');
    var r := DurationLabel(d);
    assert r == m + [':'] + p;
    assert r[|m| + 1..] == p;
    if |ss| == 1 {
      assert p == ['0'] + ss;
      assert p[..1] == "0";
      assert ParseNat(p[..1]) == ParseNat([]) * 10 + DigitValue('0');
      assert ParseNat(p) == ParseNat(p[..1]) * 10 + DigitValue(p[1]);
      assert p[1..] == ss;
      assert ParseNat(ss) == ParseNat(ss[..0]) * 10 + DigitValue(ss[0]);
    } else {
      assert p == ss;
    }
  }
}
