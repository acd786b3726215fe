/** The playback and session-gating logic of `App.tsx`, as a state record and one transition
    function per handler. The class in `app.dfy` owns the same state as fields and is proved
    to follow these functions; the properties are proved here, about the functions. */
module Transport {
  import opened Types
  import opened JsText

  /** Guest preview limit in seconds (`PREVIEW_DURATION`). */
  const PreviewDuration: real := 30.0

  /** The text of the alert shown when an offline request names a song that is not downloaded. */
  const NotDownloadedAlert: string := "Esta música não está baixada. Conecte-se à internet para ouvir."

  datatype UpsellType = Generic | Preview
  datatype AuthView = WelcomeView | LoginView | AppView
  datatype Tab = HomeTab | SearchTab | LibraryTab | ProfileTab | PricingTab
  datatype TipAction = CreatePlaylistTip | ShareTip | OfflineTip

  /** Everything the App component keeps in `useState` that the handlers read or write. */
  datatype AppState = AppState(
    user: Option<User>,
    authView: AuthView,
    activeTab: Tab,
    currentSong: Option<Song>,
    playbackState: PlaybackState,
    progress: real,
    volume: real,
    playlists: seq<Playlist>,
    showPlaylistModal: bool,
    songToAddToPlaylist: Option<Song>,
    downloadedSongs: set<string>,
    isOfflineMode: bool,
    favoriteSongs: set<string>,
    showUpsell: bool,
    upsellType: UpsellType)

  /** The state of a freshly mounted App. */
  function Initial(playlists: seq<Playlist>): (s: AppState)
    ensures s.currentSong.None? && s.playbackState == Paused && Inv(s)
    ensures s.user.None? && s.authView == WelcomeView && s.playlists == playlists
    ensures s.downloadedSongs == {} && s.favoriteSongs == {} && !s.isOfflineMode && !s.showUpsell
  {
    AppState(None, WelcomeView, HomeTab, None, Paused, 0.0, 0.7, playlists,
             false, None, {}, false, {}, false, Generic)
  }

  predicate IsGuest(s: AppState) { s.user.None? }

  /** The whole-state invariant: nothing is PLAYING unless there is a current song. */
  predicate Inv(s: AppState) { s.playbackState == Playing ==> s.currentSong.Some? }

  /** The `<audio>` element (and so `audioRef.current`) exists only inside the app view with a current song. */
  predicate AudioMounted(s: AppState) { s.currentSong.Some? && s.authView == AppView }

  /** A guest who is playing something is within the preview. */
  predicate WithinPreview(s: AppState)
  {
    IsGuest(s) && s.currentSong.Some? ==> s.progress <= PreviewDuration
  }

  /** `setUpsellType(kind); setShowUpsell(true)`: nothing else changes. */
  function RaiseUpsell(s: AppState, kind: UpsellType): (r: AppState)
    ensures r.showUpsell && r.upsellType == kind
    ensures r.(showUpsell := s.showUpsell, upsellType := s.upsellType) == s
  {
    s.(showUpsell := true, upsellType := kind)
  }

  /** The upsell modal's "not now" button. */
  function DismissUpsell(s: AppState): (r: AppState)
    ensures !r.showUpsell && r.(showUpsell := s.showUpsell) == s
  {
    s.(showUpsell := false)
  }

  /** The upsell modal's register button: the modal closes and the login screen opens (in its
      register mode, which the model does not track). Playback is left as it was. */
  function UpsellRegister(s: AppState): (r: AppState)
    ensures !r.showUpsell && r.authView == LoginView
    ensures r.(showUpsell := s.showUpsell, authView := s.authView) == s
  {
    s.(showUpsell := false, authView := LoginView)
  }

  // ---------- session ----------

  function LoginSuccess(s: AppState, u: User): (r: AppState)
    ensures r.user == Some(u) && r.authView == AppView
    ensures r.currentSong == s.currentSong && r.playbackState == s.playbackState && r.progress == s.progress
    ensures r.(user := s.user, authView := s.authView) == s
  {
    s.(user := Some(u), authView := AppView)
  }

  function GuestAccess(s: AppState): (r: AppState)
    ensures IsGuest(r) && r.authView == AppView
    ensures r.currentSong == s.currentSong && r.playbackState == s.playbackState && r.progress == s.progress
    ensures r.(user := s.user, authView := s.authView) == s
  {
    s.(user := None, authView := AppView)
  }

  /** `handleLogout`: back to the welcome screen with nothing playing and offline mode off.
      Progress, downloads, favourites and playlists are left as they were. */
  function Logout(s: AppState): (r: AppState)
    ensures IsGuest(r) && r.authView == WelcomeView && r.activeTab == HomeTab
    ensures r.currentSong.None? && r.playbackState == Paused && !r.isOfflineMode
    ensures Inv(r) && WithinPreview(r)
    ensures r.progress == s.progress && r.volume == s.volume && r.playlists == s.playlists
    ensures r.downloadedSongs == s.downloadedSongs && r.favoriteSongs == s.favoriteSongs
    ensures r.(user := s.user, authView := s.authView, currentSong := s.currentSong,
               playbackState := s.playbackState, isOfflineMode := s.isOfflineMode, activeTab := s.activeTab) == s
  {
    s.(user := None, authView := WelcomeView, currentSong := None, playbackState := Paused,
       isOfflineMode := false, activeTab := HomeTab)
  }

  /** `handleUpdateUser` (the profile editor's save): the new record replaces the session's user
      and nothing else moves, so a guest edit cannot happen and playback is untouched. */
  function UpdateUser(s: AppState, u: User): (r: AppState)
    ensures r.user == Some(u) && !IsGuest(r)
    ensures r.(user := s.user) == s
    ensures Inv(s) ==> Inv(r)
  {
    s.(user := Some(u))
  }

  // ---------- transport ----------

  /** The offline rejection of `handlePlaySong`. */
  predicate Unavailable(s: AppState, song: Song)
  {
    s.isOfflineMode && song.id !in s.downloadedSongs
  }

  predicate IsCurrent(s: AppState, song: Song)
  {
    s.currentSong.Some? && s.currentSong.value.id == song.id
  }

  /** `togglePlay`. */
  function TogglePlay(s: AppState): (r: AppState)
    ensures s.currentSong.None? ==> r == s
    ensures s.currentSong.Some? && IsGuest(s) && s.progress >= PreviewDuration ==>
              r == RaiseUpsell(s, Preview)
    ensures r.currentSong == s.currentSong && r.progress == s.progress
    ensures r.playbackState != s.playbackState ==>
              s.currentSong.Some? && r.playbackState == (if s.playbackState == Playing then Paused else Playing)
    ensures s.currentSong.Some? && !(IsGuest(s) && s.progress >= PreviewDuration) ==>
              r == s.(playbackState := if s.playbackState == Playing then Paused else Playing)
    ensures Inv(s) ==> Inv(r)
  {
    if s.currentSong.None? then s
    else if IsGuest(s) && s.progress >= PreviewDuration then RaiseUpsell(s, Preview)
    else if s.playbackState == Playing then s.(playbackState := Paused)
    else s.(playbackState := Playing)
  }

  /** `handlePlaySong`. */
  function PlaySong(s: AppState, song: Song): (r: AppState)
    ensures Unavailable(s, song) ==> r == s
    ensures !Unavailable(s, song) && !IsCurrent(s, song) ==>
              r == s.(currentSong := Some(song), playbackState := Playing, progress := 0.0)
    ensures !Unavailable(s, song) && IsCurrent(s, song) ==> r == TogglePlay(s)
    ensures Inv(s) ==> Inv(r)
    ensures WithinPreview(s) ==> WithinPreview(r)
  {
    if Unavailable(s, song) then s
    else if IsCurrent(s, song) then TogglePlay(s)
    else s.(currentSong := Some(song), playbackState := Playing, progress := 0.0)
  }

  /** The alert `handlePlaySong` shows, if any. */
  function PlaySongAlert(s: AppState, song: Song): (a: Option<string>)
    ensures a.Some? <==> Unavailable(s, song)
  {
    if Unavailable(s, song) then Some(NotDownloadedAlert) else None
  }

  /** Requesting a song twice in a row is one start followed by one pause: not a restart. */
  lemma PlaySongTwicePauses(s: AppState, song: Song)
    requires !Unavailable(s, song) && !IsCurrent(s, song)
    ensures PlaySong(PlaySong(s, song), song) ==
              s.(currentSong := Some(song), playbackState := Paused, progress := 0.0)
  {
  }

  /** Two toggles with nothing in between restore a PLAYING or PAUSED state (BUFFERING becomes PAUSED). */
  lemma TogglePlayTwice(s: AppState)
    requires s.currentSong.Some? && !(IsGuest(s) && s.progress >= PreviewDuration)
    ensures TogglePlay(TogglePlay(s)) ==
              if s.playbackState == Buffering then s.(playbackState := Paused) else s
  {
  }

  /** `handleSeek`: a guest may not seek strictly past the preview; otherwise the audio, if mounted, moves. */
  function Seek(s: AppState, val: real): (r: AppState)
    ensures IsGuest(s) && val > PreviewDuration ==> r == RaiseUpsell(s, Preview)
    ensures !(IsGuest(s) && val > PreviewDuration) ==>
              r == if AudioMounted(s) then s.(progress := val) else s
    ensures Inv(s) ==> Inv(r)
    ensures WithinPreview(s) ==> WithinPreview(r)
  {
    if IsGuest(s) && val > PreviewDuration then RaiseUpsell(s, Preview)
    else if AudioMounted(s) then s.(progress := val)
    else s
  }

  /** The guard is strict: a guest may seek to exactly the preview limit. */
  lemma GuestSeekToLimitAllowed(s: AppState)
    requires IsGuest(s) && AudioMounted(s)
    ensures Seek(s, PreviewDuration).progress == PreviewDuration
    ensures !Seek(s, PreviewDuration).showUpsell || s.showUpsell
  {
  }

  /** `setVolume`: stored as given, with no clamping (only the slider bounds it). */
  function SetVolume(s: AppState, v: real): (r: AppState)
    ensures r.volume == v && r.(volume := s.volume) == s
  {
    s.(volume := v)
  }

  /** The sidebar's offline switch, which is not gated on a user. */
  function ToggleOfflineMode(s: AppState): (r: AppState)
    ensures r.isOfflineMode != s.isOfflineMode && r.(isOfflineMode := s.isOfflineMode) == s
  {
    s.(isOfflineMode := !s.isOfflineMode)
  }

  /** One run of `updateProgress`, given the audio element's `currentTime`. */
  function Tick(s: AppState, current: real): (r: AppState)
    ensures !AudioMounted(s) ==> r == s
    ensures AudioMounted(s) && IsGuest(s) && current >= PreviewDuration ==>
              r == s.(playbackState := Paused, upsellType := Preview, showUpsell := true,
                      progress := PreviewDuration)
    ensures AudioMounted(s) && !(IsGuest(s) && current >= PreviewDuration) ==> r == s.(progress := current)
    ensures AudioMounted(s) ==> WithinPreview(r)
    ensures Inv(s) ==> Inv(r)
  {
    if !AudioMounted(s) then s
    else if IsGuest(s) && current >= PreviewDuration then
      s.(playbackState := Paused, upsellType := Preview, showUpsell := true, progress := PreviewDuration)
    else s.(progress := current)
  }

  /** The preview check is level-triggered: while a guest's audio sits at or past the limit, every
      tick raises the upsell again, even after it was dismissed, and leaves the rest as it was. */
  lemma TickRaisesUpsellEveryTime(s: AppState, c1: real, c2: real)
    requires AudioMounted(s) && IsGuest(s) && c1 >= PreviewDuration && c2 >= PreviewDuration
    ensures Tick(DismissUpsell(Tick(s, c1)), c2) == Tick(s, c1)
  {
  }

  /** After the forced pause, a guest cannot resume: `togglePlay` only raises the upsell. */
  lemma NoResumePastPreview(s: AppState, current: real)
    requires AudioMounted(s) && IsGuest(s) && current >= PreviewDuration
    ensures TogglePlay(Tick(s, current)).playbackState == Paused
    ensures TogglePlay(Tick(s, current)).showUpsell
  {
  }

  // ---------- next / previous ----------

  /** `allSongs.findIndex(s => s.id === id)`. */
  function IndexOfId(songs: seq<Song>, id: string): (r: int)
    ensures -1 <= r < |songs|
    ensures r >= 0 ==> songs[r].id == id && forall j :: 0 <= j < r ==> songs[j].id != id
    ensures r == -1 <==> forall j :: 0 <= j < |songs| ==> songs[j].id != id
  {
    if songs == [] then -1
    else if songs[0].id == id then 0
    else
      var k := IndexOfId(songs[1..], id);
      if k < 0 then -1 else k + 1
  }

  /** Position after `k` steps of `(i + 1) % n` from `start` on a circle of `n`. */
  function Cyclic(start: nat, k: nat, n: nat): (i: nat)
    requires n > 0
    ensures i < n
  {
    if k == 0 then start % n else (Cyclic(start, k - 1, n) + 1) % n
  }

  /** Within one lap the walk is plain addition, wrapping once past the end. */
  lemma {:induction false} CyclicClosedForm(start: nat, k: nat, n: nat)
    requires start < n && k < n
    ensures Cyclic(start, k, n) == if start + k < n then start + k else start + k - n
  {
    if k == 0 {
      ModSmall(start, n);
    } else {
      CyclicClosedForm(start, k - 1, n);
      ModNext(Cyclic(start, k - 1, n), n);
    }
  }

  lemma ModSmall(c: int, n: int)
    requires 0 <= c < n
    ensures c % n == c
  {
  }

  lemma ModNext(c: int, n: int)
    requires 0 <= c < n
    ensures (c + 1) % n == if c + 1 == n then 0 else c + 1
  {
  }

  /** Every position of the circle is reached within one lap from any start. */
  lemma CyclicCovers(start: nat, i: nat, n: nat)
    requires start < n && i < n
    ensures var k := if i >= start then i - start else i + n - start; k < n && Cyclic(start, k, n) == i
  {
    var k := if i >= start then i - start else i + n - start;
    CyclicClosedForm(start, k, n);
  }

  /** Is the song `k` steps after `start` downloaded? */
  predicate DownloadedAt(songs: seq<Song>, downloaded: set<string>, start: nat, k: nat)
    requires start < |songs|
  {
    songs[Cyclic(start, k, |songs|)].id in downloaded
  }

  /** The offset of the first downloaded song met walking forward from offset `k`, within one lap. */
  function FirstOffset(songs: seq<Song>, downloaded: set<string>, start: nat, k: nat): Option<nat>
    requires start < |songs| && k <= |songs|
    decreases |songs| - k
  {
    if k == |songs| then None
    else if DownloadedAt(songs, downloaded, start, k) then Some(k)
    else FirstOffset(songs, downloaded, start, k + 1)
  }

  /** The index the offline skip lands on, walking forward from `start` at most one lap. */
  function SkipTarget(songs: seq<Song>, start: nat, downloaded: set<string>): (t: Option<nat>)
    requires start < |songs|
    ensures t.Some? ==> t.value < |songs|
  {
    match FirstOffset(songs, downloaded, start, 0)
    case None => None
    case Some(m) => Some(Cyclic(start, m, |songs|))
  }

  /** The first offset found is downloaded and every offset passed over is not; finding nothing
      means nothing in the rest of the lap is downloaded. */
  lemma {:induction false} FirstOffsetSpec(songs: seq<Song>, downloaded: set<string>, start: nat, k: nat)
    requires start < |songs| && k <= |songs|
    ensures FirstOffset(songs, downloaded, start, k).Some? ==>
      var m := FirstOffset(songs, downloaded, start, k).value;
      k <= m < |songs| && DownloadedAt(songs, downloaded, start, m) &&
      forall m' :: k <= m' < m ==> !DownloadedAt(songs, downloaded, start, m')
    ensures FirstOffset(songs, downloaded, start, k).None? <==>
      forall m :: k <= m < |songs| ==> !DownloadedAt(songs, downloaded, start, m)
    decreases |songs| - k
  {
    if k < |songs| && !DownloadedAt(songs, downloaded, start, k) {
      FirstOffsetSpec(songs, downloaded, start, k + 1);
    }
  }

  /** A target found by the skip is downloaded, and every song passed over on the way is not. */
  lemma SkipTargetSound(songs: seq<Song>, start: nat, downloaded: set<string>)
    requires start < |songs| && SkipTarget(songs, start, downloaded).Some?
    ensures songs[SkipTarget(songs, start, downloaded).value].id in downloaded
    ensures FirstOffset(songs, downloaded, start, 0).Some?
    ensures var m := FirstOffset(songs, downloaded, start, 0).value;
      SkipTarget(songs, start, downloaded).value == Cyclic(start, m, |songs|) &&
      forall m' :: 0 <= m' < m ==> !DownloadedAt(songs, downloaded, start, m')
  {
    FirstOffsetSpec(songs, downloaded, start, 0);
    var m := FirstOffset(songs, downloaded, start, 0).value;
    assert DownloadedAt(songs, downloaded, start, m);
  }

  /** Over a full lap: the skip finds nothing exactly when no song of the catalog is downloaded. */
  lemma SkipTargetNoneIff(songs: seq<Song>, start: nat, downloaded: set<string>)
    requires start < |songs|
    ensures SkipTarget(songs, start, downloaded).None? <==>
      forall i :: 0 <= i < |songs| ==> songs[i].id !in downloaded
  {
    var n := |songs|;
    FirstOffsetSpec(songs, downloaded, start, 0);
    if SkipTarget(songs, start, downloaded).None? {
      forall i | 0 <= i < n ensures songs[i].id !in downloaded {
        CyclicCovers(start, i, n);
        var k := if i >= start then i - start else i + n - start;
        assert !DownloadedAt(songs, downloaded, start, k);
      }
    }
  }

  /** The index `nextSong` hands to `handlePlaySong`, or None when it returns early. */
  function NextTarget(s: AppState, catalog: seq<Song>): (t: Option<nat>)
    ensures t.Some? ==> t.value < |catalog| && s.currentSong.Some?
    ensures t.Some? ==> IndexOfId(catalog, s.currentSong.value.id) >= 0
    ensures s.currentSong.Some? && IndexOfId(catalog, s.currentSong.value.id) >= 0 ==>
              var start := (IndexOfId(catalog, s.currentSong.value.id) + 1) % |catalog|;
              t == if s.isOfflineMode then SkipTarget(catalog, start, s.downloadedSongs) else Some(start)
    ensures t.Some? && !s.isOfflineMode ==>
              t.value == (IndexOfId(catalog, s.currentSong.value.id) + 1) % |catalog|
    ensures t.Some? && s.isOfflineMode ==> catalog[t.value].id in s.downloadedSongs
  {
    if s.currentSong.None? then None
    else
      var ci := IndexOfId(catalog, s.currentSong.value.id);
      if ci < 0 then None
      else
        var start := (ci + 1) % |catalog|;
        if s.isOfflineMode then
          var t := SkipTarget(catalog, start, s.downloadedSongs);
          if t.Some? then SkipTargetSound(catalog, start, s.downloadedSongs); t else t
        else Some(start)
  }

  /** `nextSong` (also the `onEnded` handler of the audio element). */
  function NextSong(s: AppState, catalog: seq<Song>): (r: AppState)
    ensures NextTarget(s, catalog).None? ==> r == s
    ensures NextTarget(s, catalog).Some? ==> r == PlaySong(s, catalog[NextTarget(s, catalog).value])
    ensures Inv(s) ==> Inv(r)
    ensures WithinPreview(s) ==> WithinPreview(r)
  {
    match NextTarget(s, catalog)
    case None => s
    case Some(j) => PlaySong(s, catalog[j])
  }

  /** Offline, `nextSong` from a catalog song gives up exactly when no catalog song is downloaded,
      and then leaves the whole state as it was. */
  lemma NextSongOfflineExhaustion(s: AppState, catalog: seq<Song>)
    requires s.isOfflineMode && s.currentSong.Some?
    requires IndexOfId(catalog, s.currentSong.value.id) >= 0
    ensures NextTarget(s, catalog).None? <==>
              forall i :: 0 <= i < |catalog| ==> catalog[i].id !in s.downloadedSongs
    ensures NextTarget(s, catalog).None? ==> NextSong(s, catalog) == s
  {
    var ci := IndexOfId(catalog, s.currentSong.value.id);
    SkipTargetNoneIff(catalog, (ci + 1) % |catalog|, s.downloadedSongs);
  }

  /** Offline with only the current song downloaded, `nextSong` wraps round to it and so toggles it. */
  lemma NextSongOnlyCurrentDownloaded(s: AppState, catalog: seq<Song>)
    requires s.isOfflineMode && s.currentSong.Some?
    requires var ci := IndexOfId(catalog, s.currentSong.value.id);
      ci >= 0 && catalog[ci].id in s.downloadedSongs &&
      forall i :: 0 <= i < |catalog| && i != ci ==> catalog[i].id !in s.downloadedSongs
    ensures NextSong(s, catalog) == TogglePlay(s)
  {
    var ci := IndexOfId(catalog, s.currentSong.value.id);
    SkipTargetNoneIff(catalog, (ci + 1) % |catalog|, s.downloadedSongs);
    assert NextTarget(s, catalog) == Some(ci);
  }

  /** The index `prevSong` hands to `handlePlaySong`: `(currentIndex - 1 + n) % n` with JavaScript's `%`. */
  function PrevTarget(s: AppState, catalog: seq<Song>): (t: Option<nat>)
    requires |catalog| > 0
    ensures t.Some? <==> s.currentSong.Some?
    ensures t.Some? ==> t.value < |catalog|
    ensures t.Some? && IndexOfId(catalog, s.currentSong.value.id) >= 0 ==>
      t.value == (IndexOfId(catalog, s.currentSong.value.id) - 1 + |catalog|) % |catalog|
    ensures t.Some? ==> t.value == JsRemInt(IndexOfId(catalog, s.currentSong.value.id) - 1 + |catalog|, |catalog|)
  {
    if s.currentSong.None? then None
    else
      var ci := IndexOfId(catalog, s.currentSong.value.id);
      var p := JsRemInt(ci - 1 + |catalog|, |catalog|);
      assert p >= 0 by { if ci - 1 + |catalog| < 0 { assert |catalog| == 1; } }
      Some(p)
  }

  /** `prevSong`; it does not skip songs that are not downloaded. */
  function PrevSong(s: AppState, catalog: seq<Song>): (r: AppState)
    requires |catalog| > 0
    ensures s.currentSong.None? ==> r == s
    ensures s.currentSong.Some? ==> r == PlaySong(s, catalog[PrevTarget(s, catalog).value])
    ensures Inv(s) ==> Inv(r)
    ensures WithinPreview(s) ==> WithinPreview(r)
  {
    match PrevTarget(s, catalog)
    case None => s
    case Some(j) => PlaySong(s, catalog[j])
  }

  /** Offline, `prevSong` onto a song that is not downloaded changes nothing (the alert is all). */
  lemma PrevSongOfflineBlocked(s: AppState, catalog: seq<Song>)
    requires |catalog| > 0 && s.isOfflineMode && s.currentSong.Some?
    requires catalog[PrevTarget(s, catalog).value].id !in s.downloadedSongs
    ensures PrevSong(s, catalog) == s
  {
  }

  // ---------- downloads and favourites ----------

  /** `new Set(prev)` then `delete` if present, else `add`. */
  function Toggle(ids: set<string>, id: string): (r: set<string>)
    ensures id in r <==> id !in ids
    ensures forall x :: x != id ==> (x in r <==> x in ids)
  {
    if id in ids then ids - {id} else ids + {id}
  }

  lemma ToggleTwice(ids: set<string>, id: string)
    ensures Toggle(Toggle(ids, id), id) == ids
  {
  }

  /** `toggleDownload`: a guest only gets the generic upsell. */
  function ToggleDownload(s: AppState, id: string): (r: AppState)
    ensures IsGuest(s) ==> r == RaiseUpsell(s, Generic)
    ensures !IsGuest(s) ==> r == s.(downloadedSongs := Toggle(s.downloadedSongs, id))
    ensures Inv(s) ==> Inv(r)
  {
    if IsGuest(s) then RaiseUpsell(s, Generic)
    else s.(downloadedSongs := Toggle(s.downloadedSongs, id))
  }

  /** `toggleFavorite`: the same flip, open to guests. */
  function ToggleFavorite(s: AppState, id: string): (r: AppState)
    ensures r == s.(favoriteSongs := Toggle(s.favoriteSongs, id))
  {
    s.(favoriteSongs := Toggle(s.favoriteSongs, id))
  }

  /** For a user, two download toggles of one id restore the state. */
  lemma ToggleDownloadTwice(s: AppState, id: string)
    requires !IsGuest(s)
    ensures ToggleDownload(ToggleDownload(s, id), id) == s
  {
    ToggleTwice(s.downloadedSongs, id);
  }

  // ---------- playlists ----------

  predicate NoDuplicates(ids: seq<string>)
  {
    forall i, j :: 0 <= i < j < |ids| ==> ids[i] != ids[j]
  }

  /** The per-playlist step of `addSongToPlaylist`'s `map`. */
  function AddSong(p: Playlist, playlistId: string, songId: string): (q: Playlist)
    ensures p.id != playlistId ==> q == p
    ensures p.id == playlistId ==> songId in q.songs
    ensures q.(songs := p.songs) == p
    ensures q.songs == p.songs || q.songs == p.songs + [songId]
    ensures NoDuplicates(p.songs) ==> NoDuplicates(q.songs)
  {
    if p.id == playlistId && songId !in p.songs then p.(songs := p.songs + [songId]) else p
  }

  function AddToPlaylists(ps: seq<Playlist>, playlistId: string, songId: string): (r: seq<Playlist>)
    ensures |r| == |ps|
    ensures forall i :: 0 <= i < |ps| ==> r[i] == AddSong(ps[i], playlistId, songId)
  {
    seq(|ps|, i requires 0 <= i < |ps| => AddSong(ps[i], playlistId, songId))
  }

  /** Adding a song changes only the playlists with the target id and never creates a duplicate. */
  lemma AddToPlaylistsChangesOnlyTarget(ps: seq<Playlist>, playlistId: string, songId: string)
    requires forall i :: 0 <= i < |ps| ==> NoDuplicates(ps[i].songs)
    ensures var r := AddToPlaylists(ps, playlistId, songId);
      |r| == |ps| &&
      (forall i :: 0 <= i < |ps| && ps[i].id != playlistId ==> r[i] == ps[i]) &&
      (forall i :: 0 <= i < |ps| && ps[i].id == playlistId ==> songId in r[i].songs) &&
      (forall i :: 0 <= i < |ps| ==> NoDuplicates(r[i].songs))
  {
  }

  /** `prev.filter(p => p.id !== id)`. */
  function RemoveById(ps: seq<Playlist>, id: string): (r: seq<Playlist>)
    ensures |r| <= |ps|
    ensures forall p :: p in r ==> p in ps && p.id != id
    ensures forall p :: p in ps && p.id != id ==> p in r
  {
    if ps == [] then []
    else if ps[0].id == id then RemoveById(ps[1..], id)
    else [ps[0]] + RemoveById(ps[1..], id)
  }

  /** The filter keeps the order of what remains: it distributes over concatenation. */
  lemma {:induction false} RemoveByIdConcat(a: seq<Playlist>, b: seq<Playlist>, id: string)
    ensures RemoveById(a + b, id) == RemoveById(a, id) + RemoveById(b, id)
  {
    if a == [] {
      assert a + b == b;
    } else {
      assert (a + b)[0] == a[0];
      assert (a + b)[1..] == a[1..] + b;
      RemoveByIdConcat(a[1..], b, id);
    }
  }

  /** Deleting an id that no playlist has changes nothing. */
  lemma {:induction false} RemoveByIdAbsent(ps: seq<Playlist>, id: string)
    requires forall i :: 0 <= i < |ps| ==> ps[i].id != id
    ensures RemoveById(ps, id) == ps
  {
    if ps != [] {
      RemoveByIdAbsent(ps[1..], id);
    }
  }

  function CountUserCreated(ps: seq<Playlist>): (n: nat)
    ensures n <= |ps|
  {
    if ps == [] then 0 else (if ps[0].isUserCreated then 1 else 0) + CountUserCreated(ps[1..])
  }

  /** The playlist `createPlaylist` builds; `now` stands for `Date.now()`. */
  function NewPlaylist(ps: seq<Playlist>, now: int): (p: Playlist)
    ensures p.songs == [] && p.isUserCreated
    ensures p.id == "user-p" + IntToString(now)
    ensures p.title == "Minha Playlist #" + IntToString(CountUserCreated(ps) + 1)
  {
    Playlist("user-p" + IntToString(now),
             "Minha Playlist #" + IntToString(CountUserCreated(ps) + 1),
             "Minha coleção de modas",
             "https://picsum.photos/300/300?grayscale",
             [], true)
  }

  /** What `createPlaylist` returns: null for a guest. */
  function CreatedPlaylist(s: AppState, now: int): (p: Option<Playlist>)
    ensures p.None? <==> IsGuest(s)
    ensures p.Some? ==> p.value == NewPlaylist(s.playlists, now)
  {
    if IsGuest(s) then None else Some(NewPlaylist(s.playlists, now))
  }

  /** `createPlaylist`: a guest gets the generic upsell, a user one more empty playlist at the end. */
  function CreatePlaylist(s: AppState, now: int): (r: AppState)
    ensures IsGuest(s) ==> r == RaiseUpsell(s, Generic)
    ensures !IsGuest(s) ==> r == s.(playlists := s.playlists + [CreatedPlaylist(s, now).value])
    ensures !IsGuest(s) ==> r.playlists == s.playlists + [NewPlaylist(s.playlists, now)]
    ensures !IsGuest(s) ==> |r.playlists| == |s.playlists| + 1 && CountUserCreated(r.playlists) == CountUserCreated(s.playlists) + 1
    ensures Inv(s) ==> Inv(r)
  {
    if IsGuest(s) then RaiseUpsell(s, Generic)
    else
      var p := NewPlaylist(s.playlists, now);
      CountUserCreatedAppend(s.playlists, p);
      s.(playlists := s.playlists + [p])
  }

  lemma {:induction false} CountUserCreatedAppend(ps: seq<Playlist>, p: Playlist)
    ensures CountUserCreated(ps + [p]) == CountUserCreated(ps) + (if p.isUserCreated then 1 else 0)
  {
    if ps != [] {
      assert (ps + [p])[1..] == ps[1..] + [p];
      CountUserCreatedAppend(ps[1..], p);
    }
  }

  /** `deletePlaylist` (not gated). */
  function DeletePlaylist(s: AppState, id: string): (r: AppState)
    ensures r == s.(playlists := RemoveById(s.playlists, id))
  {
    s.(playlists := RemoveById(s.playlists, id))
  }

  /** `openAddToPlaylistModal`, gated by `requireUser`. */
  function OpenAddToPlaylist(s: AppState, song: Song): (r: AppState)
    ensures IsGuest(s) ==> r == RaiseUpsell(s, Generic)
    ensures !IsGuest(s) ==> r.songToAddToPlaylist == Some(song) && r.showPlaylistModal
    ensures !IsGuest(s) ==> r == s.(songToAddToPlaylist := Some(song), showPlaylistModal := true)
    ensures r.playlists == s.playlists && r.currentSong == s.currentSong && r.playbackState == s.playbackState
  {
    if IsGuest(s) then RaiseUpsell(s, Generic)
    else s.(songToAddToPlaylist := Some(song), showPlaylistModal := true)
  }

  /** `addSongToPlaylist`: adds the pending song to the playlists with that id and closes the modal. */
  function AddSongToPlaylist(s: AppState, playlistId: string): (r: AppState)
    ensures s.songToAddToPlaylist.None? ==> r == s
    ensures s.songToAddToPlaylist.Some? ==>
      r.playlists == AddToPlaylists(s.playlists, playlistId, s.songToAddToPlaylist.value.id) &&
      !r.showPlaylistModal && r.songToAddToPlaylist.None? &&
      r.(playlists := s.playlists, showPlaylistModal := s.showPlaylistModal,
         songToAddToPlaylist := s.songToAddToPlaylist) == s
  {
    match s.songToAddToPlaylist
    case None => s
    case Some(song) =>
      s.(playlists := AddToPlaylists(s.playlists, playlistId, song.id),
         showPlaylistModal := false, songToAddToPlaylist := None)
  }

  /** `allSongs.find(s => s.id === id)`. */
  function FindSong(catalog: seq<Song>, id: string): (r: Option<Song>)
    ensures r.Some? <==> IndexOfId(catalog, id) >= 0
    ensures r.Some? ==> r.value == catalog[IndexOfId(catalog, id)]
  {
    var i := IndexOfId(catalog, id);
    if i < 0 then None else Some(catalog[i])
  }

  /** `playlist.songs.find(id => downloadedSongs.has(id))`. */
  function FirstDownloaded(ids: seq<string>, downloaded: set<string>): (r: Option<string>)
    ensures r.Some? ==> r.value in ids && r.value in downloaded
    ensures r.Some? ==> exists k :: 0 <= k < |ids| && ids[k] == r.value &&
                                  forall j :: 0 <= j < k ==> ids[j] !in downloaded
    ensures r.None? <==> forall i :: 0 <= i < |ids| ==> ids[i] !in downloaded
  {
    if ids == [] then None
    else if ids[0] in downloaded then Some(ids[0])
    else
      var r := FirstDownloaded(ids[1..], downloaded);
      if r.Some? then
        var k :| 0 <= k < |ids| - 1 && ids[1..][k] == r.value &&
                 forall j :: 0 <= j < k ==> ids[1..][j] !in downloaded;
        assert ids[k + 1] == r.value && forall j :: 0 <= j < k + 1 ==> ids[j] !in downloaded;
        r
      else r
  }

  /** `handlePlayPlaylist`. */
  function PlayPlaylist(s: AppState, catalog: seq<Song>, p: Playlist): (r: AppState)
    ensures p.songs == [] ==> r == s
    ensures Inv(s) ==> Inv(r)
    ensures WithinPreview(s) ==> WithinPreview(r)
    ensures s.isOfflineMode ==>
      r == s || exists id :: id in p.songs && id in s.downloadedSongs && FindSong(catalog, id).Some? &&
                             r == PlaySong(s, FindSong(catalog, id).value)
    ensures p.songs != [] && !s.isOfflineMode ==>
      r == match FindSong(catalog, p.songs[0]) case None => s case Some(x) => PlaySong(s, x)
    ensures p.songs != [] && s.isOfflineMode ==>
      r == match FirstDownloaded(p.songs, s.downloadedSongs)
           case None => s
           case Some(id) => (match FindSong(catalog, id) case None => s case Some(x) => PlaySong(s, x))
  {
    if p.songs == [] then s
    else if s.isOfflineMode then
      match FirstDownloaded(p.songs, s.downloadedSongs)
      case None => s
      case Some(id) =>
        match FindSong(catalog, id)
        case None => s
        case Some(song) => PlaySong(s, song)
    else
      match FindSong(catalog, p.songs[0])
      case None => s
      case Some(song) => PlaySong(s, song)
  }

  /** Offline, playing a playlist never hits the not-downloaded rejection. */
  lemma PlayPlaylistOfflineNeverRejected(s: AppState, catalog: seq<Song>, p: Playlist)
    requires s.isOfflineMode
    requires FirstDownloaded(p.songs, s.downloadedSongs).Some?
    requires FindSong(catalog, FirstDownloaded(p.songs, s.downloadedSongs).value).Some?
    ensures !Unavailable(s, FindSong(catalog, FirstDownloaded(p.songs, s.downloadedSongs).value).value)
  {
  }

  // ---------- tips ----------

  /** `handleTipAction`; sharing opens a browser window and changes no state. */
  function TipActionStep(s: AppState, action: TipAction, now: int): (r: AppState)
    ensures IsGuest(s) && action != ShareTip ==> r == RaiseUpsell(s, Generic)
    ensures action == ShareTip ==> r == s
    ensures !IsGuest(s) && action == OfflineTip ==> r == ToggleOfflineMode(s)
    ensures !IsGuest(s) && action == CreatePlaylistTip ==> r == CreatePlaylist(s.(activeTab := LibraryTab), now)
    ensures Inv(s) ==> Inv(r)
  {
    match action
    case CreatePlaylistTip =>
      if !IsGuest(s) then CreatePlaylist(s.(activeTab := LibraryTab), now) else RaiseUpsell(s, Generic)
    case ShareTip => s
    case OfflineTip =>
      if !IsGuest(s) then ToggleOfflineMode(s) else RaiseUpsell(s, Generic)
  }

  /** The sidebar's and bottom bar's "new playlist" buttons: `requireUser(createPlaylist)`, then the
      library tab, which (unlike the home tip) is opened for a guest too. */
  function NavCreatePlaylist(s: AppState, now: int): (r: AppState)
    ensures r.activeTab == LibraryTab
    ensures r.(activeTab := s.activeTab) == CreatePlaylist(s, now).(activeTab := s.activeTab)
  {
    CreatePlaylist(s, now).(activeTab := LibraryTab)
  }

  /** For a user the two routes to a new playlist agree; for a guest both raise the upsell, but only
      the navigation button moves to the library tab. */
  lemma NavAndTipCreatePlaylist(s: AppState, now: int)
    ensures !IsGuest(s) ==> NavCreatePlaylist(s, now) == TipActionStep(s, CreatePlaylistTip, now)
    ensures IsGuest(s) ==> NavCreatePlaylist(s, now).showUpsell && TipActionStep(s, CreatePlaylistTip, now).showUpsell
    ensures IsGuest(s) && s.activeTab != LibraryTab ==>
              NavCreatePlaylist(s, now).activeTab != TipActionStep(s, CreatePlaylistTip, now).activeTab
  {
  }

  /** The gate: for a guest, each library mutation only raises the generic upsell, while
      favouriting is let through. */
  lemma GuestGate(s: AppState, id: string, now: int)
    requires IsGuest(s)
    ensures ToggleDownload(s, id) == CreatePlaylist(s, now) == TipActionStep(s, OfflineTip, now)
         == TipActionStep(s, CreatePlaylistTip, now) == RaiseUpsell(s, Generic)
    ensures ToggleFavorite(s, id).favoriteSongs == Toggle(s.favoriteSongs, id)
  {
  }
}
