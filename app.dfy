/** The App component of `App.tsx` as an object: its `useState` slots are fields, its handlers are
    methods that update them in place, and each method is proved to move the state exactly as
    the matching function of `Transport` says. The catalog (`allSongs`) is never replaced in
    `App.tsx`, so it is a constant here. */
module App {
  import opened Types
  import Transport
  import JsText

  /** The skip loop of `nextSong`: walk forward from `start` past songs that are not downloaded,
      for at most one lap. `found` is false when the lap ran out (`loopCount >= allSongs.length`). */
  method ScanForward(songs: seq<Song>, downloaded: set<string>, start: nat) returns (found: bool, index: nat)
    requires start < |songs|
    ensures index < |songs|
    ensures found <==> Transport.SkipTarget(songs, start, downloaded).Some?
    ensures found ==> index == Transport.SkipTarget(songs, start, downloaded).value
    ensures found ==> songs[index].id in downloaded
  {
    var n := |songs|;
    var nextIndex := start;
    var loopCount := 0;
    Transport.ModSmall(start, n);
    while songs[nextIndex].id !in downloaded && loopCount < n
      invariant 0 <= loopCount <= n
      invariant nextIndex == Transport.Cyclic(start, loopCount, n)
      invariant Transport.FirstOffset(songs, downloaded, start, loopCount)
             == Transport.FirstOffset(songs, downloaded, start, 0)
    {
      nextIndex := (nextIndex + 1) % n;
      loopCount := loopCount + 1;
    }
    found := loopCount < n;
    index := nextIndex;
  }

  class AppComponent {
    const allSongs: seq<Song>
    var user: Option<User>
    var authView: Transport.AuthView
    var activeTab: Transport.Tab
    var currentSong: Option<Song>
    var playbackState: PlaybackState
    var progress: real
    var volume: real
    var playlists: seq<Playlist>
    var showPlaylistModal: bool
    var songToAddToPlaylist: Option<Song>
    var downloadedSongs: set<string>
    var isOfflineMode: bool
    var favoriteSongs: set<string>
    var showUpsell: bool
    var upsellType: Transport.UpsellType

    /** The fields, read as one state record. */
    function State(): Transport.AppState
      reads this
    {
      Transport.AppState(user, authView, activeTab, currentSong, playbackState, progress, volume,
                         playlists, showPlaylistModal, songToAddToPlaylist, downloadedSongs,
                         isOfflineMode, favoriteSongs, showUpsell, upsellType)
    }

    ghost predicate Valid()
      reads this
    {
      |allSongs| > 0 && Transport.Inv(State())
    }

    constructor (catalog: seq<Song>, initialPlaylists: seq<Playlist>)
      requires |catalog| > 0
      ensures Valid() && allSongs == catalog
      ensures State() == Transport.Initial(initialPlaylists)
    {
      allSongs := catalog;
      user := None;
      authView := Transport.WelcomeView;
      activeTab := Transport.HomeTab;
      currentSong := None;
      playbackState := Paused;
      progress := 0.0;
      volume := 0.7;
      playlists := initialPlaylists;
      showPlaylistModal := false;
      songToAddToPlaylist := None;
      downloadedSongs := {};
      isOfflineMode := false;
      favoriteSongs := {};
      showUpsell := false;
      upsellType := Transport.Generic;
    }

    // ---------- session ----------

    method HandleLoginSuccess(loggedInUser: User)
      requires Valid()
      modifies this
      ensures Valid() && State() == Transport.LoginSuccess(old(State()), loggedInUser)
    {
      user := Some(loggedInUser);
      authView := Transport.AppView;
    }

    method HandleGuestAccess()
      requires Valid()
      modifies this
      ensures Valid() && State() == Transport.GuestAccess(old(State()))
    {
      user := None;
      authView := Transport.AppView;
    }

    method HandleLogout()
      requires Valid()
      modifies this
      ensures Valid() && State() == Transport.Logout(old(State()))
    {
      ghost var before := State();
      user := None;
      authView := Transport.WelcomeView;
      currentSong := None;
      playbackState := Paused;
      isOfflineMode := false;
      activeTab := Transport.HomeTab;
      assert State() == before.(user := None, authView := Transport.WelcomeView, currentSong := None,
                                playbackState := Paused, isOfflineMode := false, activeTab := Transport.HomeTab);
    }

    method HandleUpdateUser(updatedUser: User)
      requires Valid()
      modifies this
      ensures Valid() && State() == Transport.UpdateUser(old(State()), updatedUser)
    {
      user := Some(updatedUser);
    }

    method HandleUpsellRegister()
      requires Valid()
      modifies this
      ensures Valid() && State() == Transport.UpsellRegister(old(State()))
    {
      showUpsell := false;
      authView := Transport.LoginView;
    }

    /** `requireUser`: `allowed` says whether the guarded action may run; a guest gets the generic upsell. */
    method RequireUser() returns (allowed: bool)
      requires Valid()
      modifies this
      ensures Valid() && allowed == !Transport.IsGuest(old(State()))
      ensures State() == if allowed then old(State()) else Transport.RaiseUpsell(old(State()), Transport.Generic)
    {
      if user.None? {
        upsellType := Transport.Generic;
        showUpsell := true;
        allowed := false;
      } else {
        allowed := true;
      }
    }

    method CloseUpsell()
      requires Valid()
      modifies this
      ensures Valid() && State() == Transport.DismissUpsell(old(State()))
    {
      showUpsell := false;
    }

    // ---------- transport ----------

    method TogglePlay()
      requires Valid()
      modifies this
      ensures Valid() && State() == Transport.TogglePlay(old(State()))
    {
      if currentSong.None? {
        return;
      }
      if user.None? && progress >= Transport.PreviewDuration {
        upsellType := Transport.Preview;
        showUpsell := true;
        return;
      }
      if playbackState == Playing {
        playbackState := Paused;
      } else {
        playbackState := Playing;
      }
    }

    /** `handlePlaySong`; `alert` is the message the source shows with `alert(...)`. */
    method HandlePlaySong(song: Song) returns (alert: Option<string>)
      requires Valid()
      modifies this
      ensures Valid() && State() == Transport.PlaySong(old(State()), song)
      ensures alert == Transport.PlaySongAlert(old(State()), song)
    {
      if isOfflineMode && song.id !in downloadedSongs {
        alert := Some(Transport.NotDownloadedAlert);
        return;
      }
      alert := None;
      if currentSong.Some? && currentSong.value.id == song.id {
        TogglePlay();
      } else {
        currentSong := Some(song);
        playbackState := Playing;
        progress := 0.0;
      }
    }

    method NextSong() returns (alert: Option<string>)
      requires Valid()
      modifies this
      ensures Valid() && State() == Transport.NextSong(old(State()), allSongs)
      ensures alert.None?
    {
      alert := None;
      if currentSong.None? {
        return;
      }
      var currentIndex := Transport.IndexOfId(allSongs, currentSong.value.id);
      if currentIndex == -1 {
        return;
      }
      var nextIndex := (currentIndex + 1) % |allSongs|;
      if isOfflineMode {
        var found;
        found, nextIndex := ScanForward(allSongs, downloadedSongs, nextIndex);
        if !found {
          return;
        }
      }
      alert := HandlePlaySong(allSongs[nextIndex]);
    }

    method PrevSong() returns (alert: Option<string>)
      requires Valid()
      modifies this
      ensures Valid() && State() == Transport.PrevSong(old(State()), allSongs)
      ensures old(currentSong).None? ==> alert.None?
      ensures old(currentSong).Some? ==>
        alert == Transport.PlaySongAlert(old(State()), allSongs[Transport.PrevTarget(old(State()), allSongs).value])
    {
      alert := None;
      if currentSong.None? {
        return;
      }
      var currentIndex := Transport.IndexOfId(allSongs, currentSong.value.id);
      // JavaScript's `%` truncates: a missing song (index -1) with one song in the catalog gives -0
      var prevIndex := JsText.JsRemInt(currentIndex - 1 + |allSongs|, |allSongs|);
      assert prevIndex >= 0 by { if currentIndex - 1 + |allSongs| < 0 { assert |allSongs| == 1; } }
      alert := HandlePlaySong(allSongs[prevIndex]);
    }

    method HandlePlayPlaylist(playlist: Playlist) returns (alert: Option<string>)
      requires Valid()
      modifies this
      ensures Valid() && State() == Transport.PlayPlaylist(old(State()), allSongs, playlist)
      ensures alert.None?
    {
      alert := None;
      if |playlist.songs| > 0 {
        var firstSong := Transport.FindSong(allSongs, playlist.songs[0]);
        if isOfflineMode {
          var firstDownloadedId := Transport.FirstDownloaded(playlist.songs, downloadedSongs);
          if firstDownloadedId.Some? {
            var playObj := Transport.FindSong(allSongs, firstDownloadedId.value);
            if playObj.Some? {
              alert := HandlePlaySong(playObj.value);
            }
          }
        } else if firstSong.Some? {
          alert := HandlePlaySong(firstSong.value);
        }
      }
    }

    /** `handleSeek`. */
    method HandleSeek(val: real)
      requires Valid()
      modifies this
      ensures Valid() && State() == Transport.Seek(old(State()), val)
    {
      if user.None? && val > Transport.PreviewDuration {
        upsellType := Transport.Preview;
        showUpsell := true;
        return;
      }
      if currentSong.Some? && authView == Transport.AppView {
        progress := val;
      }
    }

    method SetVolume(val: real)
      requires Valid()
      modifies this
      ensures Valid() && State() == Transport.SetVolume(old(State()), val)
    {
      volume := val;
    }

    /** One run of the interval's `updateProgress`; `current` is the audio element's `currentTime`. */
    method UpdateProgress(current: real)
      requires Valid()
      modifies this
      ensures Valid() && State() == Transport.Tick(old(State()), current)
    {
      if currentSong.Some? && authView == Transport.AppView {
        if user.None? && current >= Transport.PreviewDuration {
          playbackState := Paused;
          upsellType := Transport.Preview;
          showUpsell := true;
          progress := Transport.PreviewDuration;
          return;
        }
        progress := current;
      }
    }

    /** The sidebar's offline switch. */
    method ToggleOfflineMode()
      requires Valid()
      modifies this
      ensures Valid() && State() == Transport.ToggleOfflineMode(old(State()))
    {
      isOfflineMode := !isOfflineMode;
    }

    // ---------- library ----------

    method ToggleDownload(songId: string)
      requires Valid()
      modifies this
      ensures Valid() && State() == Transport.ToggleDownload(old(State()), songId)
    {
      var allowed := RequireUser();
      if allowed {
        var newSet := downloadedSongs;
        if songId in newSet {
          newSet := newSet - {songId};
        } else {
          newSet := newSet + {songId};
        }
        downloadedSongs := newSet;
      }
    }

    method ToggleFavorite(songId: string)
      requires Valid()
      modifies this
      ensures Valid() && State() == Transport.ToggleFavorite(old(State()), songId)
    {
      var newSet := favoriteSongs;
      if songId in newSet {
        newSet := newSet - {songId};
      } else {
        newSet := newSet + {songId};
      }
      favoriteSongs := newSet;
    }

    method OpenAddToPlaylistModal(song: Song)
      requires Valid()
      modifies this
      ensures Valid() && State() == Transport.OpenAddToPlaylist(old(State()), song)
    {
      var allowed := RequireUser();
      if allowed {
        songToAddToPlaylist := Some(song);
        showPlaylistModal := true;
      }
    }

    /** `createPlaylist`; `now` stands for `Date.now()`. Returns the new playlist, or None (null) for a guest. */
    method CreatePlaylist(now: int) returns (created: Option<Playlist>)
      requires Valid()
      modifies this
      ensures Valid() && State() == Transport.CreatePlaylist(old(State()), now)
      ensures created == Transport.CreatedPlaylist(old(State()), now)
    {
      if user.None? {
        upsellType := Transport.Generic;
        showUpsell := true;
        return None;
      }
      var newPlaylist := Transport.NewPlaylist(playlists, now);
      playlists := playlists + [newPlaylist];
      created := Some(newPlaylist);
    }

    method DeletePlaylist(id: string)
      requires Valid()
      modifies this
      ensures Valid() && State() == Transport.DeletePlaylist(old(State()), id)
    {
      playlists := Transport.RemoveById(playlists, id);
    }

    method AddSongToPlaylist(playlistId: string)
      requires Valid()
      modifies this
      ensures Valid() && State() == Transport.AddSongToPlaylist(old(State()), playlistId)
    {
      if songToAddToPlaylist.None? {
        return;
      }
      playlists := Transport.AddToPlaylists(playlists, playlistId, songToAddToPlaylist.value.id);
      showPlaylistModal := false;
      songToAddToPlaylist := None;
    }

    /** The navigation bars' "new playlist" button. */
    method NavCreatePlaylist(now: int)
      requires Valid()
      modifies this
      ensures Valid() && State() == Transport.NavCreatePlaylist(old(State()), now)
    {
      var allowed := RequireUser();
      if allowed {
        var _ := CreatePlaylist(now);
      }
      activeTab := Transport.LibraryTab;
    }

    method HandleTipAction(action: Transport.TipAction, now: int)
      requires Valid()
      modifies this
      ensures Valid() && State() == Transport.TipActionStep(old(State()), action, now)
    {
      match action
      case CreatePlaylistTip =>
        if user.Some? {
          activeTab := Transport.LibraryTab;
          var _ := CreatePlaylist(now);
        } else {
          upsellType := Transport.Generic;
          showUpsell := true;
        }
      case ShareTip =>
      case OfflineTip =>
        if user.Some? {
          isOfflineMode := !isOfflineMode;
        } else {
          upsellType := Transport.Generic;
          showUpsell := true;
        }
    }
  }
}
