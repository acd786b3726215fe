# Bíblia Sertaneja: playback, session gating and page logic in Dafny

Bíblia Sertaneja is a React music player for sertanejo worship songs. Its `App` component owns
the session and the player. The session is either a guest or a signed-in user. The player state is:

- the current song, the playback state, progress and volume;
- offline mode and the set of downloaded songs;
- favourites, playlists and the "upsell" modal.

Guests may listen to 30 seconds of each song. Downloads, playlists and the home tips are gated
behind `requireUser`. Offline, only downloaded songs play, and "next" skips forward to the next
downloaded song for at most one lap of the catalog.

The model is written in the form of the source:

- `Transport` (transport.dfy) is the App state as one record, `AppState`, with one transition
  function per handler. Most of the proved properties are about these functions: the guest preview
  limit, the offline skip search, the gates, toggles that undo themselves, and playlist edits.
- `App` (app.dfy) is the same component as a class. Its fields are the `useState` slots and its
  methods are the handlers, updating the fields in place. Each method is proved to move the state
  exactly as the matching `Transport` function says. `nextSong`'s skip loop is kept as a `while`
  loop (`App.ScanForward`). It is proved equal to the recursive specification `Transport.SkipTarget`,
  and the lemmas about that specification show the loop is sound and complete over one lap.
- `Auth` (auth.dfy) is the five-step registration form as a class. It covers the per-step
  validation, stepping back and forth, and the user record the mock sign-in produces.
- `Search` (search.dfy) is the search page: a case-insensitive substring match over title, Bible
  reference and description, the blank-query guard, and the offline panel.
- `Admin` (admin.dfy) is the admin page: song upload, album creation and song selection.
- `Library`, `Home`, `Player`, `Profile` and `Content` are the pure computations of those pages:
  - playlist resolution and offline availability;
  - the shelves and greetings;
  - the `m:ss` time label and player flags;
  - the trial countdown and profile labels;
  - the faith-aware greeting and tips.
- `Types`, `JsText` and `Seqs` hold the shared records and the JavaScript built-ins the pages use:
  `String(n)`, `padStart`, `toLowerCase`, `includes`, `trim`, the truncating `%`, `filter`,
  `slice` and `reverse`.
- `Fixtures` holds the catalog of `constants.ts` and a few concrete runs on it.

Where the code behaves differently from its documentation, the model follows the code:

- The preview check in the progress timer is level-triggered. While a guest's audio is at or past
  30 s, every tick pauses and raises the upsell again, even after it was dismissed
  (`Transport.TickRaisesUpsellEveryTime`).
- The seek guard is strict (`val > 30`), so a guest may seek to exactly 30 s.
- `setVolume` stores any value; only the slider keeps it in [0, 1].
- `prevSong` does not skip songs that are not downloaded. Offline, it just hits the
  not-downloaded alert.
- Offline, "next" with only the current song downloaded comes back round to it. `handlePlaySong`
  then toggles it, so "next" pauses the song.
- The sidebar's offline switch is not gated on a user; only the home tip is. `App` also hands the
  player a switch, but `Player` never uses it.
- Logout keeps progress, downloads, favourites and playlists.
- "A guest's progress is within the preview" is not an invariant of every handler, because entering
  as a guest keeps whatever progress was there. The playback handlers preserve it and every tick
  re-establishes it.
- Search matches the untrimmed query; only the blank guard trims. A blank search clears the results
  but leaves the loading and "searched" flags as they were.
- The share tip's description depends on the faith; its title does not.
- The admin selection toggle removes every copy of an id.

## Model

| member | source | states |
|---|---|---|
| Transport.Initial | App.tsx:25-59 | A fresh App has no user, the welcome screen, nothing playing, no downloads or favourites, offline mode off, and the given playlists; the invariant holds |
| Transport.RaiseUpsell | App.tsx:89-91 | Raising the upsell sets only the modal flag and its kind |
| Transport.DismissUpsell | App.tsx:526 | "Not now" clears only the modal flag |
| Transport.UpsellRegister | App.tsx:519 | The register button closes the modal and opens the login screen, changing nothing else |
| Transport.LoginSuccess | App.tsx:63-66 | Signing in sets the user and the app view; every other field, playback included, is kept |
| Transport.GuestAccess | App.tsx:68-71 | Entering as a guest clears the user and opens the app view; every other field, playback included, is kept |
| Transport.Logout | App.tsx:73-80 | Logout stops playback, clears the song and offline mode, and returns home; every other field (progress, volume, playlists, downloads, favourites, the upsell and the picker) is kept |
| Transport.UpdateUser | App.tsx:83-85 | Saving the profile replaces the user record and nothing else |
| Transport.TogglePlay | App.tsx:168-185 | No song: no change. A guest at or past 30 s gets the preview upsell. Otherwise PLAYING becomes PAUSED and anything else becomes PLAYING, with no other field changed; the invariant is kept |
| Transport.PlaySong | App.tsx:132-145 | Offline and not downloaded: nothing changes. The current song toggles. Any other song starts from 0 and plays. Preserves the invariant and the preview bound |
| Transport.PlaySongAlert | App.tsx:133-136 | The not-downloaded alert appears exactly when offline and the song is not downloaded |
| Transport.PlaySongTwicePauses | App.tsx:138-144 | Requesting a new song twice starts it and then pauses it, at progress 0 |
| Transport.TogglePlayTwice | App.tsx:168-185 | Two toggles restore the state (BUFFERING becomes PAUSED) when the preview gate does not fire |
| Transport.Seek | App.tsx:324-336 | A guest seeking past 30 s gets the preview upsell and no seek; otherwise progress moves when the audio is mounted |
| Transport.GuestSeekToLimitAllowed | App.tsx:326 | The guard is strict: a guest may seek to exactly 30 s without an upsell |
| Transport.SetVolume | App.tsx:477 | The volume is stored unclamped and nothing else changes |
| Transport.ToggleOfflineMode | App.tsx:385 | The sidebar's offline switch flips offline mode for anyone and changes nothing else |
| Transport.Tick | App.tsx:302-316 | Without audio nothing changes. A guest at or past 30 s is paused at exactly 30 s with the preview upsell, and nothing else changes. Otherwise progress follows the audio. Afterwards a guest is within the preview |
| Transport.TickRaisesUpsellEveryTime | App.tsx:306-313 | Dismissing the upsell does not help: the next tick past 30 s restores the same paused, upsold state |
| Transport.NoResumePastPreview | App.tsx:171-175 | After the forced pause a guest cannot resume; toggling only shows the upsell |
| Transport.IndexOfId | App.tsx:189 | `findIndex` gives the first index with the id, or -1 exactly when no song has it |
| Transport.CyclicClosedForm | App.tsx:198 | Within one lap, the `(i + 1) % n` walk is addition that wraps once |
| Transport.CyclicCovers | App.tsx:195-201 | One lap of the walk reaches every index |
| Transport.FirstOffsetSpec | App.tsx:197 | The search stops at the first downloaded offset, everything passed is not downloaded, and it finds nothing iff no offset in the lap is downloaded |
| Transport.SkipTarget | App.tsx:195-201 | The skip target, when found, is a valid index |
| Transport.SkipTargetSound | App.tsx:195-201 | The skip target is downloaded and every song walked past is not |
| Transport.SkipTargetNoneIff | App.tsx:200 | The skip gives up exactly when no catalog song is downloaded |
| Transport.NextTarget | App.tsx:187-203 | "Next" needs a current song in the catalog. From catalog index i, online it goes to (i + 1) % n; offline it goes to the skip target searched from there (`Transport.SkipTarget`), which is downloaded |
| Transport.NextSong | App.tsx:187-204 | "Next" plays the target, or changes nothing; preserves the invariant and the preview bound |
| Transport.NextSongOfflineExhaustion | App.tsx:200 | Offline, "next" gives up (state unchanged) exactly when nothing in the catalog is downloaded |
| Transport.NextSongOnlyCurrentDownloaded | App.tsx:195-203 | Offline with only the current song downloaded, "next" toggles it |
| Transport.PrevTarget | App.tsx:206-211 | "Previous" lands on `(i - 1 + n) % n` with JavaScript's truncating `%`, also for a song missing from the catalog (index -1), and the result is always a valid index |
| Transport.PrevSong | App.tsx:206-211 | "Previous" plays that song with no offline skip; preserves the invariant and the preview bound |
| Transport.PrevSongOfflineBlocked | App.tsx:209-210 | Offline onto a song that is not downloaded, "previous" changes nothing |
| Transport.Toggle | App.tsx:215-222 | The set flip: the id's membership inverts and every other id is kept |
| Transport.ToggleTwice | App.tsx:215-222 | Flipping twice restores the set |
| Transport.ToggleDownload | App.tsx:213-225 | A guest gets the generic upsell; a user's download set flips at the id |
| Transport.ToggleFavorite | App.tsx:227-239 | Favourites flip at the id for guests and users alike |
| Transport.ToggleDownloadTwice | App.tsx:213-225 | For a user, two download toggles of one id restore the state |
| Transport.AddSong | App.tsx:273-279 | Only the target playlist changes, by appending the song once; no duplicates arise |
| Transport.AddToPlaylists | App.tsx:273-280 | The `map` applies that step to every playlist and keeps their number |
| Transport.AddToPlaylistsChangesOnlyTarget | App.tsx:271-283 | Other playlists are untouched, the target contains the song, and duplicate-free lists stay duplicate-free |
| Transport.RemoveById | App.tsx:268 | The filter keeps exactly the playlists whose id differs |
| Transport.RemoveByIdConcat | App.tsx:268 | The filter distributes over concatenation, so it keeps order |
| Transport.RemoveByIdAbsent | App.tsx:268 | Deleting an absent id changes nothing |
| Transport.CountUserCreated | App.tsx:257 | The count of user-created playlists is at most their number |
| Transport.NewPlaylist | App.tsx:255-262 | The new playlist is empty and user-created; its id comes from the clock and its title numbers it after the user-created ones |
| Transport.CreatedPlaylist | App.tsx:249-265 | `createPlaylist` returns null exactly for a guest, and otherwise the new playlist `Transport.NewPlaylist` builds |
| Transport.CreatePlaylist | App.tsx:249-265 | A guest gets the generic upsell; a user gets `Transport.NewPlaylist` (empty, user-created, clock id, numbered title) appended at the end, and nothing else changes |
| Transport.CountUserCreatedAppend | App.tsx:257 | Appending a playlist adds one to the count exactly when it is user-created |
| Transport.DeletePlaylist | App.tsx:267-269 | Deleting filters the playlists by id and changes nothing else (not gated) |
| Transport.OpenAddToPlaylist | App.tsx:242-247 | A guest gets the upsell; a user gets the picker for the song and nothing else changes |
| Transport.AddSongToPlaylist | App.tsx:271-283 | With no pending song nothing changes; otherwise the song is added, the picker closes, and nothing else moves |
| Transport.FindSong | App.tsx:156 | `find` returns the first catalog song with the id, or nothing exactly when none has it |
| Transport.FirstDownloaded | App.tsx:159 | The found id is downloaded and sits at a position before which no id is downloaded; nothing is found exactly when none is downloaded |
| Transport.PlayPlaylist | App.tsx:154-166 | An empty playlist changes nothing. Online the playlist's first song is played if the catalog has it; offline its first downloaded song is, if the catalog has it; otherwise nothing changes. Preserves the invariant and the preview bound |
| Transport.PlayPlaylistOfflineNeverRejected | App.tsx:158-161 | Offline, the song a playlist starts with is never refused as not downloaded |
| Transport.TipActionStep | App.tsx:103-128 | Sharing changes nothing; a guest gets the upsell for the other tips; a user creates a playlist on the library tab or flips offline mode |
| Transport.NavCreatePlaylist | App.tsx:389 | The navigation "new playlist" button creates a playlist as `createPlaylist` does and always opens the library tab |
| Transport.NavAndTipCreatePlaylist | App.tsx:498 | For a user the two "new playlist" routes agree; for a guest both upsell but only the navigation button changes tab |
| Transport.GuestGate | App.tsx:88-95 | For a guest, downloads, playlist creation and the tips only raise the generic upsell, while favouriting is let through |
| App.ScanForward | App.tsx:195-201 | The loop finds an index exactly when the specification does, the same index, and it is downloaded |
| App.AppComponent.constructor | App.tsx:25-59 | The component starts in `Transport.Initial` |
| App.AppComponent.HandleLoginSuccess | App.tsx:63-66 | The fields move as `Transport.LoginSuccess` |
| App.AppComponent.HandleGuestAccess | App.tsx:68-71 | The fields move as `Transport.GuestAccess` |
| App.AppComponent.HandleLogout | App.tsx:73-80 | The fields move as `Transport.Logout` |
| App.AppComponent.HandleUpdateUser | App.tsx:83-85 | The fields move as `Transport.UpdateUser` |
| App.AppComponent.HandleUpsellRegister | App.tsx:519 | The fields move as `Transport.UpsellRegister` |
| App.AppComponent.RequireUser | App.tsx:88-95 | The action is allowed exactly for a user; a guest gets the generic upsell |
| App.AppComponent.CloseUpsell | App.tsx:526 | The fields move as `Transport.DismissUpsell` |
| App.AppComponent.TogglePlay | App.tsx:168-185 | The fields move as `Transport.TogglePlay` |
| App.AppComponent.HandlePlaySong | App.tsx:132-145 | The fields move as `Transport.PlaySong`, and the alert is `Transport.PlaySongAlert` |
| App.AppComponent.NextSong | App.tsx:187-204 | The fields move as `Transport.NextSong`, using the skip loop; it never shows the not-downloaded alert |
| App.AppComponent.PrevSong | App.tsx:206-211 | The fields move as `Transport.PrevSong`; with no song there is no alert, otherwise the alert is `handlePlaySong`'s for the previous song |
| App.AppComponent.HandlePlayPlaylist | App.tsx:154-166 | The fields move as `Transport.PlayPlaylist`; it never shows the not-downloaded alert |
| App.AppComponent.HandleSeek | App.tsx:324-336 | The fields move as `Transport.Seek` |
| App.AppComponent.SetVolume | App.tsx:477 | The fields move as `Transport.SetVolume` |
| App.AppComponent.UpdateProgress | App.tsx:302-316 | The fields move as `Transport.Tick` |
| App.AppComponent.ToggleOfflineMode | App.tsx:385 | The fields move as `Transport.ToggleOfflineMode` |
| App.AppComponent.ToggleDownload | App.tsx:213-225 | The fields move as `Transport.ToggleDownload` |
| App.AppComponent.ToggleFavorite | App.tsx:227-239 | The fields move as `Transport.ToggleFavorite` |
| App.AppComponent.OpenAddToPlaylistModal | App.tsx:242-247 | The fields move as `Transport.OpenAddToPlaylist` |
| App.AppComponent.CreatePlaylist | App.tsx:249-265 | The fields move as `Transport.CreatePlaylist`, and the result is `Transport.CreatedPlaylist` |
| App.AppComponent.DeletePlaylist | App.tsx:267-269 | The fields move as `Transport.DeletePlaylist` |
| App.AppComponent.AddSongToPlaylist | App.tsx:271-283 | The fields move as `Transport.AddSongToPlaylist` |
| App.AppComponent.NavCreatePlaylist | App.tsx:389 | The fields move as `Transport.NavCreatePlaylist` |
| App.AppComponent.HandleTipAction | App.tsx:103-128 | The fields move as `Transport.TipActionStep` |
| Auth.StepAlert | pages/Auth.tsx:36-39 | Each step's alert fires exactly when its own field is invalid: step 1 lacks `@`, step 2 is under 6 UTF-16 code units (`password.length`), step 3 and step 4 are empty |
| Auth.ThreeEmojiPasswordPasses | pages/Auth.tsx:37 | Three emoji outside the Basic Multilingual Plane are 6 code units long and pass the password step |
| Auth.EmailStepAcceptsIffAt | pages/Auth.tsx:36 | Step 1 passes exactly when some character of the e-mail is `@` |
| Auth.SubmittedUser | pages/Auth.tsx:65-79 | Registering gives a premium trial that ends one day after the first clock reading, the id coming from the second reading, with the form's birthdate, gender and faith; signing in gives none of these and faith `evangelical`; an empty name becomes the default name |
| Auth.NextStepOf | pages/Auth.tsx:34-48 | The step stays on an alert or at the last step, otherwise moves one on, and stays within 1..5 |
| Auth.PrevStepOf | pages/Auth.tsx:50-56 | The step moves one back above 1 and stays within 1..5 |
| Auth.NextThenPrev | pages/Auth.tsx:34-56 | Next then back returns to the same step when next was not blocked and not the submit |
| Auth.AuthForm.constructor | pages/Auth.tsx:14-27 | The form opens at step 1 with empty fields, gender `female` and faith `evangelical` |
| Auth.AuthForm.SetFields | pages/Auth.tsx:22-27 | The setters change only the fields |
| Auth.AuthForm.SwitchToRegister | pages/Auth.tsx:127 | The login page's link turns on registration and keeps the rest |
| Auth.AuthForm.HandleSubmit | pages/Auth.tsx:58-83 | The submitted user is `Auth.SubmittedUser` of the form |
| Auth.AuthForm.HandleNextStep | pages/Auth.tsx:34-48 | The alert, the new step and the submitted user follow `StepAlert` and `NextStepOf`; a user is submitted exactly at the last step without an alert |
| Auth.AuthForm.HandlePrevStep | pages/Auth.tsx:50-56 | The page is left exactly at step 1; otherwise the step moves back |
| Library.PlaylistSongs | pages/Library.tsx:21-23 | The resolved songs are the catalog's first matches for the known ids, in playlist order; unknown ids are dropped |
| Library.PlaylistSongsAllKnown | pages/Library.tsx:21-23 | When every id is known, the view lists one song per id, in order |
| Library.IsAvailableOffline | pages/Library.tsx:26-28 | A playlist is available offline exactly when one of its songs is downloaded, which is when playing it finds a first downloaded id |
| Library.DisplayedPlaylists | pages/Library.tsx:137-139 | Online all playlists are shown; offline exactly those with a downloaded song, in order |
| Library.IsRowAvailable | pages/Library.tsx:76 | Online every row is available; offline exactly the downloaded songs are |
| Library.RowAvailableIffPlayable | pages/Library.tsx:76 | A greyed-out row is exactly a song that playing would refuse as not downloaded |
| Library.DurationLabel | pages/Library.tsx:115 | The label starts with the whole minutes, then a colon, then at least two characters |
| Library.DurationLabelReadsBack | pages/Library.tsx:115 | The `m:ss` label reads back to the duration: whole minutes, a colon, two digits of seconds below 60 |
| Search.Matches | pages/Search.tsx:35-39 | The filter test; an empty query matches every song, as `includes('')` does |
| Search.MatchesIffOccurs | pages/Search.tsx:35-39 | A song matches exactly when the lower-cased query occurs in its lower-cased title, reference or non-empty description |
| Search.Results | pages/Search.tsx:24-41 | A blank query gives nothing; otherwise exactly the matching catalog songs, in catalog order |
| Search.ShownResults | pages/Search.tsx:45-57 | Offline no result is shown |
| Search.SearchPage.constructor | pages/Search.tsx:17-20 | The page starts with an empty query and no results |
| Search.SearchPage.SetQuery | pages/Search.tsx:17 | Typing changes only the query |
| Search.SearchPage.HandleSearch | pages/Search.tsx:22-43 | The results become `Search.Results` of the query; the flags move only for a non-blank query |
| Admin.ToggleSelection | pages/Admin.tsx:102-108 | A selected id is removed, every copy of it; an unselected one is appended; other ids keep their membership |
| Admin.ToggleSelectionTwice | pages/Admin.tsx:102-108 | Toggling twice restores which ids are selected, and the very list when the id was not selected |
| Admin.RenameAlbum | pages/Admin.tsx:90-95 | Exactly the selected songs take the album title |
| Admin.RenameAlbumKeepsIdentity | pages/Admin.tsx:90-95 | Renaming changes no field other than `album` |
| Admin.NewAlbum | pages/Admin.tsx:78-85 | The album carries the form's title, year and selection, with an id from the clock |
| Admin.AlertTextsDistinct | pages/Admin.tsx:33-99 | The missing-fields, upload-done and album-done alerts have three different texts |
| Admin.UploadAlert | pages/Admin.tsx:32-35 | The upload is refused exactly when the title, the reference or the audio file is missing |
| Admin.UploadedSong | pages/Admin.tsx:48-59 | The uploaded song is an encrypted single of 200 s; an empty description becomes `Sem descrição` |
| Admin.AdminPage.constructor | pages/Admin.tsx:17-28 | The forms start empty, the album year at the current year |
| Admin.AdminPage.SetUploadForm | pages/Admin.tsx:17-22 | The upload inputs change only their fields |
| Admin.AdminPage.SetAlbumForm | pages/Admin.tsx:26-27 | The album inputs change only their fields |
| Admin.AdminPage.HandleSongUpload | pages/Admin.tsx:30-72 | Refused: the missing-fields alert and no field changes. Accepted: the new song (with the chosen cover or a random one) is prepended, the form resets, and the success alert is shown |
| Admin.AdminPage.PublishUpload | pages/Admin.tsx:61-70 | The new song goes first in the catalog, the upload form is cleared, and the album form is kept |
| Admin.AdminPage.HandleCreateAlbum | pages/Admin.tsx:74-100 | Without a title or selection nothing happens; otherwise the album is prepended, the selected songs renamed, and the form reset |
| Admin.AdminPage.ToggleSongSelection | pages/Admin.tsx:102-108 | The selection moves as `Admin.ToggleSelection` and nothing else changes |
| Home.Greeting | pages/Home.tsx:19-24 | The greeting by hour band: before 12, before 18, and the rest |
| Home.GreetingSeparatesBands | pages/Home.tsx:19-24 | Equal greetings mean the same hour band |
| Home.Highlights | pages/Home.tsx:27 | The first two songs |
| Home.NewReleases | pages/Home.tsx:28 | Songs three to six |
| Home.ShelvesPartitionFirstSix | pages/Home.tsx:27-28 | The two shelves together are exactly the first six songs |
| Home.Recent | pages/Home.tsx:29 | The last six songs, newest first |
| Home.RecentIsReversedTail | pages/Home.tsx:29 | Read backwards, the recent shelf is the tail of the catalog |
| Home.OfflineSongs | pages/Home.tsx:33 | Offline, exactly the downloaded songs, in catalog order |
| Player.FormatTime | components/Player.tsx:289-293 | The label starts with the floored minutes, then a colon, then the seconds |
| Player.FormatTimeIsDurationLabel | components/Player.tsx:289-293 | For any non-negative time, the player's label is the library's `m:ss` label of its whole seconds |
| Player.SplitOfWholeSeconds | components/Player.tsx:290-291 | The floored minutes and the floored JavaScript remainder are those of the whole seconds |
| Player.PadTwoDigits | components/Player.tsx:292 | The `0` is added exactly below ten, as `padStart(2, '0')` does |
| Player.FormatTimeOfWholeSeconds | components/Player.tsx:289-293 | On whole seconds, the player's and the library's labels are the same text |
| Player.PlayerFlags | components/Player.tsx:25-29 | No song: the bar renders nothing. Otherwise the playing, downloaded and has-lyrics flags hold exactly in their cases |
| Player.PlayingFlagNeedsSong | components/Player.tsx:25-27 | In every state keeping the invariant, "playing" is shown only with a song |
| Player.VolumeFromSliderInRange | components/Player.tsx:273-279 | Volumes coming from the slider stay within [0, 1] |
| Player.ShortSongSeekNeverUpsells | components/Player.tsx:87-92 | Dragging the progress slider of a song of at most 30 s never raises the upsell |
| Profile.CeilHours | pages/Profile.tsx:22 | The fewest whole hours covering a positive difference |
| Profile.TrialTimeRemaining | pages/Profile.tsx:16-24 | Null off trial or without an end date; `Expirado` exactly once the end has passed; otherwise the hours left |
| Profile.FreshTrialShowsADay | pages/Profile.tsx:16-24 | At sign-up a fresh trial shows `24 horas` |
| Profile.PlanLabel | pages/Profile.tsx:43 | Trial wins over premium, which wins over free |
| Profile.FaithBadge | pages/Profile.tsx:45-47 | The badge shows exactly when a faith is set, `Católica` exactly for catholics |
| Profile.GenderLabel | pages/Profile.tsx:82-88 | The gender line shows exactly when a gender is set: `Prefiro não dizer`, `Feminino`, `Masculino` or `Outro` for the four values |
| Profile.GenderLabelInjective | pages/Profile.tsx:86-88 | No two genders share a label |
| Content.BandOf | content.ts:86-88 | The hour bands: before 12, from 12 to before 18, from 18 on |
| Content.GetGreeting | content.ts:83-89 | Each greeting opens with its band's salutation: `Bom dia`, `Boa tarde` or `Boa noite` |
| Content.GreetingDependsOnBandAndCatholic | content.ts:83-89 | Two greetings are equal exactly when the band and the catholic flag are |
| Content.PlaylistTip | content.ts:101-108 | The playlist tip's tag is `Dica` and its mobile text `Crie sua lista agora.` for every faith |
| Content.ShareTip | content.ts:109-116 | The share tip's tag, title and mobile text are the same for every faith |
| Content.OfflineTip | content.ts:117-121 | The offline tip's tag is `Dica` and it has no mobile text |
| Content.GetTips | content.ts:97-122 | All three tips are tagged `Dica`; the playlist and share tips have mobile texts and the offline one has none |
| Content.TipsSharedFields | content.ts:97-122 | Tags, the share title, the mobile texts and the offline description do not depend on the faith |
| Content.CatholicVariantsDiffer | content.ts:103-119 | The catholic and the other texts differ in the playlist title and description, the share description and the offline title |
| Content.TipsDifferIffCatholic | content.ts:101-120 | The playlist title and description, the share description and the offline title change exactly with the catholic flag |
| JsText.NatToStringRoundTrip | pages/Library.tsx:115 | `String(n)` is a digit string that reads back to `n` |
| JsText.JsRemInt | App.tsx:209 | JavaScript's `%` agrees with the mathematical one on non-negative operands and stays strictly within the divisor |
| JsText.ContainsIffOccurs | pages/Search.tsx:36-38 | `includes` holds exactly when the query occurs at some position |
| JsText.TrimEmptyIffBlank | pages/Search.tsx:24 | `trim()` is empty exactly when the text is all ECMAScript whitespace or line terminators |
| JsText.NoBreakSpaceIsBlank | pages/Search.tsx:24 | A no-break space alone is blank to `trim()` |
| JsText.Utf16Length | pages/Auth.tsx:37 | `.length` counts UTF-16 code units: between one and two per character |
| JsText.Utf16LengthOfBmp | pages/Auth.tsx:37 | Within the Basic Multilingual Plane, `.length` is the number of characters |
| Seqs.Filter | App.tsx:268 | `filter` keeps exactly the elements passing the test, in order |
| Seqs.FilterMultiplicity | App.tsx:268 | `filter` keeps every copy of a passing element and no copy of a failing one |
| Seqs.FilterConcat | pages/Admin.tsx:104 | `filter` distributes over concatenation |
| Fixtures.SkipFromSongTwo | App.tsx:195-201 | On the six-song catalog with songs 1 and 4 downloaded, the skip from song 2 lands on song 4 |
| Fixtures.NextWithOnlyCurrentPauses | App.tsx:187-204 | Offline with only song 1 downloaded, "next" from song 1 pauses it |
| Fixtures.DurationOnFixture | constants.ts:38 | Song 1's 185 seconds show as `3:05` |

## Left out

- Audio element side effects (`play`, `pause`, `currentTime`, `volume`) are not modelled. The state the
  effects read is modelled, and the audio's `currentTime` is a parameter of each tick.
- The one-second `setInterval` and React's render and effect scheduling are not modelled: each tick
  and each handler is one atomic step on the latest state.
- `alert(...)`: the alert text is returned, not displayed.
- `window.open` of the share tip is not modelled; the share action changes no state.
- `Date.now()`, `new Date().getHours()`, `URL.createObjectURL`, `Math.random()` and the current year
  are parameters.
- The simulated delays of the mock sign-in, the upload and the search are collapsed: each
  handler runs to completion in one step, and the loading flags are set and cleared within it.
- `handlePlayWithLyrics`, the lyrics panel, `handleOpenAlbum`/`viewingAlbum`, the expanded player
  and tab navigation are presentation; they move no state the model reads.
- The register mode passed to the login screen (`authInitialMode`) is not part of `AppState`.
- `Transport.UpsellRegister`: does not record that the login screen opens in register mode, because
  `authInitialMode` is not part of the model.
- Time values are exact reals, with no floating-point rounding. `formatTime` uses JavaScript's
  `%` on numbers and `Math.floor`, and both are modelled for non-negative and negative inputs.
- Lower-casing is ASCII only; JavaScript's Unicode case mapping of accented letters is not modelled.
- Player.FormatTime: its own contract gives only the minutes and the colon; the full text is stated by
  `Player.FormatTimeIsDurationLabel` and `Player.FormatTimeOfWholeSeconds`.
- Library.DurationLabel: its own contract gives only the minutes and the colon; the full text is
  stated by `Library.DurationLabelReadsBack`.
- services/geminiService.ts (the AI assistant) is not part of this model: a network call.
- pages/Pricing.tsx, pages/Welcome.tsx, components/Sidebar.tsx, components/BottomNav.tsx and
  components/Logo.tsx are not part of this model beyond the callbacks they pass to `App`; they render.
- The fixture songs keep only the fields the model reads: lyrics, descriptions and addresses are
  placeholders.
