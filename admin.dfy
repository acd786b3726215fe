/** The admin page of `pages/Admin.tsx`: uploading a song and grouping selected songs into an album.
    The page edits the catalog and album list it is given; here they are fields of the page.
    A chosen file is kept as an opaque name; the object URLs the browser makes for files, the
    random cover suffix and `Date.now()` are parameters. */
module Admin {
  import opened Types
  import opened JsText
  import opened Seqs

  /** The alerts the page shows. */
  datatype AdminAlert = UploadMissing | UploadDone | AlbumDone

  function AlertText(a: AdminAlert): string
  {
    match a
    case UploadMissing => "Por favor, preencha o Título, Referência Bíblica e selecione um arquivo de áudio."
    case UploadDone => "Música e Letra enviadas com sucesso! O sistema de DRM já protegeu o arquivo."
    case AlbumDone => "Álbum criado e publicado!"
  }

  /** The three alerts read differently, so the user can tell a refusal from either success. */
  lemma AlertTextsDistinct(a: AdminAlert, b: AdminAlert)
    requires a != b
    ensures AlertText(a) != AlertText(b)
  {
  }
  const NoDescription: string := "Sem descrição"
  const MockDuration: nat := 200

  /** `toggleSongSelection`: drop every copy of a selected id, or append an unselected one at the end. */
  function ToggleSelection(ids: seq<string>, id: string): (r: seq<string>)
    ensures id in ids ==> r == Filter(ids, sid => sid != id) && id !in r
    ensures id !in ids ==> r == ids + [id]
    ensures id in r <==> id !in ids
    ensures forall x :: x != id ==> (x in r <==> x in ids)
  {
    if id in ids then Filter(ids, sid => sid != id) else ids + [id]
  }

  /** Toggling twice restores which ids are selected; when the id was not selected it restores the
      very same list. */
  lemma {:induction false} ToggleSelectionTwice(ids: seq<string>, id: string)
    ensures forall x :: x in ToggleSelection(ToggleSelection(ids, id), id) <==> x in ids
    ensures id !in ids ==> ToggleSelection(ToggleSelection(ids, id), id) == ids
  {
    if id !in ids {
      FilterConcat(ids, [id], sid => sid != id);
      assert Filter([id], sid => sid != id) == [];
    }
  }

  /** `prev.map(...)` of `handleCreateAlbum`: the selected songs take the album title. */
  function RenameAlbum(songs: seq<Song>, selected: seq<string>, title: string): (r: seq<Song>)
    ensures |r| == |songs|
    ensures forall i :: 0 <= i < |songs| ==> r[i] == if songs[i].id in selected then songs[i].(album := title) else songs[i]
  {
    seq(|songs|, i requires 0 <= i < |songs| =>
      if songs[i].id in selected then songs[i].(album := title) else songs[i])
  }

  /** Renaming keeps every song's identity and every field but `album`. */
  lemma RenameAlbumKeepsIdentity(songs: seq<Song>, selected: seq<string>, title: string)
    ensures forall i :: 0 <= i < |songs| ==>
      RenameAlbum(songs, selected, title)[i].(album := songs[i].album) == songs[i]
  {
  }

  function NewAlbum(now: int, title: string, year: int, selected: seq<string>): (a: Album)
    ensures a.title == title && a.year == year && a.songs == selected
    ensures a.id == "album-" + IntToString(now)
  {
    Album("album-" + IntToString(now), title, "Bíblia Sertaneja",
          "https://picsum.photos/300/300?grayscale", year, selected)
  }

  /** The validation of `handleSongUpload`. */
  function UploadAlert(title: string, bibleRef: string, audioFile: Option<string>): (r: Option<AdminAlert>)
    ensures r.None? <==> title != "" && bibleRef != "" && audioFile.Some?
  {
    if title == "" || bibleRef == "" || audioFile.None? then Some(UploadMissing) else None
  }

  /** The random placeholder cover used when no image was chosen. */
  function FallbackCover(randomSuffix: string): string
  {
    "https://picsum.photos/300/300?random=" + randomSuffix
  }

  /** The song record `handleSongUpload` prepends. */
  function UploadedSong(now: int, title: string, bibleRef: string, lyrics: string, description: string,
                        coverUrl: string, audioUrl: string): (s: Song)
    ensures s.title == title && s.bibleReference == bibleRef && s.audioUrl == audioUrl
    ensures s.description == Some(if description == "" then NoDescription else description)
    ensures s.description.value != ""
    ensures s.lyrics == Some(lyrics)
    ensures s.album == "Single" && s.duration == MockDuration && s.isEncrypted
    ensures s.id == "custom-" + IntToString(now)
  {
    Song("custom-" + IntToString(now), title, bibleRef, Some(lyrics),
         Some(if description == "" then NoDescription else description),
         "Single", coverUrl, audioUrl, MockDuration, true)
  }

  class AdminPage {
    var songs: seq<Song>
    var albums: seq<Album>
    var newSongTitle: string
    var newSongBibleRef: string
    var newSongLyrics: string
    var newSongDescription: string
    var audioFile: Option<string>
    var imageFile: Option<string>
    var isUploading: bool
    var newAlbumTitle: string
    var newAlbumYear: int
    var selectedSongIds: seq<string>

    /** The album year starts at the current year. */
    constructor (catalog: seq<Song>, initialAlbums: seq<Album>, currentYear: int)
      ensures songs == catalog && albums == initialAlbums && newAlbumYear == currentYear
      ensures newSongTitle == "" && newSongBibleRef == "" && newSongLyrics == "" && newSongDescription == ""
      ensures audioFile.None? && imageFile.None? && !isUploading
      ensures newAlbumTitle == "" && selectedSongIds == []
    {
      songs, albums := catalog, initialAlbums;
      newSongTitle, newSongBibleRef, newSongLyrics, newSongDescription := "", "", "", "";
      audioFile, imageFile, isUploading := None, None, false;
      newAlbumTitle, newAlbumYear, selectedSongIds := "", currentYear, [];
    }

    /** The upload form's `onChange` setters. */
    method SetUploadForm(title: string, bibleRef: string, lyrics: string, description: string,
                         audio: Option<string>, image: Option<string>)
      modifies this
      ensures newSongTitle == title && newSongBibleRef == bibleRef && newSongLyrics == lyrics
      ensures newSongDescription == description && audioFile == audio && imageFile == image
      ensures songs == old(songs) && albums == old(albums) && isUploading == old(isUploading)
      ensures newAlbumTitle == old(newAlbumTitle) && newAlbumYear == old(newAlbumYear)
      ensures selectedSongIds == old(selectedSongIds)
    {
      newSongTitle, newSongBibleRef, newSongLyrics, newSongDescription := title, bibleRef, lyrics, description;
      audioFile, imageFile := audio, image;
    }

    /** The album form's title and year inputs. */
    method SetAlbumForm(title: string, year: int)
      modifies this
      ensures newAlbumTitle == title && newAlbumYear == year
      ensures songs == old(songs) && albums == old(albums) && selectedSongIds == old(selectedSongIds)
      ensures newSongTitle == old(newSongTitle) && newSongBibleRef == old(newSongBibleRef)
      ensures newSongLyrics == old(newSongLyrics) && newSongDescription == old(newSongDescription)
      ensures audioFile == old(audioFile) && imageFile == old(imageFile) && isUploading == old(isUploading)
    {
      newAlbumTitle, newAlbumYear := title, year;
    }

    /** `handleSongUpload`; `audioObjectUrl`/`imageObjectUrl` are what the browser hands back for the
        chosen files and `randomSuffix` is the text of `Math.random()`. */
    method HandleSongUpload(now: int, audioObjectUrl: string, imageObjectUrl: string, randomSuffix: string)
      returns (alert: AdminAlert)
      modifies this
      ensures UploadAlert(old(newSongTitle), old(newSongBibleRef), old(audioFile)).Some? ==>
        alert == UploadMissing && songs == old(songs) && newSongTitle == old(newSongTitle) &&
        newSongBibleRef == old(newSongBibleRef) && audioFile == old(audioFile) &&
        newSongLyrics == old(newSongLyrics) && newSongDescription == old(newSongDescription) &&
        imageFile == old(imageFile) && isUploading == old(isUploading)
      ensures UploadAlert(old(newSongTitle), old(newSongBibleRef), old(audioFile)).None? ==>
        alert == UploadDone &&
        songs == [UploadedSong(now, old(newSongTitle), old(newSongBibleRef), old(newSongLyrics),
                               old(newSongDescription),
                               if old(imageFile).Some? then imageObjectUrl
                               else FallbackCover(randomSuffix),
                               audioObjectUrl)] + old(songs) &&
        newSongTitle == "" && newSongBibleRef == "" && newSongLyrics == "" && newSongDescription == "" &&
        audioFile.None? && imageFile.None? && !isUploading
      ensures albums == old(albums) && newAlbumTitle == old(newAlbumTitle)
      ensures newAlbumYear == old(newAlbumYear) && selectedSongIds == old(selectedSongIds)
    {
      if newSongTitle == "" || newSongBibleRef == "" || audioFile.None? {
        alert := UploadMissing;
        return;
      }
      isUploading := true;
      var coverUrl := if imageFile.Some? then imageObjectUrl
                      else FallbackCover(randomSuffix);
      var newSong := UploadedSong(now, newSongTitle, newSongBibleRef, newSongLyrics, newSongDescription,
                                  coverUrl, audioObjectUrl);
      PublishUpload(newSong);
      alert := UploadDone;
    }

    /** The end of a successful upload: the song goes first in the catalog and the form is cleared. */
    method PublishUpload(newSong: Song)
      modifies this
      ensures songs == [newSong] + old(songs)
      ensures newSongTitle == "" && newSongBibleRef == "" && newSongLyrics == "" && newSongDescription == ""
      ensures audioFile.None? && imageFile.None? && !isUploading
      ensures albums == old(albums) && newAlbumTitle == old(newAlbumTitle)
      ensures newAlbumYear == old(newAlbumYear) && selectedSongIds == old(selectedSongIds)
    {
      songs := [newSong] + songs;
      newSongTitle, newSongBibleRef, newSongLyrics, newSongDescription := "", "", "", "";
      audioFile, imageFile := None, None;
      isUploading := false;
    }

    /** `handleCreateAlbum`: without a title or a selection nothing happens (and no alert). */
    method HandleCreateAlbum(now: int) returns (alert: Option<AdminAlert>)
      modifies this
      ensures old(newAlbumTitle) == "" || old(selectedSongIds) == [] ==>
        alert.None? && albums == old(albums) && songs == old(songs) &&
        newAlbumTitle == old(newAlbumTitle) && selectedSongIds == old(selectedSongIds)
      ensures old(newAlbumTitle) != "" && old(selectedSongIds) != [] ==>
        alert == Some(AlbumDone) &&
        albums == [NewAlbum(now, old(newAlbumTitle), old(newAlbumYear), old(selectedSongIds))] + old(albums) &&
        songs == RenameAlbum(old(songs), old(selectedSongIds), old(newAlbumTitle)) &&
        newAlbumTitle == "" && selectedSongIds == []
      ensures newAlbumYear == old(newAlbumYear) && newSongTitle == old(newSongTitle)
      ensures newSongBibleRef == old(newSongBibleRef) && newSongLyrics == old(newSongLyrics)
      ensures newSongDescription == old(newSongDescription) && audioFile == old(audioFile)
      ensures imageFile == old(imageFile) && isUploading == old(isUploading)
    {
      if newAlbumTitle == "" || |selectedSongIds| == 0 {
        return None;
      }
      var newAlbum := NewAlbum(now, newAlbumTitle, newAlbumYear, selectedSongIds);
      albums := [newAlbum] + albums;
      songs := RenameAlbum(songs, selectedSongIds, newAlbumTitle);
      newAlbumTitle := "";
      selectedSongIds := [];
      alert := Some(AlbumDone);
    }

    method ToggleSongSelection(id: string)
      modifies this
      ensures selectedSongIds == ToggleSelection(old(selectedSongIds), id)
      ensures songs == old(songs) && albums == old(albums) && newAlbumTitle == old(newAlbumTitle)
      ensures newAlbumYear == old(newAlbumYear) && newSongTitle == old(newSongTitle)
      ensures newSongBibleRef == old(newSongBibleRef) && newSongLyrics == old(newSongLyrics)
      ensures newSongDescription == old(newSongDescription) && audioFile == old(audioFile)
      ensures imageFile == old(imageFile) && isUploading == old(isUploading)
    {
      if id in selectedSongIds {
        selectedSongIds := Filter(selectedSongIds, sid => sid != id);
      } else {
        selectedSongIds := selectedSongIds + [id];
      }
    }
  }
}
