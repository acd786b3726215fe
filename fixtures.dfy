/** The six-song catalog and the two starting playlists of `constants.ts`, with a few concrete runs
    of the model on them. Lyrics keep only their first line and the mock audio addresses are
    shortened; nothing in the model reads either. */
module Fixtures {
  import opened Types
  import Transport
  import Library
  import JsText

  /** A catalog entry with the fields the model reads; lyrics, description and addresses are placeholders. */
  function Track(id: string, title: string, bibleReference: string, album: string, duration: nat): Song
  {
    Song(id, title, bibleReference, Some("letra"), Some("descrição"), album, "capa", "audio", duration, true)
  }

  const Song1: Song := Track("1", "Caminho de Emaús", "Lucas 24:13-35", "Sertão de Fé", 185)
  const Song2: Song := Track("2", "O Filho Pródigo", "Lucas 15:11-32", "Parábolas Cantadas", 240)
  const Song3: Song := Track("3", "Davi e Golias", "1 Samuel 17", "Heróis da Fé", 190)
  const Song4: Song := Track("4", "A Pesca Maravilhosa", "Lucas 5:1-11", "Milagres no Sertão", 210)
  const Song5: Song := Track("5", "Somente Pela Graça", "Efésios 2:8", "Louvor Caipira", 160)
  const Song6: Song := Track("6", "O Bom Samaritano", "Lucas 10:25-37", "Parábolas Cantadas", 195)

  function Songs(): seq<Song>
  {
    [Song1, Song2, Song3, Song4, Song5, Song6]
  }

  function InitialPlaylists(): seq<Playlist>
  {
    [ Playlist("p1", "Modão Profético", "As melhores para meditar na palavra.",
               "https://picsum.photos/300/300?random=20", ["1", "3", "4"], false),
      Playlist("p2", "Louvor na Roça", "Adoração com viola.",
               "https://picsum.photos/300/300?random=21", ["2", "5"], false) ]
  }

  /** A logged-in listener playing song `1` in offline mode with `downloaded` on the device. */
  function Listening(downloaded: set<string>): Transport.AppState
  {
    var u := User("user-0", "Maria", "maria@exemplo.com", true, true, Some(86400000), "", None, None, Some(Catholic));
    Transport.Initial(InitialPlaylists()).(user := Some(u), authView := Transport.AppView,
      currentSong := Some(Song1), playbackState := Playing, isOfflineMode := true,
      downloadedSongs := downloaded)
  }

  /** Offline, "next" from song 1 with songs 1 and 4 downloaded walks from song 2 past songs 2 and 3
      and stops at song 4 (index 3). */
  lemma SkipFromSongTwo()
    ensures Transport.SkipTarget(Songs(), 1, {"1", "4"}) == Some(3)
  {
    var songs := Songs();
    var d: set<string> := {"1", "4"};
    assert Transport.Cyclic(1, 0, 6) == 1;
    assert Transport.Cyclic(1, 1, 6) == 2;
    assert Transport.Cyclic(1, 2, 6) == 3;
    assert !Transport.DownloadedAt(songs, d, 1, 0);
    assert !Transport.DownloadedAt(songs, d, 1, 1);
    assert Transport.DownloadedAt(songs, d, 1, 2);
    assert Transport.FirstOffset(songs, d, 1, 2) == Some(2);
    assert Transport.FirstOffset(songs, d, 1, 0) == Some(2);
  }

  /** Offline with only the playing song downloaded, "next" comes back round to it and pauses it. */
  lemma NextWithOnlyCurrentPauses()
    ensures Transport.NextSong(Listening({"1"}), Songs()).playbackState == Paused
  {
    var songs := Songs();
    assert Transport.IndexOfId(songs, "1") == 0;
    assert forall i :: 0 <= i < |songs| && i != 0 ==> songs[i].id !in {"1"};
    Transport.NextSongOnlyCurrentDownloaded(Listening({"1"}), songs);
  }

  /** Song 1 lasts 185 seconds, shown as `3:05`. */
  lemma DurationOnFixture()
    ensures Library.DurationLabel(Song1.duration) == "3:05"
  {
    assert Song1.duration / 60 == 3 && Song1.duration % 60 == 5;
    assert JsText.DigitChar(3) == '3' && JsText.DigitChar(5) == '5';
    assert JsText.NatToString(3) == "3";
    assert JsText.NatToString(5) == "5";
    var p := JsText.PadStart("5", 2, '0');
    assert |p| == 2 && p[1..] == "5" && p[0] == '0';
    assert p == "05";
  }
}
