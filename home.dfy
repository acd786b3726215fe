/** The sections of `pages/Home.tsx`: the greeting by hour, the index-based shelves, and the list
    shown in offline mode. `hour` stands for `new Date().getHours()`. */
module Home {
  import opened Types
  import opened Seqs

  const MorningGreeting: string := "Bom dia, abençoado"
  const AfternoonGreeting: string := "Boa tarde, irmão"
  const EveningGreeting: string := "A paz do Senhor"

  /** `getGreeting` of the page (not the faith-aware one of `content.ts`). */
  function Greeting(hour: int): (r: string)
    ensures hour < 12 ==> r == MorningGreeting
    ensures 12 <= hour < 18 ==> r == AfternoonGreeting
    ensures hour >= 18 ==> r == EveningGreeting
  {
    if hour < 12 then MorningGreeting
    else if hour < 18 then AfternoonGreeting
    else EveningGreeting
  }

  /** The three greetings are different, so the text tells the band of the hour apart. */
  lemma GreetingSeparatesBands(h1: int, h2: int)
    requires Greeting(h1) == Greeting(h2)
    ensures (h1 < 12) == (h2 < 12) && (h1 < 18) == (h2 < 18)
  {
    assert MorningGreeting[2] != AfternoonGreeting[2];
    assert MorningGreeting[0] != EveningGreeting[0];
    assert AfternoonGreeting[0] != EveningGreeting[0];
  }

  /** `songs.slice(0, 2)`. */
  function Highlights(songs: seq<Song>): (r: seq<Song>)
    ensures |r| == if |songs| < 2 then |songs| else 2
    ensures forall i :: 0 <= i < |r| ==> r[i] == songs[i]
  {
    Slice(songs, 0, 2)
  }

  /** `songs.slice(2, 6)`. */
  function NewReleases(songs: seq<Song>): (r: seq<Song>)
    ensures |r| == if |songs| <= 2 then 0 else if |songs| < 6 then |songs| - 2 else 4
    ensures forall i :: 0 <= i < |r| ==> r[i] == songs[2 + i]
  {
    Slice(songs, 2, 6)
  }

  /** The two shelves together are the first six songs, without overlap or gap. */
  lemma {:induction false} ShelvesPartitionFirstSix(songs: seq<Song>)
    ensures Highlights(songs) + NewReleases(songs) == songs[..if |songs| < 6 then |songs| else 6]
  {
    var h := Highlights(songs);
    var n := NewReleases(songs);
    var k := if |songs| < 6 then |songs| else 6;
    assert |h + n| == k;
    forall i | 0 <= i < k ensures (h + n)[i] == songs[i] {
      if i >= |h| {
        assert (h + n)[i] == n[i - |h|];
      }
    }
  }

  /** `songs.slice().reverse().slice(0, 6)`: the last six songs, newest-last becomes first. */
  function Recent(songs: seq<Song>): (r: seq<Song>)
    ensures |r| == if |songs| < 6 then |songs| else 6
    ensures forall i :: 0 <= i < |r| ==> r[i] == songs[|songs| - 1 - i]
  {
    Slice(Reverse(songs), 0, 6)
  }

  /** Reading the recent shelf backwards gives the tail of the catalog in its own order. */
  lemma {:induction false} RecentIsReversedTail(songs: seq<Song>)
    ensures Reverse(Recent(songs)) == songs[|songs| - |Recent(songs)|..]
  {
    var r := Recent(songs);
    var t := songs[|songs| - |r|..];
    assert |Reverse(r)| == |t|;
    forall i | 0 <= i < |t| ensures Reverse(r)[i] == t[i] {
      assert Reverse(r)[i] == r[|r| - 1 - i];
    }
  }

  /** `songs.filter(s => downloadedSongs.has(s.id))`: exactly the downloaded songs, in catalog order. */
  function OfflineSongs(songs: seq<Song>, downloaded: set<string>): (r: seq<Song>)
    ensures IsSubsequence(r, songs)
    ensures forall i :: 0 <= i < |r| ==> r[i].id in downloaded
    ensures forall i :: 0 <= i < |songs| && songs[i].id in downloaded ==> songs[i] in r
  {
    Filter(songs, (s: Song) => s.id in downloaded)
  }
}
