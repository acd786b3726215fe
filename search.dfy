/** `pages/Search.tsx`: a case-insensitive substring search over title, Bible reference and
    description. Lower-casing is ASCII only. */
module Search {
  import opened Types
  import opened JsText
  import opened Seqs

  /** `q` occurs somewhere in the lower-cased `field`. */
  ghost predicate FieldHas(field: string, q: string)
  {
    exists i :: OccursAt(ToLower(field), ToLower(q), i)
  }

  /** The filter predicate, with `includes`; a present but empty description is falsy and never matches. */
  predicate Matches(song: Song, q: string): (r: bool)
    ensures q == "" ==> r
  {
    Contains(ToLower(song.title), ToLower(q)) ||
    Contains(ToLower(song.bibleReference), ToLower(q)) ||
    (song.description.Some? && song.description.value != "" && Contains(ToLower(song.description.value), ToLower(q)))
  }

  /** A song matches exactly when the lower-cased query occurs in one of its three text fields. */
  lemma MatchesIffOccurs(song: Song, q: string)
    ensures Matches(song, q) <==>
      (FieldHas(song.title, q) || FieldHas(song.bibleReference, q) ||
       (song.description.Some? && song.description.value != "" && FieldHas(song.description.value, q)))
  {
    ContainsIffOccurs(ToLower(song.title), ToLower(q));
    ContainsIffOccurs(ToLower(song.bibleReference), ToLower(q));
    if song.description.Some? {
      ContainsIffOccurs(ToLower(song.description.value), ToLower(q));
    }
  }

  /** What `handleSearch` leaves in `results`: nothing for a blank query, else the matching catalog
      songs in catalog order. The query itself is matched untrimmed. */
  function Results(catalog: seq<Song>, q: string): (r: seq<Song>)
    ensures IsBlank(q) ==> r == []
    ensures |r| <= |catalog| && IsSubsequence(r, catalog)
    ensures forall i :: 0 <= i < |r| ==> Matches(r[i], q) && !IsBlank(q)
    ensures forall i :: 0 <= i < |catalog| && Matches(catalog[i], q) && !IsBlank(q) ==> catalog[i] in r
  {
    TrimEmptyIffBlank(q);
    if Trim(q) == "" then [] else Filter(catalog, s => Matches(s, q))
  }

  /** Offline the page shows its "you are offline" panel instead of any result. */
  function ShownResults(isOffline: bool, results: seq<Song>): (r: seq<Song>)
    ensures isOffline ==> r == []
    ensures !isOffline ==> r == results
  {
    if isOffline then [] else results
  }

  class SearchPage {
    var query: string
    var isLoading: bool
    var results: seq<Song>
    var hasSearched: bool

    constructor ()
      ensures query == "" && !isLoading && results == [] && !hasSearched
    {
      query, isLoading, results, hasSearched := "", false, [], false;
    }

    method SetQuery(q: string)
      modifies this
      ensures query == q && isLoading == old(isLoading) && results == old(results) && hasSearched == old(hasSearched)
    {
      query := q;
    }

    /** `handleSearch`, with the delayed filter run straight after the guard. A blank query only
        clears the results; it leaves the loading and searched flags as they were. */
    method HandleSearch(catalog: seq<Song>)
      modifies this
      ensures query == old(query)
      ensures results == Results(catalog, query)
      ensures IsBlank(query) ==> isLoading == old(isLoading) && hasSearched == old(hasSearched)
      ensures !IsBlank(query) ==> !isLoading && hasSearched
    {
      TrimEmptyIffBlank(query);
      if Trim(query) == "" {
        results := [];
        return;
      }
      isLoading := true;
      hasSearched := true;
      var q := query;
      results := Filter(catalog, s => Matches(s, q));
      isLoading := false;
    }
  }
}
