/** A song record and the read-only views of a playlist: search and numbered listing. */
module Songs {
  import opened Text

  /** One song: metadata plus the favourite flag, the only part that ever changes. */
  datatype Song = Song(title: string, artist: string, audioFormat: string, isFavorite: bool)

  /** The `Song(t, a, af)` constructor: stores the metadata; a new song is never a favourite. */
  function NewSong(title: string, artist: string, audioFormat: string): (s: Song)
    ensures s.title == title && s.artist == artist && s.audioFormat == audioFormat
    ensures !s.isFavorite
  {
    Song(title, artist, audioFormat, false)
  }

  /** A song matches a query when its title or its artist contains the query. */
  predicate Matches(s: Song, query: string)
  {
    Contains(s.title, query) || Contains(s.artist, query)
  }

  /** The songs of `playlist` that match `query`, in playlist order. */
  function Search(playlist: seq<Song>, query: string): (hits: seq<Song>)
    ensures |hits| <= |playlist|
    ensures forall s :: s in hits ==> s in playlist && Matches(s, query)
  {
    if playlist == [] then []
    else
      var last := playlist[|playlist| - 1];
      Search(playlist[..|playlist| - 1], query) + (if Matches(last, query) then [last] else [])
  }

  /** Every matching song of the playlist is among the hits. */
  lemma {:induction false} SearchComplete(playlist: seq<Song>, query: string, i: nat)
    requires i < |playlist| && Matches(playlist[i], query)
    ensures playlist[i] in Search(playlist, query)
  {
    if i < |playlist| - 1 {
      SearchComplete(playlist[..|playlist| - 1], query, i);
    }
  }

  /** A song is a hit exactly when it is in the playlist and matches. */
  lemma {:induction false} SearchExactly(playlist: seq<Song>, query: string, s: Song)
    ensures s in Search(playlist, query) <==> s in playlist && Matches(s, query)
  {
    if s in playlist && Matches(s, query) {
      var i :| 0 <= i < |playlist| && playlist[i] == s;
      SearchComplete(playlist, query, i);
    }
  }

  /** "No song found" is reported exactly when no song of the playlist matches. */
  lemma {:induction false} SearchNotFound(playlist: seq<Song>, query: string)
    ensures Search(playlist, query) == [] <==> forall i :: 0 <= i < |playlist| ==> !Matches(playlist[i], query)
  {
    if Search(playlist, query) == [] {
      forall i | 0 <= i < |playlist|
        ensures !Matches(playlist[i], query)
      {
        if Matches(playlist[i], query) {
          SearchComplete(playlist, query, i);
        }
      }
    } else {
      var s := Search(playlist, query)[0];
      assert s in Search(playlist, query);
      var i :| 0 <= i < |playlist| && playlist[i] == s;
    }
  }

  /** Searching a concatenation searches each part, keeping their order. */
  lemma {:induction false} SearchAppend(a: seq<Song>, b: seq<Song>, query: string)
    ensures Search(a + b, query) == Search(a, query) + Search(b, query)
  {
    if b == [] {
      assert a + b == a;
    } else {
      var last := b[|b| - 1];
      assert (a + b)[..|a + b| - 1] == a + b[..|b| - 1];
      SearchAppend(a, b[..|b| - 1], query);
    }
  }

  /** The empty query matches every song: the search returns the whole playlist. */
  lemma {:induction false} SearchEmptyQuery(playlist: seq<Song>)
    ensures Search(playlist, "") == playlist
  {
    if playlist != [] {
      SearchEmptyQuery(playlist[..|playlist| - 1]);
      ContainsEmpty(playlist[|playlist| - 1].title);
    }
  }

  /** One numbered line of the playlist listing; `favorite` is the "(Favorite)" marker. */
  datatype Entry = Entry(number: nat, title: string, artist: string, audioFormat: string, favorite: bool)

  /** What `showPlaylist` shows: "No songs in playlist." or the numbered lines. */
  datatype PlaylistView = NoSongs | Listing(entries: seq<Entry>)

  function EntryFor(number: nat, s: Song): Entry
  {
    Entry(number, s.title, s.artist, s.audioFormat, s.isFavorite)
  }

  /** The lines of the listing, numbered from 1. */
  function Numbered(playlist: seq<Song>): (entries: seq<Entry>)
    ensures |entries| == |playlist|
  {
    if playlist == [] then []
    else Numbered(playlist[..|playlist| - 1]) + [EntryFor(|playlist|, playlist[|playlist| - 1])]
  }

  /** Line k of the listing shows song k with number k + 1, marked favourite iff it is one. */
  lemma {:induction false} NumberedAt(playlist: seq<Song>, k: nat)
    requires k < |playlist|
    ensures Numbered(playlist)[k].number == k + 1
    ensures Numbered(playlist)[k].title == playlist[k].title
    ensures Numbered(playlist)[k].artist == playlist[k].artist
    ensures Numbered(playlist)[k].audioFormat == playlist[k].audioFormat
    ensures Numbered(playlist)[k].favorite <==> playlist[k].isFavorite
  {
    if k < |playlist| - 1 {
      NumberedAt(playlist[..|playlist| - 1], k);
    }
  }

  /** The playlist after `playlist[i].isFavorite = !playlist[i].isFavorite`. */
  function FlipFavorite(playlist: seq<Song>, i: nat): (r: seq<Song>)
    requires i < |playlist|
    ensures |r| == |playlist|
    ensures r[i].isFavorite == !playlist[i].isFavorite
    ensures r[i].title == playlist[i].title && r[i].artist == playlist[i].artist
    ensures r[i].audioFormat == playlist[i].audioFormat
    ensures forall j :: 0 <= j < |r| && j != i ==> r[j] == playlist[j]
  {
    playlist[i := playlist[i].(isFavorite := !playlist[i].isFavorite)]
  }

  /** Toggling the same song twice restores the playlist. */
  lemma FlipFavoriteTwice(playlist: seq<Song>, i: nat)
    requires i < |playlist|
    ensures FlipFavorite(FlipFavorite(playlist, i), i) == playlist
  {
  }
}
