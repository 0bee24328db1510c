# Music player state machine

A model of the `MusicPlayer` class of `music1.cpp`: a single-user, in-memory
playlist with a current selection, play/pause/stop flags, a favourite flag per
song and an equalizer level. The player is a Dafny class whose fields are the
C++ fields (`playlist` as a `seq<Song>`, `currentSongIndex` with -1 for "no
selection", `isPlaying`, `isPaused`, `equalizerSetting`). The state-changing
methods return the status line they print, as one `Report` constructor per
branch; the two queries return the listing and the search hits.

The object invariant `Valid()` holds after the constructor and is kept by
every method:

- `currentSongIndex` is -1 or a valid index into `playlist`;
- `isPaused` implies `isPlaying`;
- `isPlaying` implies that a song is selected;
- `equalizerSetting` lies in 0..10.

`Pause` and `Stop` read `playlist[currentSongIndex]` without checking the
index first. They verify only because of this invariant.

Files:

- `text.dfy` (module `Text`) is substring search, i.e. what `std::string::find` gives the player.
- `songs.dfy` (module `Songs`) holds the song record and the read-only views of a playlist:
  - the search result, as a specification function with lemmas;
  - the numbered listing;
  - the favourite flip.
- `player.dfy` (module `Player`) is the `MusicPlayer` class.
- `scenarios.dfy` (module `Scenarios`) has client code: sequences of player calls, proved from the player's contracts alone (play needs a song and a selection, the listing keeps insertion order, favourite toggling, the equalizer bounds).

`selectSong` (music1.cpp:104-111) does not touch `isPlaying` or `isPaused`,
so selecting another song while playing leaves the player playing on the new
index; `SelectSong`'s contract says so.

## Model

| member | source | states |
|---|---|---|
| `Songs.NewSong` | music1.cpp:17 | a new song keeps the given title, artist and format and is not a favourite |
| `Text.Find` | music1.cpp:53 | `find` returns npos exactly when the query is not a substring; otherwise it returns the first position where the query occurs |
| `Text.ContainsEmpty` | music1.cpp:53 | the empty query occurs in every string |
| `Songs.Search` | music1.cpp:50-61 | search hits are never more than the playlist's songs, and every hit is a playlist song whose title or artist contains the query |
| `Songs.SearchComplete` | music1.cpp:52-56 | every song whose title or artist contains the query is reported |
| `Songs.SearchExactly` | music1.cpp:52-56 | a song is reported if and only if it is in the playlist and its title or artist contains the query |
| `Songs.SearchNotFound` | music1.cpp:51-60 | "no song found" happens if and only if no song matches |
| `Songs.SearchAppend` | music1.cpp:52-57 | searching a concatenated playlist gives the hits of each part, in playlist order |
| `Songs.SearchEmptyQuery` | music1.cpp:52-56 | an empty query reports the whole playlist, in order |
| `Songs.Numbered` | music1.cpp:40-46 | the listing has exactly one line per song |
| `Songs.NumberedAt` | music1.cpp:40-46 | line k shows song k's title, artist and format, numbered k + 1, with the favourite marker if and only if the song is a favourite |
| `Songs.FlipFavorite` | music1.cpp:115 | only the selected song's favourite flag is negated; its metadata and every other song stay as they were |
| `Songs.FlipFavoriteTwice` | music1.cpp:113-120 | toggling the same song twice restores the playlist |
| `Player.MusicPlayer.constructor` | music1.cpp:29 | the player starts with an empty playlist, no selection, not playing, not paused, equalizer at 5, and satisfies the invariant |
| `Player.MusicPlayer.AddSong` | music1.cpp:31-33 | appends exactly one non-favourite song; selection, flags and equalizer are unchanged and the invariant is kept |
| `Player.MusicPlayer.ShowPlaylist` | music1.cpp:35-48 | reports an empty playlist if and only if there are no songs; otherwise it shows the numbered listing of the playlist |
| `Player.MusicPlayer.SearchSong` | music1.cpp:50-61 | reports exactly the search hits in playlist order, and reports "found" if and only if there is a hit |
| `Player.MusicPlayer.Play` | music1.cpp:63-79 | with an empty playlist or no selection it only reports and changes nothing; otherwise it ends playing and not paused, keeps playlist, index and equalizer, and reports the song, the equalizer and "finished" |
| `Player.MusicPlayer.Pause` | music1.cpp:81-92 | pauses only when playing and not paused, reporting the song; otherwise it changes nothing and reports "already paused" or "nothing to pause" |
| `Player.MusicPlayer.Stop` | music1.cpp:94-102 | when playing, it clears both flags and reports the song; otherwise it changes nothing; playlist, index and equalizer are never touched |
| `Player.MusicPlayer.SelectSong` | music1.cpp:104-111 | selects index `index - 1` if and only if `1 <= index <= size`; otherwise the selection is kept; the playback flags, playlist and equalizer never change |
| `Player.MusicPlayer.ToggleFavorite` | music1.cpp:113-120 | with a selection, only that song's flag flips and the new value is reported; without one, nothing changes |
| `Player.MusicPlayer.AdjustEqualizer` | music1.cpp:122-129 | stores the setting if and only if it lies in 0..10; otherwise the old setting is kept; the other state never changes |
| `Player.MusicPlayer.SimulateAudioPlayback` | music1.cpp:132-138 | "playback finished" is reported if and only if the player is still playing |
| `Player.MusicPlayer.ShowEqualizer` | music1.cpp:140-142 | shows the current equalizer setting, which always lies in 0..10 |

## Left out

- The three-second `sleep_for` in `simulateAudioPlayback` is left out because it is only a delay. Nothing runs during it, so "finished" is always reported. `Play`'s contract says so.
- The exact text printed by `cout` is not modelled. Each branch's message is a `Report` constructor that carries the values the message shows.
- The interactive `main` loop is left out. It reads input with `cin`/`getline` and dispatches menu numbers 1-10 to the methods, whose contracts cover that behaviour. Behaviour on malformed numeric input is a property of the platform's stream library.
- C++ `int` is modelled as an unbounded integer. No operation does arithmetic that could overflow: `index - 1` runs only after `index >= 1`.
- `std::string::npos` is modelled as -1 rather than the largest `size_t`. Only the comparison with it matters.
- Strings are sequences of characters, not bytes; `Find`'s position is a character index; only whether it equals npos is used.
