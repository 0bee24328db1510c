/** The player: a playlist, a current selection and the play/pause/stop flags. */
module Player {
  import opened Text
  import opened Songs

  /** The status line each operation prints, one constructor per branch. */
  datatype Report =
    | NoSongsToPlay
    | NoSongSelectedToPlay
    | Playing(title: string, artist: string, equalizer: int, finished: bool)
    | Paused(title: string)
    | AlreadyPaused
    | NothingToPause
    | Stopped(title: string)
    | NothingToStop
    | Selected(title: string)
    | InvalidSongIndex
    | MarkedFavorite(favorite: bool)
    | NoSongSelectedToMark
    | EqualizerAdjusted(setting: int)
    | InvalidEqualizerSetting

  /** The equalizer accepts the closed range 0..10. */
  predicate InEqualizerRange(setting: int)
  {
    0 <= setting <= 10
  }

  class MusicPlayer {
    var playlist: seq<Song>
    var currentSongIndex: int   // -1: no song selected
    var isPlaying: bool
    var isPaused: bool
    var equalizerSetting: int

    /** The object invariant; it is what keeps `playlist[currentSongIndex]` in `Pause` and `Stop` in bounds. */
    ghost predicate Valid()
      reads this
    {
      (currentSongIndex == -1 || 0 <= currentSongIndex < |playlist|) &&
      (isPaused ==> isPlaying) &&
      (isPlaying ==> currentSongIndex != -1) &&
      InEqualizerRange(equalizerSetting)
    }

    constructor ()
      ensures Valid()
      ensures playlist == [] && currentSongIndex == -1
      ensures !isPlaying && !isPaused && equalizerSetting == 5
    {
      playlist := [];
      currentSongIndex := -1;
      isPlaying := false;
      isPaused := false;
      equalizerSetting := 5;
    }

    /** Appends one new, non-favourite song; nothing else changes. */
    method AddSong(title: string, artist: string, audioFormat: string)
      requires Valid()
      modifies this
      ensures Valid()
      ensures playlist == old(playlist) + [NewSong(title, artist, audioFormat)]
      ensures currentSongIndex == old(currentSongIndex)
      ensures isPlaying == old(isPlaying) && isPaused == old(isPaused)
      ensures equalizerSetting == old(equalizerSetting)
    {
      playlist := playlist + [NewSong(title, artist, audioFormat)];
    }

    /** Lists the songs numbered from 1, or reports an empty playlist. */
    method ShowPlaylist() returns (view: PlaylistView)
      ensures view.NoSongs? <==> playlist == []
      ensures view.Listing? ==> view.entries == Numbered(playlist)
    {
      if playlist == [] {
        return NoSongs;
      }
      var entries := [];
      var i := 0;
      while i < |playlist|
        invariant 0 <= i <= |playlist|
        invariant entries == Numbered(playlist[..i])
      {
        assert playlist[..i + 1][..i] == playlist[..i];
        entries := entries + [EntryFor(i + 1, playlist[i])];
        i := i + 1;
      }
      assert playlist[..i] == playlist;
      view := Listing(entries);
    }

    /** Reports every song whose title or artist contains `search`, and whether any did. */
    method SearchSong(search: string) returns (hits: seq<Song>, found: bool)
      ensures hits == Search(playlist, search)
      ensures found <==> hits != []
    {
      found := false;
      hits := [];
      var i := 0;
      while i < |playlist|
        invariant 0 <= i <= |playlist|
        invariant hits == Search(playlist[..i], search)
        invariant found <==> hits != []
      {
        var song := playlist[i];
        assert playlist[..i + 1][..i] == playlist[..i];
        var inTitle := Find(song.title, search);
        var inArtist := Npos;
        if inTitle == Npos {
          inArtist := Find(song.artist, search);
        }
        if inTitle != Npos || inArtist != Npos {
          hits := hits + [song];
          found := true;
        }
        i := i + 1;
      }
      assert playlist[..i] == playlist;
    }

    /** Starts playing the selected song, unless the playlist is empty or nothing is selected. */
    method Play() returns (r: Report)
      requires Valid()
      modifies this
      ensures Valid()
      ensures old(playlist) == [] ==> r == NoSongsToPlay && unchanged(this)
      ensures old(playlist) != [] && old(currentSongIndex) == -1 ==>
                r == NoSongSelectedToPlay && unchanged(this)
      ensures old(playlist) != [] && old(currentSongIndex) != -1 ==>
                isPlaying && !isPaused &&
                playlist == old(playlist) && currentSongIndex == old(currentSongIndex) &&
                equalizerSetting == old(equalizerSetting) &&
                r == Playing(playlist[currentSongIndex].title, playlist[currentSongIndex].artist,
                             equalizerSetting, true)
    {
      if playlist == [] {
        return NoSongsToPlay;
      }
      if currentSongIndex == -1 {
        return NoSongSelectedToPlay;
      }
      isPlaying := true;
      isPaused := false;
      var song := playlist[currentSongIndex];
      var level := ShowEqualizer();
      var finished := SimulateAudioPlayback();
      r := Playing(song.title, song.artist, level, finished);
    }

    /** Pauses a song that is playing; otherwise only reports why not. */
    method Pause() returns (r: Report)
      requires Valid()
      modifies this
      ensures Valid()
      ensures old(isPlaying && !isPaused) ==>
                isPaused && isPlaying && playlist == old(playlist) &&
                currentSongIndex == old(currentSongIndex) &&
                equalizerSetting == old(equalizerSetting) &&
                r == Paused(playlist[currentSongIndex].title)
      ensures !old(isPlaying && !isPaused) ==>
                unchanged(this) && r == (if isPaused then AlreadyPaused else NothingToPause)
    {
      if isPlaying && !isPaused {
        isPaused := true;
        r := Paused(playlist[currentSongIndex].title);
      } else if isPaused {
        r := AlreadyPaused;
      } else {
        r := NothingToPause;
      }
    }

    /** Stops a song that is playing (paused or not); otherwise only reports. */
    method Stop() returns (r: Report)
      requires Valid()
      modifies this
      ensures Valid()
      ensures old(isPlaying) ==>
                !isPlaying && !isPaused && playlist == old(playlist) &&
                currentSongIndex == old(currentSongIndex) &&
                equalizerSetting == old(equalizerSetting) &&
                r == Stopped(playlist[currentSongIndex].title)
      ensures !old(isPlaying) ==> unchanged(this) && r == NothingToStop
    {
      if isPlaying {
        isPlaying := false;
        isPaused := false;
        r := Stopped(playlist[currentSongIndex].title);
      } else {
        r := NothingToStop;
      }
    }

    /** Selects song number `index` (1-based) when it exists; the playback flags are left as they are. */
    method SelectSong(index: int) returns (r: Report)
      requires Valid()
      modifies this
      ensures Valid()
      ensures playlist == old(playlist) && equalizerSetting == old(equalizerSetting)
      ensures isPlaying == old(isPlaying) && isPaused == old(isPaused)
      ensures 1 <= index <= |playlist| ==>
                currentSongIndex == index - 1 && r == Selected(playlist[index - 1].title)
      ensures !(1 <= index <= |playlist|) ==>
                currentSongIndex == old(currentSongIndex) && r == InvalidSongIndex
    {
      if index >= 1 && index <= |playlist| {
        currentSongIndex := index - 1;
        r := Selected(playlist[currentSongIndex].title);
      } else {
        r := InvalidSongIndex;
      }
    }

    /** Flips the favourite flag of the selected song, and of no other. */
    method ToggleFavorite() returns (r: Report)
      requires Valid()
      modifies this
      ensures Valid()
      ensures currentSongIndex == old(currentSongIndex) && equalizerSetting == old(equalizerSetting)
      ensures isPlaying == old(isPlaying) && isPaused == old(isPaused)
      ensures old(currentSongIndex) != -1 ==>
                playlist == FlipFavorite(old(playlist), old(currentSongIndex)) &&
                r == MarkedFavorite(playlist[currentSongIndex].isFavorite)
      ensures old(currentSongIndex) == -1 ==>
                playlist == old(playlist) && r == NoSongSelectedToMark
    {
      if currentSongIndex != -1 {
        playlist := playlist[currentSongIndex := playlist[currentSongIndex].(isFavorite := !playlist[currentSongIndex].isFavorite)];
        r := MarkedFavorite(playlist[currentSongIndex].isFavorite);
      } else {
        r := NoSongSelectedToMark;
      }
    }

    /** Stores `setting` when it lies in 0..10; otherwise keeps the old setting. */
    method AdjustEqualizer(setting: int) returns (r: Report)
      requires Valid()
      modifies this
      ensures Valid()
      ensures playlist == old(playlist) && currentSongIndex == old(currentSongIndex)
      ensures isPlaying == old(isPlaying) && isPaused == old(isPaused)
      ensures InEqualizerRange(setting) ==>
                equalizerSetting == setting && r == EqualizerAdjusted(setting)
      ensures !InEqualizerRange(setting) ==>
                equalizerSetting == old(equalizerSetting) && r == InvalidEqualizerSetting
    {
      if setting >= 0 && setting <= 10 {
        equalizerSetting := setting;
        r := EqualizerAdjusted(equalizerSetting);
      } else {
        r := InvalidEqualizerSetting;
      }
    }

    /** The blocking wait is left out; "finished" is reported iff the player is still playing. */
    method SimulateAudioPlayback() returns (finished: bool)
      ensures finished == isPlaying
    {
      finished := isPlaying;
    }

    /** The equalizer setting shown while playing, always within 0..10. */
    method ShowEqualizer() returns (level: int)
      requires Valid()
      ensures level == equalizerSetting && InEqualizerRange(level)
    {
      level := equalizerSetting;
    }
  }
}
