/** Client code: sequences of player calls, proved from the player's contracts alone. */
module Scenarios {
  import opened Songs
  import opened Player

  method PlayNeedsSongAndSelection()
  {
    var player := new MusicPlayer();
    var r := player.Play();
    assert r == NoSongsToPlay;
    player.AddSong("Song A", "Artist A", "mp3");
    r := player.Play();
    assert r == NoSongSelectedToPlay;
    r := player.SelectSong(1);
    assert r == Selected("Song A");
    r := player.Play();
    assert r == Playing("Song A", "Artist A", 5, true);
    r := player.Pause();
    assert r == Paused("Song A");
    r := player.Pause();
    assert r == AlreadyPaused;
    r := player.Stop();
    assert r == Stopped("Song A");
    r := player.Pause();
    assert r == NothingToPause && !player.isPlaying && !player.isPaused;
  }

  method ListingInInsertionOrder()
  {
    var player := new MusicPlayer();
    player.AddSong("Song A", "Artist A", "mp3");
    player.AddSong("Song B", "Artist B", "wav");
    var view := player.ShowPlaylist();
    NumberedAt(player.playlist, 0);
    NumberedAt(player.playlist, 1);
    assert view.entries == [Entry(1, "Song A", "Artist A", "mp3", false),
                            Entry(2, "Song B", "Artist B", "wav", false)];
  }

  method FavoriteAndEqualizer()
  {
    var player := new MusicPlayer();
    var r := player.ToggleFavorite();
    assert r == NoSongSelectedToMark;
    player.AddSong("Song A", "Artist A", "mp3");
    r := player.SelectSong(2);
    assert r == InvalidSongIndex;
    r := player.SelectSong(1);
    r := player.ToggleFavorite();
    assert r == MarkedFavorite(true);
    r := player.ToggleFavorite();
    assert r == MarkedFavorite(false);
    r := player.AdjustEqualizer(11);
    assert r == InvalidEqualizerSetting && player.equalizerSetting == 5;
    r := player.AdjustEqualizer(-1);
    assert r == InvalidEqualizerSetting && player.equalizerSetting == 5;
    r := player.AdjustEqualizer(10);
    assert player.equalizerSetting == 10;
  }

  /** Two `ToggleFavorite` calls on a selected song restore the playlist. */
  method ToggleTwiceRestores(player: MusicPlayer)
    requires player.Valid() && player.currentSongIndex != -1
    modifies player
    ensures player.Valid() && player.playlist == old(player.playlist)
  {
    var before := player.playlist;
    var r := player.ToggleFavorite();
    r := player.ToggleFavorite();
    FlipFavoriteTwice(before, player.currentSongIndex);
  }
}
