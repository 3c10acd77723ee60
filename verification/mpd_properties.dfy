/**
 * What the change detector of the MPD backend promises, stated over the
 * functions that specify `Backend.Refresh` and `Backend.Control`.
 */
module MpdProperties {
  import opened Wrappers
  import opened Text
  import opened MpdControl

  // ---------------------------------------------------------------------------
  // Connection handling

  /** Without a connection a refresh only tries to reconnect: caches, cover and flags stay as they were. */
  lemma DisconnectedRefreshOnlyReconnects(s: BackendState, full: bool, poll: Poll)
    requires !s.connected
    ensures var t := Refreshed(s, full, poll);
      t.connected == poll.reconnect &&
      t.status == s.status && t.song == s.song && t.cover == s.cover &&
      t.coverArtFile == s.coverArtFile && t.raised == s.raised
  {
  }

  /**
   * A status call that raises, a status reply lacking a key the comparison
   * reads (`KeyError`), or a song call that raises on a full refresh drops
   * the connection.
   */
  lemma FailedFetchDisconnects(s: BackendState, full: bool, poll: Poll)
    requires s.connected
    requires poll.status.None? || !DiffStatus(s.status, poll.status.value).ok || (full && poll.song.None?)
    ensures !Refreshed(s, full, poll).connected
  {
  }

  // ---------------------------------------------------------------------------
  // The status comparison

  /**
   * `State` is raised exactly when the reply's state differs from the cached
   * one, and `Active` exactly when that new state is "play".
   */
  lemma StateAndActiveFlags(cached: Status, reply: Dict)
    ensures var d := DiffStatus(cached, reply);
      (State in d.raised <==> "state" in reply && reply["state"] != cached.state) &&
      (Active in d.raised <==> "state" in reply && reply["state"] != cached.state && reply["state"] == "play")
  {
    if reply == StatusDict(cached) {
      assert reply["state"] == cached.state;
    }
  }

  /**
   * `Repeat`, `Random` and `Volume` are raised exactly when that field of the
   * reply differs from the cached one, provided no key read before it is
   * missing from the reply.
   */
  lemma FieldFlags(cached: Status, reply: Dict)
    ensures var d := DiffStatus(cached, reply);
      (Repeat in d.raised <==> "state" in reply && "repeat" in reply && reply["repeat"] != cached.repeat) &&
      (Random in d.raised <==>
        "state" in reply && "repeat" in reply && "random" in reply && reply["random"] != cached.random) &&
      (Volume in d.raised <==>
        "state" in reply && "repeat" in reply && "random" in reply && "volume" in reply &&
        reply["volume"] != cached.volume)
  {
    if reply == StatusDict(cached) {
      assert reply["repeat"] == cached.repeat && reply["random"] == cached.random;
      assert reply["volume"] == cached.volume;
    }
  }

  /**
   * `Elapsed` is raised by the status comparison exactly when the player is
   * not stopped and the elapsed time differs; a stopped player never raises it.
   */
  lemma ElapsedFlag(cached: Status, reply: Dict)
    ensures Elapsed in DiffStatus(cached, reply).raised <==>
      HasStatusKeys(reply) && reply["state"] != "stop" && reply["elapsed"] != cached.elapsed
  {
    if reply == StatusDict(cached) {
      assert reply["elapsed"] == cached.elapsed;
    }
  }

  /** The saved status of a stopped player has a blank elapsed time. */
  predicate StoppedBlank(st: Status) {
    st.state == "stop" ==> st.elapsed == ""
  }

  /** The reply as the cache stores it: a stopped player's elapsed time blanked. */
  function Normalised(reply: Dict): Dict
    requires "state" in reply
  {
    if reply["state"] == "stop" then reply["elapsed" := ""] else reply
  }

  /**
   * The status comparison succeeds exactly when the reply equals the cache or
   * holds every key it reads; the cache then equals the normalised reply, and
   * after a failure it is left as it was.
   */
  lemma StatusSaved(cached: Status, reply: Dict)
    requires StoppedBlank(cached)
    ensures var d := DiffStatus(cached, reply);
      (d.ok <==> (reply == StatusDict(cached) ||
        ("state" in reply && "repeat" in reply && "random" in reply && "volume" in reply &&
         (reply["state"] == "stop" || "elapsed" in reply)))) &&
      (d.ok ==> "state" in reply && StatusDict(d.cache) == Normalised(reply) && StoppedBlank(d.cache)) &&
      (!d.ok ==> d.cache == cached)
  {
    var d := DiffStatus(cached, reply);
    if reply == StatusDict(cached) {
      assert reply["state"] == cached.state && reply["elapsed"] == cached.elapsed;
      if reply["state"] == "stop" {
        assert reply["elapsed" := ""] == reply;
      }
    } else if d.ok {
      assert "state" in reply;
      if reply["state"] == "stop" {
        assert d.cache == ToStatus(reply["elapsed" := ""]);
        assert d.cache.elapsed == reply["elapsed" := ""]["elapsed"];
      }
    }
  }

  /** A refresh keeps a stopped player's saved elapsed time blank. */
  lemma RefreshKeepsStoppedBlank(s: BackendState, full: bool, poll: Poll)
    requires StoppedBlank(s.status)
    ensures StoppedBlank(Refreshed(s, full, poll).status)
  {
    if s.connected && poll.status.Some? {
      StatusSaved(s.status, poll.status.value);
    }
  }

  // ---------------------------------------------------------------------------
  // Reachable states

  /** None of the five status keys is among the other keys. */
  predicate NoStatusKeys(d: Dict) {
    "state" !in d && "elapsed" !in d && "repeat" !in d && "random" !in d && "volume" !in d
  }

  /** None of the six song keys is among the other keys. */
  predicate NoSongKeys(d: Dict) {
    "artist" !in d && "album" !in d && "date" !in d && "track" !in d && "title" !in d && "time" !in d
  }

  /**
   * What holds of every state a backend reaches: a stopped player's elapsed
   * time is blank, and the cached records keep their named keys out of the
   * other keys.
   */
  predicate Consistent(s: BackendState) {
    StoppedBlank(s.status) && NoStatusKeys(s.status.others) && NoSongKeys(s.song.others)
  }

  /** A new backend is consistent. */
  lemma InitialConsistent(connected: bool, localCovers: bool)
    ensures Consistent(Initial(connected, localCovers))
  {
  }

  /** A saved status reply keeps the five keys out of the other keys. */
  lemma SavedStatusNoKeys(d: Dict)
    requires HasStatusKeys(d)
    ensures NoStatusKeys(ToStatus(d).others)
  {
  }

  /** A saved song reply keeps the six keys out of the other keys. */
  lemma SavedSongNoKeys(d: Dict)
    requires HasSongKeys(d)
    ensures NoSongKeys(ToSong(d).others)
  {
  }

  /** A refresh keeps the cached status, or replaces it by the cache of the status comparison. */
  lemma RefreshedStatus(s: BackendState, full: bool, poll: Poll)
    ensures var t := Refreshed(s, full, poll);
      t.status == s.status || (poll.status.Some? && t.status == DiffStatus(s.status, poll.status.value).cache)
  {
  }

  /** A refresh keeps the cached song, or replaces it by the fetched song with its defaults. */
  lemma RefreshedSong(s: BackendState, full: bool, poll: Poll)
    ensures var t := Refreshed(s, full, poll);
      t.song == s.song || (poll.song.Some? && t.song == ToSong(WithDefaults(poll.song.value)))
  {
    if s.connected && full && poll.song.Some? {
      var s1 := match poll.status
        case None => s.(connected := false)
        case Some(reply) =>
          var d := DiffStatus(s.status, reply);
          s.(raised := s.raised + d.raised, status := d.cache, connected := d.ok);
      if s1.connected {
        SongUpdateFlags(s1, ToSong(WithDefaults(poll.song.value)), poll.coverFiles);
      }
    }
  }

  /** A refresh keeps a backend consistent. */
  lemma RefreshKeepsConsistent(s: BackendState, full: bool, poll: Poll)
    requires Consistent(s)
    ensures Consistent(Refreshed(s, full, poll))
  {
    var t := Refreshed(s, full, poll);
    RefreshKeepsStoppedBlank(s, full, poll);
    RefreshedStatus(s, full, poll);
    RefreshedSong(s, full, poll);
    if t.status != s.status {
      var d := DiffStatus(s.status, poll.status.value);
      if d.cache != s.status {
        assert d.ok && poll.status.value != StatusDict(s.status);
        var reply := poll.status.value;
        if reply["state"] == "stop" {
          SavedStatusNoKeys(reply["elapsed" := ""]);
        } else {
          SavedStatusNoKeys(reply);
        }
      }
    }
    if t.song != s.song {
      SavedSongNoKeys(WithDefaults(poll.song.value));
    }
  }

  /** A command keeps a backend consistent. */
  lemma ControlKeepsConsistent(s: BackendState, command: string, parameter: int, delivered: bool)
    requires Consistent(s)
    ensures Consistent(Controlled(s, command, parameter, delivered))
  {
  }

  /** Two song records whose other keys hold none of the six are equal exactly when their dictionaries are. */
  lemma SongDictInjective(a: Song, b: Song)
    requires NoSongKeys(a.others) && NoSongKeys(b.others)
    ensures a == b <==> SongDict(a) == SongDict(b)
  {
    if SongDict(a) == SongDict(b) {
      var d := SongDict(a);
      assert a.artist == d["artist"] == b.artist && a.album == d["album"] == b.album;
      assert a.date == d["date"] == b.date && a.track == d["track"] == b.track;
      assert a.title == d["title"] == b.title && a.time == d["time"] == b.time;
      forall k | k in a.others ensures k in b.others && b.others[k] == a.others[k] {
        assert d[k] == a.others[k];
      }
      forall k | k in b.others ensures k in a.others {
        assert k in d;
      }
      assert a.others == b.others;
    }
  }

  /**
   * In a consistent state, comparing the fetched song record with the cached
   * one decides what the source's comparison of the two dictionaries decides.
   */
  lemma SongComparisonFaithful(s: BackendState, reply: Dict)
    requires Consistent(s)
    ensures ToSong(WithDefaults(reply)) == s.song <==> WithDefaults(reply) == SongDict(s.song)
  {
    var filled := WithDefaults(reply);
    SongRoundTrip(filled);
    SongDictInjective(ToSong(filled), s.song);
  }

  // ---------------------------------------------------------------------------
  // The song comparison

  /** A status-only refresh leaves the song, the cover and the song flags alone. */
  lemma StatusOnlyRefreshKeepsSong(s: BackendState, poll: Poll)
    ensures var t := Refreshed(s, false, poll);
      t.song == s.song && t.cover == s.cover && t.coverArtFile == s.coverArtFile &&
      (TrackInfo in t.raised <==> TrackInfo in s.raised) &&
      (CoverArt in t.raised <==> CoverArt in s.raised)
  {
  }

  /** Each song field missing from the reply is read as "". */
  lemma SongDefaults(reply: Dict)
    ensures var so := ToSong(WithDefaults(reply));
      so.artist == (if "artist" in reply then reply["artist"] else "") &&
      so.album == (if "album" in reply then reply["album"] else "") &&
      so.date == (if "date" in reply then reply["date"] else "") &&
      so.track == (if "track" in reply then reply["track"] else "") &&
      so.title == (if "title" in reply then reply["title"] else "") &&
      so.time == (if "time" in reply then reply["time"] else "")
  {
  }

  /**
   * A fetched song replaces the cached one. `TrackInfo` is raised exactly
   * when one of the six fields differs, `Elapsed` (also) when the time
   * differs, `CoverArt` when the album differs; an album change looks the
   * cover up again, otherwise the cover is kept.
   */
  lemma SongUpdateFlags(s: BackendState, song: Song, files: seq<CoverFile>)
    ensures var t := SongUpdated(s, song, files);
      t.song == song && t.status == s.status && t.connected == s.connected &&
      s.raised <= t.raised &&
      (TrackInfo in t.raised <==> TrackInfo in s.raised || TrackInfoDiffers(s.song, song)) &&
      (Elapsed in t.raised <==> Elapsed in s.raised || song.time != s.song.time) &&
      (CoverArt in t.raised <==> CoverArt in s.raised || song.album != s.song.album) &&
      (t.raised <= s.raised + {TrackInfo, Elapsed, CoverArt})
  {
  }

  /** After an album change the cover is the chosen local image, and is cleared when there is none. */
  lemma AlbumChangeFetchesCover(s: BackendState, song: Song, files: seq<CoverFile>)
    requires song.album != s.song.album
    ensures var t := SongUpdated(s, song, files);
      var found := "file" in song.others && s.localCovers && exists i :: 0 <= i < |files| && IsImage(files[i].path);
      (t.cover <==> found) &&
      t.coverArtFile == (if found then CoverPath(files) else "")
  {
  }

  /** Without an album change the cover stays as it was. */
  lemma SameAlbumKeepsCover(s: BackendState, song: Song, files: seq<CoverFile>)
    requires song.album == s.song.album
    ensures var t := SongUpdated(s, song, files);
      t.cover == s.cover && t.coverArtFile == s.coverArtFile
  {
  }

  // ---------------------------------------------------------------------------
  // Commands

  /** The repeat and random toggles: "0" asks for 1, "1" for 0, and a blank value makes `int` raise. */
  lemma ToggleValues()
    ensures Toggled("0") == Some(1) && Toggled("1") == Some(0) && Toggled("") == None
  {
    ParseShowNat(0);
    ParseShowNat(1);
  }

  /** `seek` and `volume` with the parameter -1 do nothing. */
  lemma MinusOneIgnored(status: Status, song: Song)
    ensures ClientCallFor("seek", -1, status, song) == Ignored
    ensures ClientCallFor("volume", -1, status, song) == Ignored
  {
  }

  /**
   * Without a connection a command is only logged; with one it issues at
   * most one call, exactly the one the vocabulary names.
   */
  lemma ControlIssues(s: BackendState, command: string, parameter: int, delivered: bool)
    ensures var t := Controlled(s, command, parameter, delivered);
      (!s.connected ==> t.calls == s.calls && !t.connected) &&
      (s.connected ==> match ClientCallFor(command, parameter, s.status, s.song)
        case Issue(c) => t.calls == s.calls + [c] && t.connected == delivered
        case Ignored => t.calls == s.calls && t.connected
        case Fails => t.calls == s.calls && !t.connected)
  {
  }
}
