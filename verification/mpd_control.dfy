/**
 * The MPD backend of the player front end: a cached status and song record,
 * eight change flags, the change detector run on every poll, the flag
 * force/acknowledge operations, the command mapping onto MPD client calls and
 * the choice of a local cover-art file.
 *
 * The MPD server is not modelled: what one poll of it answers is a `Poll`
 * value passed in, and every client call the backend issues is appended to
 * the ghost log `calls`.
 */
module MpdControl {
  import opened Wrappers
  import opened Text

  /** A Python dictionary from string keys to string values (MPD replies and the caches). */
  type Dict = map<string, string>

  /** The eight keys of the `update` dictionary. */
  datatype Flag = Active | State | Elapsed | Random | Repeat | Volume | TrackInfo | CoverArt

  const AllFlags: set<Flag> := {Active, State, Elapsed, Random, Repeat, Volume, TrackInfo, CoverArt}

  const StatusKeys: set<string> := {"state", "elapsed", "repeat", "random", "volume"}
  const SongKeys: set<string> := {"artist", "album", "date", "track", "title", "time"}

  /** What the controller asked of a backend. */
  datatype Request = ControlRequest(command: string, parameter: int) | VolumeRequest(volume: int)

  /** The MPD client calls the backend issues. `SeekScaled(p, t)` stands for `seekcur(p * t)`. */
  datatype ClientCall =
    | Next | Previous | Pause | Play | Stop
    | SeekCur(offset: string)
    | SeekScaled(fraction: int, duration: int)
    | SetRepeat(mode: int)
    | SetRandom(mode: int)
    | SetVol(volume: int)

  /** A `folder.*` file found next to the song, with its size in bytes. */
  datatype CoverFile = CoverFile(path: string, size: nat)

  /**
   * What the environment answers during one refresh: whether a reconnect
   * attempt succeeds, the `status()` reply, the `currentsong()` reply (`None`
   * when the call raises) and the `folder.*` files of the song's directory.
   */
  datatype Poll = Poll(reconnect: bool, status: Option<Dict>, song: Option<Dict>, coverFiles: seq<CoverFile>)

  /** The cached status: the five keys the source reads, and every other key of the saved reply. */
  datatype Status = Status(state: string, elapsed: string, repeat: string, random: string, volume: string, others: Dict)

  /** The cached song: the six keys the source reads, and every other key of the saved reply. */
  datatype Song = Song(artist: string, album: string, date: string, track: string, title: string, time: string, others: Dict)

  /** The five keys of a status. */
  predicate HasStatusKeys(d: Dict) {
    "state" in d && "elapsed" in d && "repeat" in d && "random" in d && "volume" in d
  }

  /** The six keys of a song. */
  predicate HasSongKeys(d: Dict) {
    "artist" in d && "album" in d && "date" in d && "track" in d && "title" in d && "time" in d
  }

  /** The cached status as the dictionary the source holds. */
  function StatusDict(st: Status): (d: Dict)
    ensures HasStatusKeys(d)
  {
    st.others["state" := st.state]["elapsed" := st.elapsed]["repeat" := st.repeat]
      ["random" := st.random]["volume" := st.volume]
  }

  /** A status reply holding the five keys, as the cache saves it. */
  function ToStatus(d: Dict): Status
    requires HasStatusKeys(d)
  {
    Status(d["state"], d["elapsed"], d["repeat"], d["random"], d["volume"], d - StatusKeys)
  }

  /** Saving a status reply loses nothing: the saved record, as a dictionary, is the reply. */
  lemma StatusRoundTrip(d: Dict)
    requires HasStatusKeys(d)
    ensures StatusDict(ToStatus(d)) == d
  {
    assert StatusDict(ToStatus(d)).Keys == d.Keys;
  }

  /** The cached song as the dictionary the source holds. */
  function SongDict(so: Song): (d: Dict)
    ensures HasSongKeys(d)
  {
    so.others["artist" := so.artist]["album" := so.album]["date" := so.date]
      ["track" := so.track]["title" := so.title]["time" := so.time]
  }

  /** A song reply holding the six keys, as the cache saves it. */
  function ToSong(d: Dict): Song
    requires HasSongKeys(d)
  {
    Song(d["artist"], d["album"], d["date"], d["track"], d["title"], d["time"], d - SongKeys)
  }

  /** Saving a song loses nothing: the saved record, as a dictionary, is the song. */
  lemma SongRoundTrip(d: Dict)
    requires HasSongKeys(d)
    ensures SongDict(ToSong(d)) == d
  {
    assert SongDict(ToSong(d)).Keys == d.Keys;
  }

  const InitialStatus: Status := Status("", "", "", "", "", map[])
  const InitialSong: Song := Song("", "", "", "", "", "", map[])

  /** Everything a backend holds that changes; `localCovers` is the configured library path being set. */
  datatype BackendState = BackendState(
    connected: bool,
    status: Status,
    song: Song,
    cover: bool,
    coverArtFile: string,
    raised: set<Flag>,
    localCovers: bool,
    calls: seq<ClientCall>,
    received: seq<Request>)

  /** `MPDControl()`: empty caches and no flag raised. */
  function Initial(connected: bool, localCovers: bool): (s: BackendState)
    ensures s.raised == {} && !s.cover && s.status.state == ""
  {
    BackendState(connected, InitialStatus, InitialSong, false, "", {}, localCovers, [], [])
  }

  function FlagIf(differs: bool, f: Flag): set<Flag> {
    if differs then {f} else {}
  }

  // ---------------------------------------------------------------------------
  // Change detection on the status reply

  /** The flags raised so far, the status cache afterwards, and whether no exception was raised. */
  datatype Diff = Diff(raised: set<Flag>, cache: Status, ok: bool)

  /** A state change raises `State`; a change into "play" also raises `Active`. */
  function StateFlags(cached: string, fetched: string): (r: set<Flag>)
    ensures State in r <==> fetched != cached
    ensures Active in r <==> fetched != cached && fetched == "play"
    ensures forall f :: f in r ==> f == State || f == Active
  {
    if fetched != cached then {State} + FlagIf(fetched == "play", Active) else {}
  }

  /**
   * The comparison of a `status()` reply with the cached status: nothing to
   * do when they are equal, otherwise `FieldsDiff`.
   */
  function DiffStatus(cached: Status, reply: Dict): (d: Diff)
    ensures reply == StatusDict(cached) ==> d == Diff({}, cached, true)
    ensures TrackInfo !in d.raised && CoverArt !in d.raised
    ensures !d.ok ==> d.cache == cached
  {
    if reply == StatusDict(cached) then Diff({}, cached, true) else FieldsDiff(cached, reply)
  }

  /**
   * The field-by-field comparison, in the source's order: a key missing from
   * the reply raises `KeyError` there, keeping the flags raised before it and
   * dropping the connection.
   */
  function FieldsDiff(cached: Status, reply: Dict): (d: Diff)
    ensures d.ok <==> (
      "state" in reply && "repeat" in reply && "random" in reply && "volume" in reply &&
      (reply["state"] == "stop" || "elapsed" in reply))
    ensures TrackInfo !in d.raised && CoverArt !in d.raised
    ensures !d.ok ==> d.cache == cached
  {
    if "state" !in reply then Diff({}, cached, false)
    else
      var f1 := StateFlags(cached.state, reply["state"]);
      if "repeat" !in reply then Diff(f1, cached, false)
      else
        var f2 := f1 + FlagIf(reply["repeat"] != cached.repeat, Repeat);
        if "random" !in reply then Diff(f2, cached, false)
        else
          var f3 := f2 + FlagIf(reply["random"] != cached.random, Random);
          if "volume" !in reply then Diff(f3, cached, false)
          else
            var f4 := f3 + FlagIf(reply["volume"] != cached.volume, Volume);
            if reply["state"] == "stop" then Diff(f4, ToStatus(reply["elapsed" := ""]), true)
            else if "elapsed" !in reply then Diff(f4, cached, false)
            else Diff(f4 + FlagIf(reply["elapsed"] != cached.elapsed, Elapsed), ToStatus(reply), true)
  }

  // ---------------------------------------------------------------------------
  // Change detection on the song reply

  /** `d` with the key `k` added as "" when it lacks it. */
  function Default(d: Dict, k: string): (r: Dict)
    ensures k in r
    ensures forall j :: j in d ==> j in r && r[j] == d[j]
  {
    if k in d then d else d[k := ""]
  }

  /** The reply of `currentsong()` with each of the six song keys it lacks set to "". */
  function WithDefaults(reply: Dict): (song: Dict)
    ensures HasSongKeys(song)
    ensures forall k :: k in reply ==> k in song && song[k] == reply[k]
  {
    Default(Default(Default(Default(Default(Default(reply, "artist"), "album"), "date"), "track"), "title"), "time")
  }

  /** One of the six song fields differs. */
  predicate TrackInfoDiffers(cached: Song, song: Song) {
    song.artist != cached.artist || song.album != cached.album || song.date != cached.date ||
    song.track != cached.track || song.title != cached.title || song.time != cached.time
  }

  /** The flags a changed song raises: track info, cover art on an album change, elapsed on a time change. */
  function SongFlags(cached: Song, song: Song): (r: set<Flag>)
    ensures TrackInfo in r <==> TrackInfoDiffers(cached, song)
    ensures CoverArt in r <==> song.album != cached.album
    ensures Elapsed in r <==> song.time != cached.time
    ensures forall f :: f in r ==> f == TrackInfo || f == CoverArt || f == Elapsed
  {
    if song == cached then {}
    else
      FlagIf(TrackInfoDiffers(cached, song), TrackInfo)
      + FlagIf(song.album != cached.album, CoverArt)
      + FlagIf(song.time != cached.time, Elapsed)
  }

  // ---------------------------------------------------------------------------
  // Cover art

  /** A file name `fetch_coverart` accepts as an image: one of four suffixes, in any case. */
  predicate IsImage(path: string)
    ensures IsImage(path) ==> 4 <= |path|
  {
    var p := Lower(path);
    EndsWith(p, ".png") || EndsWith(p, ".jpg") || EndsWith(p, ".jpeg") || EndsWith(p, ".gif")
  }

  /** Which of the files are images. */
  function Images(files: seq<CoverFile>): (image: seq<bool>)
    ensures |image| == |files|
    ensures forall i :: 0 <= i < |files| ==> image[i] == IsImage(files[i].path)
  {
    seq(|files|, i requires 0 <= i < |files| => IsImage(files[i].path))
  }

  /**
   * The index the selection loop settles on, given which files are images:
   * the first image, replaced by each later image that is strictly larger.
   */
  function Largest(files: seq<CoverFile>, image: seq<bool>): (r: Option<nat>)
    requires |image| == |files|
    ensures r.None? <==> forall i :: 0 <= i < |files| ==> !image[i]
    ensures r.Some? ==> r.value < |files| && image[r.value]
    ensures r.Some? ==> forall j :: 0 <= j < |files| && image[j] ==> files[j].size <= files[r.value].size
    ensures r.Some? ==> forall j :: 0 <= j < r.value && image[j] ==> files[j].size < files[r.value].size
  {
    if files == [] then None
    else
      var last := |files| - 1;
      var b := Largest(files[..last], image[..last]);
      if !image[last] then b
      else if b.None? then Some(last)
      else if files[b.value].size < files[last].size then Some(last)
      else b
  }

  /**
   * The cover file `fetch_coverart` picks: none when no file is an image;
   * otherwise an image at least as large as every other image, and the
   * earliest of the largest.
   */
  function BestCover(files: seq<CoverFile>): (r: Option<nat>)
    ensures r.None? <==> forall i :: 0 <= i < |files| ==> !IsImage(files[i].path)
    ensures r.Some? ==> r.value < |files| && IsImage(files[r.value].path)
    ensures r.Some? ==> forall j :: 0 <= j < |files| && IsImage(files[j].path) ==> files[j].size <= files[r.value].size
    ensures r.Some? ==> forall j :: 0 <= j < r.value && IsImage(files[j].path) ==> files[j].size < files[r.value].size
  {
    Largest(files, Images(files))
  }

  /** The path `fetch_coverart` stores, "" when none of the files is an image. */
  function CoverPath(files: seq<CoverFile>): (r: string)
    ensures r == "" <==> forall i :: 0 <= i < |files| ==> !IsImage(files[i].path)
    ensures r != "" ==> IsImage(r)
  {
    match BestCover(files)
    case None => ""
    case Some(k) => files[k].path
  }

  /**
   * The selection loop of `fetch_coverart`: keeps the first image file and
   * replaces it by every later image file that is strictly larger.
   */
  method ChooseCover(files: seq<CoverFile>) returns (chosen: string)
    ensures chosen == CoverPath(files)
    ensures chosen == "" <==> forall i :: 0 <= i < |files| ==> !IsImage(files[i].path)
  {
    ghost var image := Images(files);
    chosen := "";
    var best := 0;
    var i := 0;
    while i < |files|
      invariant 0 <= i <= |files|
      invariant chosen == "" <==> Largest(files[..i], image[..i]).None?
      invariant chosen != "" ==> Largest(files[..i], image[..i]) == Some(best) && best < i && chosen == files[best].path
    {
      LargestStep(files, image, i);
      var file := files[i];
      if IsImage(file.path) {
        if chosen == "" {
          chosen := file.path;
          best := i;
        } else if files[best].size < file.size {
          // several images: the largest is taken to have the best quality
          chosen := file.path;
          best := i;
        }
      }
      i := i + 1;
    }
    assert files[..i] == files && image[..i] == image;
  }

  /** The selection over one more file: that file is taken when it is an image and strictly larger. */
  lemma LargestStep(files: seq<CoverFile>, image: seq<bool>, i: nat)
    requires |image| == |files| && i < |files|
    ensures var b := Largest(files[..i], image[..i]);
      Largest(files[..i + 1], image[..i + 1]) ==
        if !image[i] then b
        else if b.None? then Some(i)
        else if files[b.value].size < files[i].size then Some(i)
        else b
  {
    assert files[..i + 1][..i] == files[..i] && image[..i + 1][..i] == image[..i];
  }

  /** The image test ignores case: a path written in capitals is an image exactly when the path is. */
  lemma ImageIgnoresCase(path: string)
    ensures IsImage(Upper(path)) == IsImage(path)
  {
    LowerOfUpper(path);
  }

  /**
   * `fetch_coverart` on the local branch: cover and path are cleared, then
   * set from the chosen image when the song names a file and a library path
   * is configured, raising `CoverArt`.
   */
  function FetchedCover(s: BackendState, song: Song, files: seq<CoverFile>): (t: BackendState)
    ensures t == s.(cover := t.cover, coverArtFile := t.coverArtFile, raised := t.raised)
    ensures s.raised <= t.raised <= s.raised + {CoverArt}
  {
    // "file" is not one of the six song keys, so it is kept among the others
    var path := if "file" in song.others && s.localCovers then CoverPath(files) else "";
    if path == "" then s.(cover := false, coverArtFile := "")
    else s.(cover := true, coverArtFile := path, raised := s.raised + {CoverArt})
  }

  /** The album check of a full refresh: a new album clears the cover and looks it up again. */
  function AlbumChecked(s: BackendState, song: Song, files: seq<CoverFile>): (t: BackendState)
    ensures t == s.(cover := t.cover, coverArtFile := t.coverArtFile, raised := t.raised)
    ensures s.raised <= t.raised <= s.raised + {CoverArt}
  {
    if s.song.album != song.album then FetchedCover(s.(cover := false), song, files) else s
  }

  /** The song part of a full refresh, once `currentsong()` answered with `song` (defaults filled in). */
  function SongUpdated(s: BackendState, song: Song, files: seq<CoverFile>): (t: BackendState)
    ensures t == s.(cover := t.cover, coverArtFile := t.coverArtFile, raised := t.raised, song := t.song)
    ensures s.raised <= t.raised
  {
    SongStored(AlbumChecked(s, song, files), song)
  }

  /** The comparison of a full refresh: a different song raises its flags and replaces the cached one. */
  function SongStored(s: BackendState, song: Song): (t: BackendState)
    ensures t == s.(raised := t.raised, song := t.song)
    ensures s.raised <= t.raised && t.song == song
  {
    if song == s.song then s
    else s.(raised := s.raised + SongFlags(s.song, song), song := song)
  }

  // ---------------------------------------------------------------------------
  // One refresh

  /**
   * `refresh(full)`: without a connection only a reconnect is tried; otherwise
   * the status is diffed and, on a full refresh that is still connected, the
   * song is read and diffed. A failed call drops the connection.
   */
  function Refreshed(s: BackendState, full: bool, poll: Poll): (t: BackendState)
    ensures t.localCovers == s.localCovers && t.calls == s.calls && t.received == s.received
    ensures s.raised <= t.raised
  {
    if !s.connected then s.(connected := poll.reconnect)
    else
      var s1 := match poll.status
        case None => s.(connected := false)
        case Some(reply) =>
          var d := DiffStatus(s.status, reply);
          s.(raised := s.raised + d.raised, status := d.cache, connected := d.ok);
      if !full || !s1.connected then s1
      else match poll.song
        case None => s1.(connected := false)
        case Some(reply) => SongUpdated(s1, ToSong(WithDefaults(reply)), poll.coverFiles)
  }

  // ---------------------------------------------------------------------------
  // Commands

  /** What `control` does with a command: issue a client call, do nothing, or raise before any call. */
  datatype Mapping = Issue(call: ClientCall) | Ignored | Fails

  /** `(int(s) + 1) % 2`, the value the repeat and random toggles request. */
  function Toggled(s: string): (r: Option<int>)
    ensures r.Some? <==> IsIntLiteral(s)
    ensures r.Some? ==> r.value == 1 - ParseInt(s).value % 2
  {
    match ParseInt(s)
    case None => None
    case Some(n) => Some((n + 1) % 2)
  }

  /** The commands `control` knows. */
  predicate Vocabulary(command: string) {
    command == "next" || command == "previous" || command == "pause" || command == "play" ||
    command == "stop" || command == "rwd" || command == "ff" || command == "seek" ||
    command == "repeat" || command == "random" || command == "volume"
  }

  /**
   * The command vocabulary of `control`, given the cached status and song.
   * `seek` and `volume` with the parameter -1 and unknown commands do nothing;
   * `seek`, `repeat` and `random` fail where `int` rejects the cached value they read.
   */
  function ClientCallFor(command: string, parameter: int, status: Status, song: Song): (r: Mapping)
    ensures r.Ignored? <==> !Vocabulary(command) || ((command == "seek" || command == "volume") && parameter == -1)
    ensures r.Fails? <==>
      (command == "seek" && parameter != -1 && !IsIntLiteral(song.time)) ||
      (command == "repeat" && !IsIntLiteral(status.repeat)) ||
      (command == "random" && !IsIntLiteral(status.random))
  {
    if command == "next" then Issue(Next)
    else if command == "previous" then Issue(Previous)
    else if command == "pause" then Issue(Pause)
    else if command == "play" then Issue(Play)
    else if command == "stop" then Issue(Stop)
    else if command == "rwd" then Issue(SeekCur("-10"))
    else if command == "ff" then Issue(SeekCur("+10"))
    else if command == "seek" && parameter != -1 then
      (match ParseInt(song.time) case None => Fails case Some(t) => Issue(SeekScaled(parameter, t)))
    else if command == "repeat" then
      (match Toggled(status.repeat) case None => Fails case Some(m) => Issue(SetRepeat(m)))
    else if command == "random" then
      (match Toggled(status.random) case None => Fails case Some(m) => Issue(SetRandom(m)))
    else if command == "volume" && parameter != -1 then Issue(SetVol(parameter))
    else Ignored
  }

  /**
   * `control(command, parameter)`: the request is logged; without a
   * connection nothing is sent; a call that raises (`delivered` false) or a
   * cached value `int` rejects drops the connection.
   */
  function Controlled(s: BackendState, command: string, parameter: int, delivered: bool): (t: BackendState)
    ensures t.received == s.received + [ControlRequest(command, parameter)]
    ensures t.status == s.status && t.song == s.song && t.raised == s.raised && t.cover == s.cover
    ensures |t.calls| <= |s.calls| + 1 && (t.connected ==> s.connected)
  {
    var s1 := s.(received := s.received + [ControlRequest(command, parameter)]);
    if !s.connected then s1
    else match ClientCallFor(command, parameter, s.status, s.song)
      case Ignored => s1
      case Fails => s1.(connected := false)
      case Issue(c) => s1.(calls := s1.calls + [c], connected := delivered)
  }

  /**
   * The status comparison of `refresh`: `raised` starts as the flags already
   * up and gains those of `DiffStatus`.
   */
  method CompareStatus(cached: Status, reply: Dict, up: set<Flag>) returns (raised: set<Flag>, cache: Status, ok: bool)
    ensures var d := DiffStatus(cached, reply);
      ok == d.ok && raised == up + d.raised && cache == d.cache
  {
    if reply == StatusDict(cached) {
      return up, cached, true;
    }
    raised, cache, ok := CompareFields(cached, reply, up);
  }

  /**
   * The field comparisons, step by step: `found` gains one flag per
   * differing field; a missing key stops the comparison where the source
   * raises `KeyError`.
   */
  method CompareFields(cached: Status, reply: Dict, up: set<Flag>) returns (raised: set<Flag>, cache: Status, ok: bool)
    ensures var d := FieldsDiff(cached, reply);
      ok == d.ok && raised == up + d.raised && cache == d.cache
  {
    if "state" !in reply {
      return up, cached, false;
    }
    // a change into "play" also requests the active role
    var found := StateFlags(cached.state, reply["state"]);
    if "repeat" !in reply {
      return up + found, cached, false;
    }
    found := found + FlagIf(reply["repeat"] != cached.repeat, Repeat);
    if "random" !in reply {
      return up + found, cached, false;
    }
    found := found + FlagIf(reply["random"] != cached.random, Random);
    if "volume" !in reply {
      return up + found, cached, false;
    }
    found := found + FlagIf(reply["volume"] != cached.volume, Volume);
    if reply["state"] != "stop" {
      if "elapsed" !in reply {
        return up + found, cached, false;
      }
      found := found + FlagIf(reply["elapsed"] != cached.elapsed, Elapsed);
      return up + found, ToStatus(reply), true;
    }
    return up + found, ToStatus(reply["elapsed" := ""]), true;
  }

  /** The sanity check of `refresh`: each of the six song keys the reply lacks is added as "". */
  method FillDefaults(reply: Dict) returns (song: Dict)
    ensures song == WithDefaults(reply)
  {
    song := reply;
    if "artist" !in song { song := song["artist" := ""]; }
    assert song == Default(reply, "artist");
    ghost var before := song;
    if "album" !in song { song := song["album" := ""]; }
    assert song == Default(before, "album");
    before := song;
    if "date" !in song { song := song["date" := ""]; }
    assert song == Default(before, "date");
    before := song;
    if "track" !in song { song := song["track" := ""]; }
    assert song == Default(before, "track");
    before := song;
    if "title" !in song { song := song["title" := ""]; }
    assert song == Default(before, "title");
    before := song;
    if "time" !in song { song := song["time" := ""]; }
    assert song == Default(before, "time");
  }

  /** The song comparison of `refresh`: the flags a changed song adds to `up`. */
  method CompareSong(cached: Song, song: Song, up: set<Flag>) returns (raised: set<Flag>)
    requires song != cached
    ensures raised == up + SongFlags(cached, song)
  {
    raised := up;
    if TrackInfoDiffers(cached, song) {
      raised := raised + {TrackInfo};
    }
    if song.album != cached.album {
      raised := raised + {CoverArt};
    }
    if song.time != cached.time {
      raised := raised + {Elapsed};
    }
  }

  // ---------------------------------------------------------------------------
  // The backend object

  class Backend {
    const name: string
    const volumeEnabled: bool
    const localCovers: bool

    var connected: bool
    var status: Status
    var song: Song
    var cover: bool
    var coverArtFile: string
    var raised: set<Flag>
    ghost var calls: seq<ClientCall>
    ghost var received: seq<Request>

    ghost function Snapshot(): BackendState
      reads this
    {
      BackendState(connected, status, song, cover, coverArtFile, raised, localCovers, calls, received)
    }

    /** `MPDControl()`: empty caches, no flag raised, connected when the first connect succeeds. */
    constructor (name: string, volumeEnabled: bool, localCovers: bool, reachable: bool)
      ensures Snapshot() == Initial(reachable, localCovers)
      ensures this.name == name && this.volumeEnabled == volumeEnabled
    {
      this.name := name;
      this.volumeEnabled := volumeEnabled;
      this.localCovers := localCovers;
      connected := reachable;
      status := InitialStatus;
      song := InitialSong;
      cover := false;
      coverArtFile := "";
      raised := {};
      calls := [];
      received := [];
    }

    /** The status comparison of `refresh`; `ok` is false where the source raises. */
    method RefreshStatus(reply: Dict) returns (ok: bool)
      modifies this`raised, this`status
      ensures var d := DiffStatus(old(status), reply);
        ok == d.ok && raised == old(raised) + d.raised && status == d.cache
    {
      raised, status, ok := CompareStatus(status, reply, raised);
    }

    /** `fetch_coverart(song)`, local branch. */
    method FetchCoverArt(fetched: Song, files: seq<CoverFile>)
      modifies this
      ensures Snapshot() == FetchedCover(old(Snapshot()), fetched, files)
    {
      cover := false;
      coverArtFile := "";
      if "file" in fetched.others && localCovers {
        var chosen := "";
        if files != [] {
          chosen := ChooseCover(files);
        }
        assert chosen == CoverPath(files);
        if chosen != "" {
          coverArtFile := chosen;
          cover := true;
          raised := raised + {CoverArt};
        }
      }
    }

    /** A new album clears the cover and looks it up again. */
    method CheckAlbum(fetched: Song, files: seq<CoverFile>)
      modifies this
      ensures Snapshot() == AlbumChecked(old(Snapshot()), fetched, files)
    {
      if song.album != fetched.album {
        cover := false;
        FetchCoverArt(fetched, files);
      }
    }

    /** The song part of `refresh(True)`. */
    method RefreshSong(reply: Dict, files: seq<CoverFile>)
      modifies this
      ensures Snapshot() == SongUpdated(old(Snapshot()), ToSong(WithDefaults(reply)), files)
    {
      var filled := FillDefaults(reply);
      var fetched := ToSong(filled);
      CheckAlbum(fetched, files);
      StoreSong(fetched);
    }

    /** The comparison with the cached song; a different one raises its flags and is stored. */
    method StoreSong(fetched: Song)
      modifies this
      ensures Snapshot() == SongStored(old(Snapshot()), fetched)
    {
      if fetched != song {
        raised := CompareSong(song, fetched, raised);
        song := fetched;
      }
    }

    /** `refresh(active)`: `full` is the source's `active` argument. */
    method Refresh(full: bool, poll: Poll)
      modifies this
      ensures Snapshot() == Refreshed(old(Snapshot()), full, poll)
    {
      if !connected {
        connected := poll.reconnect;
        return;
      }
      match poll.status {
        case None =>
          connected := false;
        case Some(reply) =>
          var ok := RefreshStatus(reply);
          if !ok {
            connected := false;
          }
      }
      // after a failed status call the source's currentsong() raises on the dropped client
      if full && connected {
        match poll.song {
          case None =>
            connected := false;
          case Some(reply) =>
            RefreshSong(reply, poll.coverFiles);
        }
      }
    }

    /** `force_update("all")` when `scope` is `None`, `force_update(f)` when it is `Some(f)`. */
    method ForceUpdate(scope: Option<Flag>)
      modifies this
      ensures raised == (match scope case None => AllFlags case Some(f) => old(raised) + {f})
      ensures Snapshot() == old(Snapshot()).(raised := raised)
    {
      match scope {
        case None => raised := AllFlags;
        case Some(f) => raised := raised + {f};
      }
    }

    /** `update_ack(f)`: lowers exactly `f`. */
    method UpdateAck(f: Flag)
      modifies this
      ensures raised == old(raised) - {f}
      ensures Snapshot() == old(Snapshot()).(raised := raised)
    {
      raised := raised - {f};
    }

    /** `control(command, parameter)`; `delivered` is false when the client call raises. */
    method Control(command: string, parameter: int, delivered: bool)
      modifies this
      ensures Snapshot() == Controlled(old(Snapshot()), command, parameter, delivered)
    {
      received := received + [ControlRequest(command, parameter)];
      if connected {
        match ClientCallFor(command, parameter, status, song) {
          case Ignored =>
          case Fails =>
            connected := false;
          case Issue(c) =>
            calls := calls + [c];
            if !delivered {
              connected := false;
            }
        }
      }
    }

    /** `set_volume(volume)`: the request is logged; what the backend then does is not modelled. */
    method SetVolume(volume: int)
      modifies this
      ensures Snapshot() == old(Snapshot()).(received := old(received) + [VolumeRequest(volume)])
    {
      received := received + [VolumeRequest(volume)];
    }
  }
}
