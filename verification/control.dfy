/**
 * The player controller: an ordered, fixed list of backends and the index of
 * the current one. Each cycle refreshes every backend (fully only the
 * current one), then arbitrates: every backend whose `Active` flag is up is
 * switched to in list order, so the last one wins, and every other backend
 * that is playing is sent `pause`.
 *
 * The Spotify and CD backends are not part of this model; every backend is
 * driven through the `Backend` interface of `MpdControl`.
 */
module PlayerControl {
  import opened Wrappers
  import opened Text
  import opened MpdControl

  /** Some backend among `ss[lo..hi]` has its `Active` flag up. */
  predicate ActiveIn(ss: seq<BackendState>, lo: nat, hi: nat)
    requires hi <= |ss|
  {
    exists k :: lo <= k < hi && Active in ss[k].raised
  }

  /** Extending the range by one backend adds that backend's `Active` flag. */
  lemma ActiveInStep(ss: seq<BackendState>, lo: nat, hi: nat)
    requires lo <= hi < |ss|
    ensures ActiveIn(ss, lo, hi + 1) <==> ActiveIn(ss, lo, hi) || Active in ss[hi].raised
  {
    if ActiveIn(ss, lo, hi + 1) && !(Active in ss[hi].raised) {
      var k :| lo <= k < hi + 1 && Active in ss[k].raised;
      assert k < hi;
    }
  }

  predicate AnyActive(ss: seq<BackendState>) {
    ActiveIn(ss, 0, |ss|)
  }

  // ---------------------------------------------------------------------------
  // Arbitration on the backends' states

  /**
   * `switch_active_player(id)`: a backend that was not current gets every
   * flag forced up; the chosen backend then has `Active` acknowledged.
   */
  function Switched(ss: seq<BackendState>, current: nat, id: nat): (r: seq<BackendState>)
    requires id < |ss|
    ensures |r| == |ss| && Active !in r[id].raised
    ensures forall k :: 0 <= k < |ss| && k != id ==> r[k] == ss[k]
    ensures r[id] == ss[id].(raised := r[id].raised)
    ensures r[id].raised == (if current != id then AllFlags else ss[id].raised) - {Active}
  {
    var forced := if current != id then AllFlags else ss[id].raised;
    ss[id := ss[id].(raised := forced - {Active})]
  }

  /**
   * The scan loop of `determine_active_player` from index `from` on: each
   * backend with `Active` up is switched to. Only flags change, and the
   * current index stays in range.
   */
  function Scan(ss: seq<BackendState>, current: nat, from: nat): (r: (seq<BackendState>, nat))
    requires from <= |ss|
    ensures |r.0| == |ss|
    ensures current < |ss| ==> r.1 < |ss|
    decreases |ss| - from
  {
    if from == |ss| then (ss, current)
    else if Active in ss[from].raised then Scan(Switched(ss, current, from), from, from + 1)
    else Scan(ss, current, from + 1)
  }

  /** The scan changes only flags, and none of the backends before its start. */
  lemma {:induction false} ScanTouchesOnlyFlags(ss: seq<BackendState>, current: nat, from: nat)
    requires from <= |ss|
    ensures var r := Scan(ss, current, from);
      (forall k :: 0 <= k < |ss| ==> r.0[k] == ss[k].(raised := r.0[k].raised)) &&
      (forall k :: 0 <= k < from ==> r.0[k] == ss[k])
    decreases |ss| - from
  {
    if from == |ss| {
    } else if Active in ss[from].raised {
      ScanTouchesOnlyFlags(Switched(ss, current, from), from, from + 1);
    } else {
      ScanTouchesOnlyFlags(ss, current, from + 1);
    }
  }

  /**
   * The pause loop of `determine_active_player` over the first `upTo`
   * backends: each one other than `active` whose cached state is "play" is
   * sent `pause` with parameter 0.
   */
  function Paused(ss: seq<BackendState>, active: nat, delivered: seq<bool>, upTo: nat): (r: seq<BackendState>)
    requires |delivered| == |ss| && upTo <= |ss|
    ensures |r| == |ss|
  {
    seq(|ss|, i requires 0 <= i < |ss| =>
      if i < upTo && i != active && ss[i].status.state == "play"
      then Controlled(ss[i], "pause", 0, delivered[i])
      else ss[i])
  }

  /** `determine_active_player`: the states and current index afterwards. */
  function Arbitrated(ss: seq<BackendState>, current: nat, delivered: seq<bool>): (r: (seq<BackendState>, nat))
    requires |delivered| == |ss|
    ensures |r.0| == |ss|
  {
    var scanned := Scan(ss, current, 0);
    if AnyActive(ss) then (Paused(scanned.0, scanned.1, delivered, |ss|), scanned.1)
    else scanned
  }

  /** The refresh loop of `refresh(force)` over the first `upTo` backends. */
  function RefreshedUpTo(ss: seq<BackendState>, current: nat, force: bool, polls: seq<Poll>, upTo: nat): (r: seq<BackendState>)
    requires |polls| == |ss| && upTo <= |ss|
    ensures |r| == |ss|
  {
    seq(|ss|, i requires 0 <= i < |ss| =>
      if i < upTo then Refreshed(ss[i], i == current || force, polls[i]) else ss[i])
  }

  /** One more step of the pause loop handles backend `upTo` and nothing else. */
  lemma PausedStep(ss: seq<BackendState>, active: nat, delivered: seq<bool>, upTo: nat)
    requires |delivered| == |ss| && upTo < |ss|
    ensures Paused(ss, active, delivered, upTo + 1) ==
      var p := Paused(ss, active, delivered, upTo);
      if upTo != active && ss[upTo].status.state == "play"
      then p[upTo := Controlled(ss[upTo], "pause", 0, delivered[upTo])] else p
  {
  }

  /** One more step of the refresh loop refreshes backend `upTo` and nothing else. */
  lemma RefreshedStep(ss: seq<BackendState>, current: nat, force: bool, polls: seq<Poll>, upTo: nat)
    requires |polls| == |ss| && upTo < |ss|
    ensures RefreshedUpTo(ss, current, force, polls, upTo + 1) ==
      RefreshedUpTo(ss, current, force, polls, upTo)[upTo := Refreshed(ss[upTo], upTo == current || force, polls[upTo])]
  {
  }

  // ---------------------------------------------------------------------------
  // Commands

  /**
   * `play_pause` becomes `pause` when the current backend plays and `play`
   * otherwise. The source first tests that the cached status is not empty;
   * a cached status always holds its five keys, so that test always passes.
   */
  function Translate(command: string, currentState: string): (r: string)
    ensures command != "play_pause" ==> r == command
    ensures command == "play_pause" ==> (r == "pause" || r == "play") && (r == "pause" <==> currentState == "play")
  {
    if command == "play_pause" then (if currentState == "play" then "pause" else "play") else command
  }

  /** What `control_player` needs of its indices: `switch` names a backend, and so does a forwarded `id` other than -1. */
  predicate Dispatchable(n: nat, command: string, parameter: int, id: int) {
    (command == "switch" ==> 0 <= parameter < n) &&
    (command != "switch" && command != "radio" ==> id == -1 || 0 <= id < n)
  }

  /**
   * `control_player(command, parameter, id)`: the states, the current index
   * and whether the call raises (the `radio` command, whose playlist loading
   * names an undefined variable).
   */
  function Dispatched(ss: seq<BackendState>, current: nat, command: string, parameter: int, id: int, delivered: bool)
    : (r: (seq<BackendState>, nat, bool))
    requires current < |ss| && Dispatchable(|ss|, command, parameter, id)
    ensures |r.0| == |ss| && r.1 < |ss|
  {
    var cmd := Translate(command, ss[current].status.state);
    if cmd == "radio" then (ss, current, true)
    else if cmd == "switch" then (Switched(ss, current, parameter), parameter, false)
    else
      var target := if id != -1 then id else current;
      (ss[target := Controlled(ss[target], cmd, parameter, delivered)], current, false)
  }

  /** The bounds `set_volume` forces on the volume it sends. */
  function Clamp(v: int): (r: int)
    ensures 0 <= r <= 100
    ensures 0 <= v <= 100 ==> r == v
    ensures v > 100 ==> r == 100
    ensures v < 0 ==> r == 0
  {
    var capped := if v > 100 then 100 else v;
    if capped < 0 then 0 else capped
  }

  /**
   * The volume `set_volume(amount, direction)` sends: relative to the cached
   * volume for "+" and "-", absolute otherwise; `None` where `int` rejects the
   * cached volume.
   */
  function VolumeTarget(amount: int, direction: string, cached: string): (r: Option<int>)
    ensures r.Some? ==> 0 <= r.value <= 100
    ensures r.None? <==> (direction == "+" || direction == "-") && !IsIntLiteral(cached)
  {
    if direction == "+" || direction == "-" then
      match ParseInt(cached)
      case None => None
      case Some(v) => Some(Clamp(if direction == "+" then v + amount else v - amount))
    else Some(Clamp(amount))
  }

  /** How a backend is set up: `None` when configuration disables it or its constructor raises. */
  datatype Setup = Setup(name: string, volumeEnabled: bool, localCovers: bool, reachable: bool)

  /** The setups that yield a backend, in order. */
  function Present(setups: seq<Option<Setup>>): (r: seq<Setup>)
    ensures |r| <= |setups|
    ensures r == [] <==> forall i :: 0 <= i < |setups| ==> setups[i].None?
  {
    if setups == [] then []
    else
      var last := setups[|setups| - 1];
      Present(setups[..|setups| - 1]) + (match last case None => [] case Some(p) => [p])
  }

  // ---------------------------------------------------------------------------
  // The controller object

  class Controller {
    const players: seq<Backend>
    var current: nat

    ghost predicate Valid()
      reads this
    {
      |players| > 0 && current < |players| &&
      (forall i, j :: 0 <= i < |players| && 0 <= j < |players| && i != j ==> players[i] != players[j])
    }

    ghost function States(): (ss: seq<BackendState>)
      reads this, players
      ensures |ss| == |players|
      ensures forall i :: 0 <= i < |players| ==> ss[i] == players[i].Snapshot()
    {
      seq(|players|, i requires 0 <= i < |players| reads players => players[i].Snapshot())
    }

    constructor (backends: seq<Backend>)
      requires |backends| > 0
      requires forall i, j :: 0 <= i < j < |backends| ==> backends[i] != backends[j]
      ensures Valid() && players == backends && current == 0
    {
      players := backends;
      current := 0;
    }

    /**
     * `PlayerControl()`: one backend per setup that yields one, in order;
     * `None` where the source raises because there is none.
     */
    static method New(setups: seq<Option<Setup>>) returns (c: Option<Controller>)
      ensures c.None? <==> Present(setups) == []
      ensures c.Some? ==> fresh(c.value) && c.value.Valid() && c.value.current == 0
      ensures c.Some? ==> |c.value.players| == |Present(setups)| && forall i :: 0 <= i < |c.value.players| ==>
        var p := Present(setups)[i];
        c.value.players[i].name == p.name && c.value.players[i].volumeEnabled == p.volumeEnabled &&
        c.value.players[i].Snapshot() == Initial(p.reachable, p.localCovers)
    {
      var backends := NewBackends(setups);
      if |backends| == 0 {
        // no players defined: the source raises
        return None;
      }
      var ctl := new Controller(backends);
      c := Some(ctl);
    }

    /** The loop over the configured players: a fresh backend per setup that yields one, in order. */
    static method NewBackends(setups: seq<Option<Setup>>) returns (backends: seq<Backend>)
      ensures |backends| == |Present(setups)|
      ensures forall a, b :: 0 <= a < b < |backends| ==> backends[a] != backends[b]
      ensures forall k :: 0 <= k < |backends| ==> fresh(backends[k])
      ensures forall k :: 0 <= k < |backends| ==>
        var p := Present(setups)[k];
        backends[k].name == p.name && backends[k].volumeEnabled == p.volumeEnabled &&
        backends[k].Snapshot() == Initial(p.reachable, p.localCovers)
    {
      backends := [];
      ghost var ps: seq<Setup> := [];
      var i := 0;
      while i < |setups|
        invariant 0 <= i <= |setups|
        invariant ps == Present(setups[..i]) && |backends| == |ps|
        invariant forall a, b :: 0 <= a < b < |backends| ==> backends[a] != backends[b]
        invariant forall k :: 0 <= k < |backends| ==> fresh(backends[k])
        invariant forall k :: 0 <= k < |backends| ==>
          backends[k].name == ps[k].name && backends[k].volumeEnabled == ps[k].volumeEnabled &&
          backends[k].Snapshot() == Initial(ps[k].reachable, ps[k].localCovers)
      {
        assert setups[..i + 1][..i] == setups[..i];
        match setups[i] {
          case None =>
          case Some(p) =>
            var b := new Backend(p.name, p.volumeEnabled, p.localCovers, p.reachable);
            backends := backends + [b];
            ps := ps + [p];
        }
        i := i + 1;
      }
      assert setups[..i] == setups;
    }

    /** `get_current()` (and `get_active_player()`). */
    method GetCurrent() returns (index: nat)
      requires Valid()
      ensures index == current && index < |players|
    {
      index := current;
    }

    /** `get_player_names()`: one upper-cased name per backend, in list order. */
    method GetPlayerNames() returns (names: seq<string>)
      requires Valid()
      ensures |names| == |players|
      ensures forall i :: 0 <= i < |players| ==> names[i] == Upper(players[i].name)
    {
      names := [];
      var i := 0;
      while i < |players|
        invariant 0 <= i <= |players|
        invariant |names| == i
        invariant forall k :: 0 <= k < i ==> names[k] == Upper(players[k].name)
      {
        names := names + [Upper(players[i].name)];
        i := i + 1;
      }
    }

    /** `update_ack(f)`: forwarded to the current backend. */
    method UpdateAck(f: Flag)
      requires Valid()
      modifies players[current]
      ensures Valid()
      ensures var ss := old(States());
        States() == ss[current := ss[current].(raised := ss[current].raised - {f})]
    {
      players[current].UpdateAck(f);
    }

    /** `switch_active_player(id)`. */
    method SwitchActivePlayer(id: nat)
      requires Valid() && id < |players|
      modifies this, players[id]
      ensures Valid() && current == id
      ensures States() == Switched(old(States()), old(current), id)
    {
      var changed := false;
      if current != id {
        changed := true;
        current := id;
      }
      // player changed: make the user interface redraw everything
      if changed {
        players[current].ForceUpdate(None);
      }
      players[current].UpdateAck(Active);
    }

    /** `set_volume(amount, direction)`; `ok` is false where the source raises `ValueError`. */
    method SetVolume(amount: int, direction: string) returns (ok: bool)
      requires Valid()
      modifies players[current]
      ensures Valid()
      ensures var ss := old(States());
        if !players[current].volumeEnabled then ok && States() == ss
        else match VolumeTarget(amount, direction, ss[current].status.volume)
          case None => !ok && States() == ss
          case Some(v) => ok && States() == ss[current := ss[current].(received := ss[current].received + [VolumeRequest(v)])]
    {
      ok := true;
      var player := players[current];
      if player.volumeEnabled {
        var volume: int;
        if direction == "+" {
          match ParseInt(player.status.volume) {
            case None => return false;
            case Some(v) => volume := v + amount;
          }
        } else if direction == "-" {
          match ParseInt(player.status.volume) {
            case None => return false;
            case Some(v) => volume := v - amount;
          }
        } else {
          volume := amount;
        }
        volume := if volume > 100 then 100 else volume;
        volume := if volume < 0 then 0 else volume;
        player.SetVolume(volume);
      }
    }

    /** `control_player(command, parameter, id)`; `raised` where the source raises. */
    method ControlPlayer(command: string, parameter: int, id: int, delivered: bool) returns (raised: bool)
      requires Valid() && Dispatchable(|players|, command, parameter, id)
      modifies this, players
      ensures Valid()
      ensures (States(), current, raised) == Dispatched(old(States()), old(current), command, parameter, id, delivered)
    {
      raised := false;
      var cmd := command;
      if cmd == "play_pause" {
        cmd := if players[current].status.state == "play" then "pause" else "play";
      }
      if cmd == "radio" {
        // loading the radio playlist refers to an undefined name
        raised := true;
      } else if cmd == "switch" {
        SwitchActivePlayer(parameter);
      } else {
        var target := if id != -1 then id else current;
        ControlTarget(target, cmd, parameter, delivered);
      }
    }

    /** `players[target].control(command, parameter)`; no other backend changes. */
    method ControlTarget(target: nat, command: string, parameter: int, delivered: bool)
      requires Valid() && target < |players|
      modifies players[target]
      ensures Valid()
      ensures var ss := old(States()); States() == ss[target := Controlled(ss[target], command, parameter, delivered)]
    {
      ghost var ss := States();
      players[target].Control(command, parameter, delivered);
      assert forall k :: 0 <= k < |players| && k != target ==> players[k].Snapshot() == ss[k];
    }

    /** `determine_active_player()`; `delivered[i]` says whether a pause sent to backend `i` reaches it. */
    method DetermineActivePlayer(delivered: seq<bool>)
      requires Valid() && |delivered| == |players|
      modifies this, players
      ensures Valid()
      ensures (States(), current) == Arbitrated(old(States()), old(current), delivered)
    {
      var active := SwitchToActive();
      // a player started: pause the rest
      if active != -1 {
        PauseOthers(active, delivered);
      }
    }

    /** The first loop of `determine_active_player`: `active` is the last backend switched to, or -1. */
    method SwitchToActive() returns (active: int)
      requires Valid()
      modifies this, players
      ensures Valid()
      ensures (States(), current) == Scan(old(States()), old(current), 0)
      ensures active == -1 <==> !AnyActive(old(States()))
      ensures active != -1 ==> active == current
    {
      ghost var ss0 := States();
      active := -1;
      var id := 0;
      while id < |players|
        invariant 0 <= id <= |players|
        invariant Valid() && Scanning(ss0, old(current), id, active)
      {
        active := ScanStep(ss0, old(current), id, active);
        id := id + 1;
      }
    }

    /**
     * What holds after the first `id` steps of the first loop: the rest of
     * the scan from `id` ends where the whole scan does, backends from `id`
     * on are untouched, and `active` is the last backend switched to, or -1.
     */
    ghost predicate Scanning(ss0: seq<BackendState>, current0: nat, id: nat, active: int)
      reads this, players
    {
      id <= |players| == |ss0| &&
      Scan(States(), current, id) == Scan(ss0, current0, 0) &&
      (forall k :: id <= k < |players| ==> States()[k] == ss0[k]) &&
      (active == -1 <==> !ActiveIn(ss0, 0, id)) &&
      (active != -1 ==> 0 <= active < id && current == active)
    }

    /** One step of the first loop, with the bookkeeping of `active`. */
    method ScanStep(ghost ss0: seq<BackendState>, ghost current0: nat, id: nat, active: int) returns (next: int)
      requires Valid() && id < |players| && Scanning(ss0, current0, id, active)
      modifies this, players[id]
      ensures Valid() && Scanning(ss0, current0, id + 1, next)
    {
      ActiveInStep(ss0, 0, id);
      var switched := VisitPlayer(id);
      next := if switched then id else active;
    }

    /** One step of the first loop: switch to backend `id` when its `Active` flag is up. */
    method VisitPlayer(id: nat) returns (switched: bool)
      requires Valid() && id < |players|
      modifies this, players[id]
      ensures Valid()
      ensures Scan(States(), current, id + 1) == Scan(old(States()), old(current), id)
      ensures forall k :: 0 <= k < |players| && k != id ==> States()[k] == old(States())[k]
      ensures switched == (Active in old(States())[id].raised)
      ensures current == if switched then id else old(current)
    {
      switched := Active in players[id].raised;
      if switched {
        SwitchActivePlayer(id);
      }
    }

    /** The second loop of `determine_active_player`: every other playing backend is sent `pause`. */
    method PauseOthers(active: nat, delivered: seq<bool>)
      requires Valid() && |delivered| == |players| && active == current
      modifies this, players
      ensures Valid() && current == old(current)
      ensures States() == Paused(old(States()), active, delivered, |players|)
    {
      ghost var ss0 := States();
      var id := 0;
      while id < |players|
        invariant 0 <= id <= |players|
        invariant Valid() && current == active
        invariant States() == Paused(ss0, active, delivered, id)
      {
        PausedStep(ss0, active, delivered, id);
        PausePlayer(active, id, delivered[id]);
        id := id + 1;
      }
    }

    /** One step of the second loop: backend `id`, when it is not `active` and plays, is sent `pause`. */
    method PausePlayer(active: nat, id: nat, delivered: bool)
      requires Valid() && active == current && id < |players|
      modifies this, players
      ensures Valid() && current == old(current)
      ensures var ss := old(States());
        States() == if id != active && ss[id].status.state == "play"
          then ss[id := Controlled(ss[id], "pause", 0, delivered)] else ss
    {
      if id != active && players[id].status.state == "play" {
        var _ := ControlPlayer("pause", 0, id, delivered);
      }
    }

    /**
     * `refresh(force)`: backend `i` is refreshed with `full = (i == current
     * or force)`, then the active player is determined.
     */
    method Refresh(force: bool, polls: seq<Poll>, delivered: seq<bool>)
      requires Valid() && |polls| == |players| && |delivered| == |players|
      modifies this, players
      ensures Valid()
      ensures var refreshed := RefreshedUpTo(old(States()), old(current), force, polls, |players|);
        (States(), current) == Arbitrated(refreshed, old(current), delivered)
    {
      RefreshAll(force, polls);
      DetermineActivePlayer(delivered);
    }

    /** The refresh loop: every backend refreshes, fully when it is the current one or `force` is set. */
    method RefreshAll(force: bool, polls: seq<Poll>)
      requires Valid() && |polls| == |players|
      modifies players
      ensures Valid()
      ensures States() == RefreshedUpTo(old(States()), current, force, polls, |players|)
    {
      ghost var ss0 := States();
      var id := 0;
      while id < |players|
        invariant 0 <= id <= |players|
        invariant Valid()
        invariant States() == RefreshedUpTo(ss0, current, force, polls, id)
      {
        RefreshedStep(ss0, current, force, polls, id);
        RefreshPlayer(id, current == id || force, polls[id]);
        id := id + 1;
      }
    }

    /** One step of the refresh loop: `players[id].refresh(full)`. */
    method RefreshPlayer(id: nat, full: bool, poll: Poll)
      requires Valid() && id < |players|
      modifies players[id]
      ensures Valid()
      ensures var ss := old(States()); States() == ss[id := Refreshed(ss[id], full, poll)]
    {
      ghost var ss := States();
      players[id].Refresh(full, poll);
      assert forall k :: 0 <= k < |players| && k != id ==> players[k].Snapshot() == ss[k];
    }
  }
}
