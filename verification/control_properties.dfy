/**
 * What the player controller promises, stated over the functions that
 * specify `Controller.Refresh`, `Controller.DetermineActivePlayer`,
 * `Controller.ControlPlayer` and `Controller.SetVolume`.
 */
module ControlProperties {
  import opened Wrappers
  import opened Text
  import opened MpdControl
  import opened MpdProperties
  import opened PlayerControl

  // ---------------------------------------------------------------------------
  // Arbitration

  /**
   * The flags a backend holds after the scan: untouched when its `Active`
   * flag was down; otherwise `Active` is acknowledged and every other flag
   * forced up, unless it already was the current backend when reached.
   */
  function FlagsAfterScan(ss: seq<BackendState>, current: nat, from: nat, k: nat): set<Flag>
    requires from <= k < |ss|
  {
    if Active !in ss[k].raised then ss[k].raised
    else if k == current && !ActiveIn(ss, from, k) then ss[k].raised - {Active}
    else AllFlags - {Active}
  }

  /** Two sequences of states with the same flags over a range agree on whether one there has `Active` up. */
  lemma ActiveInAgree(a: seq<BackendState>, b: seq<BackendState>, lo: nat, hi: nat)
    requires hi <= |a| && hi <= |b|
    requires forall j :: lo <= j < hi ==> a[j].raised == b[j].raised
    ensures ActiveIn(a, lo, hi) == ActiveIn(b, lo, hi)
  {
    if ActiveIn(a, lo, hi) {
      var k :| lo <= k < hi && Active in a[k].raised;
      assert Active in b[k].raised;
    }
    if ActiveIn(b, lo, hi) {
      var k :| lo <= k < hi && Active in b[k].raised;
      assert Active in a[k].raised;
    }
  }

  /** A backend whose `Active` flag is down does not change whether a range starting at it has one up. */
  lemma ActiveInSkip(ss: seq<BackendState>, lo: nat, hi: nat)
    requires lo < hi <= |ss| && Active !in ss[lo].raised
    ensures ActiveIn(ss, lo, hi) == ActiveIn(ss, lo + 1, hi)
  {
    if ActiveIn(ss, lo, hi) {
      var j :| lo <= j < hi && Active in ss[j].raised;
      assert j != lo;
    }
  }

  /** The flags each backend from `from` on holds after the scan. */
  lemma {:induction false} ScanFlags(ss: seq<BackendState>, current: nat, from: nat)
    requires from <= |ss|
    ensures forall k :: from <= k < |ss| ==>
      Scan(ss, current, from).0[k].raised == FlagsAfterScan(ss, current, from, k)
    decreases |ss| - from
  {
    if from == |ss| {
    } else if Active in ss[from].raised {
      var sw := Switched(ss, current, from);
      var r := Scan(sw, from, from + 1);
      ScanFlags(sw, from, from + 1);
      ScanTouchesOnlyFlags(sw, from, from + 1);
      forall k | from < k < |ss|
        ensures r.0[k].raised == FlagsAfterScan(ss, current, from, k)
      {
        ActiveInAgree(sw, ss, from + 1, k);
        if Active in ss[k].raised {
          assert ActiveIn(ss, from, k) by { assert from < k && Active in ss[from].raised; }
        }
      }
    } else {
      ScanFlags(ss, current, from + 1);
      ScanTouchesOnlyFlags(ss, current, from + 1);
      forall k | from < k < |ss|
        ensures ActiveIn(ss, from, k) == ActiveIn(ss, from + 1, k)
      {
        ActiveInSkip(ss, from, k);
      }
    }
  }

  /**
   * The current index after the scan: the last backend from `from` on whose
   * `Active` flag was up, and nothing changes when there is none.
   */
  lemma {:induction false} ScanCurrent(ss: seq<BackendState>, current: nat, from: nat)
    requires from <= |ss|
    ensures var r := Scan(ss, current, from);
      (!ActiveIn(ss, from, |ss|) ==> r == (ss, current)) &&
      (ActiveIn(ss, from, |ss|) ==>
        from <= r.1 < |ss| && Active in ss[r.1].raised && !ActiveIn(ss, r.1 + 1, |ss|))
    decreases |ss| - from, 1
  {
    if from == |ss| {
    } else if Active in ss[from].raised {
      ScanCurrentSwitching(ss, current, from);
    } else {
      var r := Scan(ss, current, from + 1);
      ScanCurrent(ss, current, from + 1);
      ActiveInSkip(ss, from, |ss|);
      assert Scan(ss, current, from) == r;
      if ActiveIn(ss, from, |ss|) {
        assert !ActiveIn(ss, r.1 + 1, |ss|);
      }
    }
  }

  /** The scan reaching a backend with `Active` up ends on it or on a later one, the last with `Active` up. */
  lemma {:induction false} ScanCurrentSwitching(ss: seq<BackendState>, current: nat, from: nat)
    requires from < |ss| && Active in ss[from].raised
    ensures var r := Scan(ss, current, from);
      from <= r.1 < |ss| && Active in ss[r.1].raised && !ActiveIn(ss, r.1 + 1, |ss|)
    decreases |ss| - from, 0
  {
    var sw := Switched(ss, current, from);
    var r := Scan(sw, from, from + 1);
    ScanCurrent(sw, from, from + 1);
    ActiveInAgree(sw, ss, from + 1, |ss|);
    if ActiveIn(sw, from + 1, |ss|) {
      ActiveInAgree(sw, ss, r.1 + 1, |ss|);
      assert sw[r.1] == ss[r.1];
      assert !ActiveIn(ss, r.1 + 1, |ss|);
    } else {
      assert r.1 == from;
      assert !ActiveIn(ss, from + 1, |ss|);
    }
    assert Scan(ss, current, from) == r;
  }

  /**
   * The scan from index `from` on: afterwards no backend from `from` on has
   * `Active` up, each holds `FlagsAfterScan`, and the current index is the
   * last backend whose `Active` flag was up, or unchanged when there is none.
   */
  lemma ScanOutcome(ss: seq<BackendState>, current: nat, from: nat)
    requires from <= |ss|
    ensures var r := Scan(ss, current, from);
      (forall k :: from <= k < |ss| ==> Active !in r.0[k].raised) &&
      (forall k :: from <= k < |ss| ==> r.0[k].raised == FlagsAfterScan(ss, current, from, k)) &&
      (!ActiveIn(ss, from, |ss|) ==> r == (ss, current)) &&
      (ActiveIn(ss, from, |ss|) ==>
        from <= r.1 < |ss| && Active in ss[r.1].raised && !ActiveIn(ss, r.1 + 1, |ss|))
  {
    ScanFlags(ss, current, from);
    ScanCurrent(ss, current, from);
  }

  /**
   * `determine_active_player`: afterwards no backend has `Active` up and the
   * current index is the last backend that had it up (unchanged when none
   * had). When one had, every other backend whose cached state is "play"
   * receives exactly one `pause` and no other backend receives anything;
   * caches are never touched.
   */
  lemma ArbitrationOutcome(ss: seq<BackendState>, current: nat, delivered: seq<bool>)
    requires |delivered| == |ss|
    ensures var r := Arbitrated(ss, current, delivered);
      (current < |ss| ==> r.1 < |ss|) &&
      (forall k :: 0 <= k < |ss| ==> Active !in r.0[k].raised) &&
      (!AnyActive(ss) ==> r == (ss, current)) &&
      (AnyActive(ss) ==> r.1 < |ss| && Active in ss[r.1].raised && !ActiveIn(ss, r.1 + 1, |ss|)) &&
      (forall k :: 0 <= k < |ss| ==> r.0[k].status == ss[k].status && r.0[k].song == ss[k].song) &&
      (forall k :: 0 <= k < |ss| ==>
        r.0[k].received == ss[k].received +
          (if AnyActive(ss) && k != r.1 && ss[k].status.state == "play" then [ControlRequest("pause", 0)] else []))
  {
    ScanOutcome(ss, current, 0);
    ScanTouchesOnlyFlags(ss, current, 0);
  }

  /** A backend that had `Active` up and was not current before the scan has every other flag forced up. */
  lemma SwitchForcesFlags(ss: seq<BackendState>, current: nat, delivered: seq<bool>, k: nat)
    requires |delivered| == |ss| && k < |ss| && k != current && Active in ss[k].raised
    ensures Arbitrated(ss, current, delivered).0[k].raised == AllFlags - {Active}
  {
    ScanOutcome(ss, current, 0);
  }

  // ---------------------------------------------------------------------------
  // Refresh

  /** Without `force`, only the current backend reads its song; every other keeps song and cover. */
  lemma RefreshReadsSongOfCurrentOnly(ss: seq<BackendState>, current: nat, polls: seq<Poll>)
    requires |polls| == |ss|
    ensures var r := RefreshedUpTo(ss, current, false, polls, |ss|);
      forall i :: 0 <= i < |ss| && i != current ==> r[i].song == ss[i].song && r[i].cover == ss[i].cover
  {
    forall i | 0 <= i < |ss| && i != current {
      StatusOnlyRefreshKeepsSong(ss[i], polls[i]);
    }
  }

  /** Arbitration lowers no flag other than `Active`. */
  lemma ArbitrationLowersOnlyActive(ss: seq<BackendState>, current: nat, delivered: seq<bool>)
    requires |delivered| == |ss|
    ensures var r := Arbitrated(ss, current, delivered);
      forall k :: 0 <= k < |ss| ==> ss[k].raised - {Active} <= r.0[k].raised
  {
    var r := Arbitrated(ss, current, delivered);
    var scanned := Scan(ss, current, 0);
    ScanOutcome(ss, current, 0);
    forall k | 0 <= k < |ss|
      ensures ss[k].raised - {Active} <= r.0[k].raised
    {
      forall f | f in ss[k].raised ensures f in AllFlags {
        match f
        case Active => case State => case Elapsed => case Random =>
        case Repeat => case Volume => case TrackInfo => case CoverArt =>
      }
      assert r.0[k].raised == scanned.0[k].raised;
    }
  }

  /** The refresh loop lowers no flag. */
  lemma RefreshLoopNeverLowers(ss: seq<BackendState>, current: nat, force: bool, polls: seq<Poll>)
    requires |polls| == |ss|
    ensures var r := RefreshedUpTo(ss, current, force, polls, |ss|);
      forall k :: 0 <= k < |ss| ==> ss[k].raised <= r[k].raised
  {
    forall k | 0 <= k < |ss| ensures ss[k].raised <= RefreshedUpTo(ss, current, force, polls, |ss|)[k].raised {
    }
  }

  /** A whole refresh cycle lowers no flag other than `Active`. */
  lemma CycleLowersOnlyActive(ss: seq<BackendState>, current: nat, force: bool, polls: seq<Poll>, delivered: seq<bool>)
    requires |polls| == |ss| && |delivered| == |ss|
    ensures var r := Arbitrated(RefreshedUpTo(ss, current, force, polls, |ss|), current, delivered);
      forall k :: 0 <= k < |ss| ==> ss[k].raised - {Active} <= r.0[k].raised
  {
    var refreshed := RefreshedUpTo(ss, current, force, polls, |ss|);
    RefreshLoopNeverLowers(ss, current, force, polls);
    ArbitrationLowersOnlyActive(refreshed, current, delivered);
  }

  // ---------------------------------------------------------------------------
  // Commands

  /**
   * `control_player`: `play_pause` is decided by the current backend's state
   * even when another backend is named; `switch` changes the current index
   * and sends nothing; any other command reaches exactly the named backend,
   * or the current one when none is named.
   */
  lemma DispatchRouting(ss: seq<BackendState>, current: nat, command: string, parameter: int, id: int, delivered: bool)
    requires current < |ss| && Dispatchable(|ss|, command, parameter, id)
    ensures var r := Dispatched(ss, current, command, parameter, id, delivered);
      var cmd := if command == "play_pause" then (if ss[current].status.state == "play" then "pause" else "play") else command;
      (cmd == "radio" ==> r == (ss, current, true)) &&
      (cmd == "switch" ==>
        r.1 == parameter && !r.2 &&
        forall k :: 0 <= k < |ss| ==> r.0[k].received == ss[k].received && r.0[k].calls == ss[k].calls) &&
      (cmd != "radio" && cmd != "switch" ==>
        r.1 == current && !r.2 &&
        forall k :: 0 <= k < |ss| ==>
          r.0[k].received == ss[k].received + (if k == (if id == -1 then current else id) then [ControlRequest(cmd, parameter)] else []))
  {
  }

  /** Volumes requested from the backend: absolute 150 is sent as 100, and "-" 200 from "10" as 0. */
  lemma VolumeExamples()
    ensures VolumeTarget(150, "", "") == Some(100)
    ensures VolumeTarget(200, "-", "10") == Some(0)
    ensures VolumeTarget(5, "+", "") == None
  {
    ParseShowNat(10);
    assert ShowNat(10) == "10";
  }
}
