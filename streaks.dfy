/** Per-engine win/loss statistics. Each engine keeps its wins, its losses,
    the length of its current streak, the result that streak is made of,
    and the longest win and loss streaks seen. A round in which the engine
    had a prediction adds one result; a round without one changes nothing. */
module Streaks {
  import opened Common

  datatype Stats = Stats(wins: nat, loss: nat, streak: nat, lastRes: Option<Outcome>, maxWin: nat, maxLoss: nat)

  /** The statistics of an engine that has not predicted yet. */
  const Initial: Stats := Stats(0, 0, 0, None, 0, 0)

  /** The longest streak recorded for results of kind o. */
  function MaxOf(st: Stats, o: Outcome): nat
  {
    if o == Win then st.maxWin else st.maxLoss
  }

  function Max(a: nat, b: nat): nat
  {
    if a >= b then a else b
  }

  /** One scored round: count the result, extend the streak when it repeats
      the previous result (otherwise start a new streak of 1), then raise the
      longest streak of that kind. */
  function Tally(st: Stats, res: Outcome): (r: Stats)
    ensures (r.wins, r.loss) == (if res == Win then (st.wins + 1, st.loss) else (st.wins, st.loss + 1))
    ensures r.lastRes == Some(res)
    ensures r.streak == (if st.lastRes == Some(res) then st.streak + 1 else 1)
    ensures r.maxWin >= st.maxWin && r.maxLoss >= st.maxLoss
    ensures MaxOf(r, res) >= r.streak
    ensures MaxOf(r, res) == Max(MaxOf(st, res), r.streak)
    ensures res == Win ==> r.maxLoss == st.maxLoss
    ensures res == Loss ==> r.maxWin == st.maxWin
  {
    var counted := if res == Win then st.(wins := st.wins + 1) else st.(loss := st.loss + 1);
    var streaked :=
      if counted.lastRes == Some(res) then counted.(streak := counted.streak + 1)
      else counted.(streak := 1, lastRes := Some(res));
    if res == Win then streaked.(maxWin := Max(streaked.maxWin, streaked.streak))
    else streaked.(maxLoss := Max(streaked.maxLoss, streaked.streak))
  }

  /** The statistics after scoring the results rs, oldest first, from Initial. */
  function Replay(rs: seq<Outcome>): (st: Stats)
    ensures st.wins + st.loss == |rs|
    ensures st.streak <= |rs| && st.maxWin <= |rs| && st.maxLoss <= |rs|
    ensures st.lastRes == None <==> rs == []
  {
    if rs == [] then Initial else Tally(Replay(rs[..|rs| - 1]), rs[|rs| - 1])
  }

  /** rs[i..j] consists of results o only. */
  predicate IsRun(rs: seq<Outcome>, i: int, j: int, o: Outcome)
  {
    0 <= i <= j <= |rs| && forall k :: i <= k < j ==> rs[k] == o
  }

  lemma ReplayAppend(rs: seq<Outcome>, r: Outcome)
    ensures Replay(rs + [r]) == Tally(Replay(rs), r)
  {
    assert (rs + [r])[..|rs|] == rs;
  }

  /** Wins and losses count the WIN and LOSS results. */
  lemma {:induction false} ReplayCounts(rs: seq<Outcome>)
    ensures Replay(rs).wins == multiset(rs)[Win]
    ensures Replay(rs).loss == multiset(rs)[Loss]
  {
    if rs != [] {
      var init := rs[..|rs| - 1];
      ReplayCounts(init);
      assert rs == init + [rs[|rs| - 1]];
    }
  }

  /** The streak is the length of the longest run at the end of the results,
      and last_res is the last result; before any result both are unset. */
  lemma {:induction false} ReplayStreak(rs: seq<Outcome>)
    ensures rs == [] ==> Replay(rs).streak == 0 && Replay(rs).lastRes == None
    ensures rs != [] ==>
              var st := Replay(rs);
              && st.lastRes == Some(rs[|rs| - 1])
              && 1 <= st.streak <= |rs|
              && IsRun(rs, |rs| - st.streak, |rs|, rs[|rs| - 1])
              && (st.streak == |rs| || rs[|rs| - 1 - st.streak] != rs[|rs| - 1])
  {
    if rs != [] {
      var init, r := rs[..|rs| - 1], rs[|rs| - 1];
      ReplayStreak(init);
      assert rs == init + [r];
      TallyStreak(init, r, Replay(init));
    }
  }

  /** st's last result and streak describe the run of equal results at the
      end of the non-empty rs: the run has length st.streak and is maximal. */
  ghost predicate TrailingRun(rs: seq<Outcome>, st: Stats)
  {
    && rs != []
    && st.lastRes == Some(rs[|rs| - 1])
    && 1 <= st.streak <= |rs|
    && IsRun(rs, |rs| - st.streak, |rs|, rs[|rs| - 1])
    && (st.streak == |rs| || rs[|rs| - 1 - st.streak] != rs[|rs| - 1])
  }

  /** The inductive step of ReplayStreak: tallying r keeps the streak the
      length of the trailing run. */
  lemma TallyStreak(init: seq<Outcome>, r: Outcome, st0: Stats)
    requires init == [] ==> st0.lastRes == None
    requires init != [] ==> TrailingRun(init, st0)
    ensures TrailingRun(init + [r], Tally(st0, r))
  {
    var rs, st := init + [r], Tally(st0, r);
    if st0.lastRes == Some(r) {
      RunExtends(init, r, |init| - st0.streak);
      if st.streak < |rs| {
        assert rs[|rs| - 1 - st.streak] == init[|init| - 1 - st0.streak];
      }
    } else {
      if |rs| > 1 {
        assert rs[|rs| - 2] == init[|init| - 1];
      }
    }
  }

  /** A run of r at the end of rs, followed by one more r, is still a run. */
  lemma RunExtends(rs: seq<Outcome>, r: Outcome, i: int)
    requires IsRun(rs, i, |rs|, r)
    ensures IsRun(rs + [r], i, |rs| + 1, r)
  {
    forall k | i <= k < |rs| + 1
      ensures (rs + [r])[k] == r
    {
      if k < |rs| {
        assert (rs + [r])[k] == rs[k];
      }
    }
  }

  lemma RunOfPrefix(rs: seq<Outcome>, r: Outcome, i: int, j: int, o: Outcome)
    requires j <= |rs|
    ensures IsRun(rs + [r], i, j, o) <==> IsRun(rs, i, j, o)
  {
    if 0 <= i <= j {
      assert forall k :: i <= k < j ==> (rs + [r])[k] == rs[k];
    }
  }

  /** The longest streak of kind o is the length of the longest run of o
      among the results: no run is longer, and one run is that long. */
  lemma {:induction false} ReplayLongestRun(rs: seq<Outcome>, o: Outcome)
    ensures forall i, j :: IsRun(rs, i, j, o) ==> j - i <= MaxOf(Replay(rs), o)
    ensures exists i, j :: IsRun(rs, i, j, o) && j - i == MaxOf(Replay(rs), o)
  {
    if rs == [] {
      assert IsRun(rs, 0, 0, o);
    } else {
      var init := rs[..|rs| - 1];
      var r := rs[|rs| - 1];
      assert rs == init + [r];
      ReplayLongestRun(init, o);
      ReplayStreak(rs);
      var st0, st := Replay(init), Replay(rs);
      var n := |rs|;
      var len := st.streak;
      forall i, j | IsRun(rs, i, j, o)
        ensures j - i <= MaxOf(st, o)
      {
        if j <= |init| {
          RunOfPrefix(init, r, i, j, o);
        } else if i < j {
          assert rs[n - 1] == o && r == o;
        }
      }
      if MaxOf(st, o) == MaxOf(st0, o) {
        var i, j :| IsRun(init, i, j, o) && j - i == MaxOf(st0, o);
        RunOfPrefix(init, r, i, j, o);
      } else {
        assert r == o && MaxOf(st, o) == len;
        assert IsRun(rs, n - len, n, o);
      }
    }
  }

  /** The longest streaks never shrink as more results are scored. */
  lemma {:induction false} MaxNeverDecreases(rs: seq<Outcome>, more: seq<Outcome>)
    ensures Replay(rs).maxWin <= Replay(rs + more).maxWin
    ensures Replay(rs).maxLoss <= Replay(rs + more).maxLoss
    decreases |more|
  {
    if more == [] {
      assert rs + more == rs;
    } else {
      var front := more[..|more| - 1];
      MaxNeverDecreases(rs, front);
      assert rs + more == (rs + front) + [more[|more| - 1]];
      ReplayAppend(rs + front, more[|more| - 1]);
    }
  }
}
