/** The dashboard session: the trained tables, the live digits, the history
    of rounds and each engine's statistics, and the operations that change
    them (training, initialising the live digits, entering a digit, reset). */
module Dashboard {
  import opened Common
  import opened Training
  import opened Prediction
  import opened Streaks

  /** One history row. The WIN/LOSS/WAIT columns are kept as outcomes
      (None is WAIT or "-"), not as their HTML. */
  datatype Round = Round(
    round: nat,
    number: int,
    actual: Size,
    e1Pred: Option<Size>,
    e1Result: Option<Outcome>,
    e1Streak: Option<nat>,
    e2Pred: Option<int>,
    e2Result: Option<Outcome>,
    e2Streak: Option<nat>)

  /** Engine 1's result in a round: WIN or LOSS when it predicted a size. */
  function Scored1(pred: Option<Size>, actual: Size): (o: Option<Outcome>)
    ensures o.Some? <==> pred.Some?
    ensures o == Some(Win) <==> pred == Some(actual)
  {
    if pred.Some? then Some(Judge(pred.value, actual)) else None
  }

  /** Engine 2's result: its predicted number's size against the actual size. */
  function Scored2(pred: Option<int>, actual: Size): (o: Option<Outcome>)
    ensures o.Some? <==> pred.Some?
    ensures o == Some(Win) <==> pred.Some? && SizeOf(pred.value) == actual
  {
    if pred.Some? then Some(Judge(SizeOf(pred.value), actual)) else None
  }

  /** Engine 1's results in the rounds of h (most recent first), oldest first. */
  function Results1(h: seq<Round>): seq<Outcome>
  {
    if h == [] then [] else Results1(h[1..]) + (if h[0].e1Result.Some? then [h[0].e1Result.value] else [])
  }

  /** Engine 2's results in the rounds of h (most recent first), oldest first. */
  function Results2(h: seq<Round>): seq<Outcome>
  {
    if h == [] then [] else Results2(h[1..]) + (if h[0].e2Result.Some? then [h[0].e2Result.value] else [])
  }

  /** The statistics after a round whose result is res (None: no prediction). */
  function NextStats(st: Stats, res: Option<Outcome>): (r: Stats)
    ensures res.None? ==> r == st
    ensures res.Some? ==> r.wins + r.loss == st.wins + st.loss + 1 && r.lastRes == res
  {
    if res.Some? then Tally(st, res.value) else st
  }

  /** Engine 1's statistics after the rounds of h (most recent first). */
  function Stats1Of(h: seq<Round>): Stats
  {
    if h == [] then Initial else NextStats(Stats1Of(h[1..]), h[0].e1Result)
  }

  /** Engine 2's statistics after the rounds of h (most recent first). */
  function Stats2Of(h: seq<Round>): Stats
  {
    if h == [] then Initial else NextStats(Stats2Of(h[1..]), h[0].e2Result)
  }

  /** The statistics kept round by round are the replay of the engine's
      results in the order they were scored. */
  lemma {:induction false} StatsOfReplay(h: seq<Round>)
    ensures Stats1Of(h) == Replay(Results1(h))
    ensures Stats2Of(h) == Replay(Results2(h))
  {
    if h != [] {
      StatsOfReplay(h[1..]);
      if h[0].e1Result.Some? {
        ReplayAppend(Results1(h[1..]), h[0].e1Result.value);
      } else {
        assert Results1(h) == Results1(h[1..]);
      }
      if h[0].e2Result.Some? {
        ReplayAppend(Results2(h[1..]), h[0].e2Result.value);
      } else {
        assert Results2(h) == Results2(h[1..]);
      }
    }
  }

  /** `[int(d) for d in init]` for a string of decimal digits. */
  function DigitsOf(init: string): (w: seq<int>)
    requires forall i :: 0 <= i < |init| ==> '0' <= init[i] <= '9'
    ensures |w| == |init| && IsDigits(w)
  {
    seq(|init|, i requires 0 <= i < |init| => init[i] as int - '0' as int)
  }

  /** The digits typed to initialise give back, as a key, the typed string. */
  lemma InitKeyRoundTrip(init: string)
    requires forall i :: 0 <= i < |init| ==> '0' <= init[i] <= '9'
    ensures Key(DigitsOf(init)) == init
  {
    var w := DigitsOf(init);
    KeyOfDigits(w);
    forall j | 0 <= j < |init|
      ensures Key(w)[j] == init[j]
    {
      assert DigitChar(w[j]) == init[j];
    }
  }

  /** A history row for the digit `number` entered in round `round`, when
      the live digits before it were `before` and `later` is the history from
      this row back to the first round (most recent first): it records the two
      predictions made from `before`, the results scored against the digit's
      size, and the streaks after scoring. */
  ghost predicate Describes(db: map<string, Size>, model: map<string, seq<int>>, before: seq<int>,
                            number: int, round: nat, later: seq<Round>, rec: Round)
    requires ModelOk(model)
  {
    && rec.round == round
    && rec.number == number
    && rec.actual == SizeOf(number)
    && rec.e1Pred == Predict1(db, before)
    && rec.e1Result == Scored1(rec.e1Pred, rec.actual)
    && rec.e1Streak == (if rec.e1Pred.Some? then Some(Stats1Of(later).streak) else None)
    && rec.e2Pred == Predict2(model, before)
    && rec.e2Result == Scored2(rec.e2Pred, rec.actual)
    && rec.e2Streak == (if rec.e2Pred.Some? then Some(Stats2Of(later).streak) else None)
  }

  /** History row j (0 is the most recent) of h describes the digit entered in
      round |h| - j, the (|ns| - 1 - j)-th live digit. */
  ghost predicate RoundFits(db: map<string, Size>, model: map<string, seq<int>>, ns: seq<int>, h: seq<Round>, j: int)
    requires ModelOk(model) && 0 <= j < |h| <= |ns|
  {
    Describes(db, model, ns[..|ns| - 1 - j], ns[|ns| - 1 - j], |h| - j, h[j..], h[j])
  }

  ghost predicate HistoryFits(db: map<string, Size>, model: map<string, seq<int>>, ns: seq<int>, h: seq<Round>)
    requires ModelOk(model) && |h| <= |ns|
  {
    forall j :: 0 <= j < |h| ==> RoundFits(db, model, ns, h, j)
  }

  /** Row j of h is row j + 1 of h' once a row is prepended for digit d. */
  lemma RoundShifts(db: map<string, Size>, model: map<string, seq<int>>, ns: seq<int>, h: seq<Round>, d: int, h': seq<Round>, j: nat)
    requires ModelOk(model) && j < |h| <= |ns|
    requires |h'| == |h| + 1 && h'[1..] == h
    requires RoundFits(db, model, ns, h, j)
    ensures RoundFits(db, model, ns + [d], h', j + 1)
  {
    ShiftedSlices(ns, h, d, h', j);
  }

  /** The slices RoundFits takes of the history and the digits move by one
      when a row is prepended and a digit appended. */
  lemma ShiftedSlices(ns: seq<int>, h: seq<Round>, d: int, h': seq<Round>, j: nat)
    requires j < |h| <= |ns| && |h'| == |h| + 1 && h'[1..] == h
    ensures h'[j + 1] == h[j] && h'[j + 1..] == h[j..]
    ensures (ns + [d])[..|ns + [d]| - 1 - (j + 1)] == ns[..|ns| - 1 - j]
    ensures (ns + [d])[|ns + [d]| - 1 - (j + 1)] == ns[|ns| - 1 - j]
  {
    assert h'[j + 1] == h'[1..][j];
  }

  lemma DigitsAppend(ns: seq<int>, d: int)
    requires IsDigits(ns) && 0 <= d <= 9
    ensures IsDigits(ns + [d])
  {
  }

  /** The row prepended for digit d, entered after the live digits ns, is
      row 0 of the new history. */
  lemma NewRoundFits(db: map<string, Size>, model: map<string, seq<int>>, ns: seq<int>, h: seq<Round>, d: int, row: Round)
    requires ModelOk(model) && |h| < |ns|
    requires Describes(db, model, ns, d, |h| + 1, [row] + h, row)
    ensures RoundFits(db, model, ns + [d], [row] + h, 0)
  {
    assert (ns + [d])[..|ns|] == ns;
    assert ([row] + h)[0..] == [row] + h;
  }

  /** The history row for digit d entered after the live digits ns, with h
      the history and s1, s2 the statistics before it. */
  function NextRound(db: map<string, Size>, model: map<string, seq<int>>, ns: seq<int>, h: seq<Round>,
                     s1: Stats, s2: Stats, d: int): (row: Round)
    requires ModelOk(model)
    ensures row.round == |h| + 1 && row.number == d && row.actual == SizeOf(d)
    ensures row.e1Pred == Predict1(db, ns) && row.e2Pred == Predict2(model, ns)
    ensures row.e1Result.Some? <==> row.e1Pred.Some?
    ensures row.e1Result == Some(Win) <==> row.e1Pred == Some(SizeOf(d))
    ensures row.e2Result.Some? <==> row.e2Pred.Some?
    ensures row.e2Result == Some(Win) <==> row.e2Pred.Some? && SizeOf(row.e2Pred.value) == SizeOf(d)
    ensures row.e1Streak.Some? <==> row.e1Pred.Some?
    ensures row.e1Streak.Some? ==> row.e1Streak.value >= 1
    ensures row.e2Streak.Some? <==> row.e2Pred.Some?
    ensures row.e2Streak.Some? ==> row.e2Streak.value >= 1
  {
    var actual := SizeOf(d);
    var pred1 := Predict1(db, ns);
    var stat1 := Scored1(pred1, actual);
    var pred2 := Predict2(model, ns);
    var stat2 := Scored2(pred2, actual);
    Round(|h| + 1, d, actual,
          pred1, stat1, if pred1.Some? then Some(NextStats(s1, stat1).streak) else None,
          pred2, stat2, if pred2.Some? then Some(NextStats(s2, stat2).streak) else None)
  }

  /** What a trained session's live digits ns, history h and statistics s1,
      s2 satisfy: the digits are digits, every row describes its round, there
      are at least six digits once a round has been played, and each
      engine's statistics are the replay of its recorded results. */
  ghost predicate Consistent(db: map<string, Size>, model: map<string, seq<int>>, ns: seq<int>, h: seq<Round>,
                             s1: Stats, s2: Stats)
    requires ModelOk(model)
  {
    && IsDigits(ns)
    && (h == [] || |ns| >= Width + |h|)
    && |h| <= |ns|
    && HistoryFits(db, model, ns, h)
    && s1 == Stats1Of(h)
    && s2 == Stats2Of(h)
  }

  /** Entering a digit keeps a trained session consistent. */
  lemma StepKeepsConsistent(db: map<string, Size>, model: map<string, seq<int>>, ns: seq<int>, h: seq<Round>,
                            s1: Stats, s2: Stats, d: int)
    requires ModelOk(model) && Consistent(db, model, ns, h, s1, s2)
    requires |ns| >= Width && 0 <= d <= 9
    ensures var row := NextRound(db, model, ns, h, s1, s2, d);
            Consistent(db, model, ns + [d], [row] + h, NextStats(s1, row.e1Result), NextStats(s2, row.e2Result))
  {
    var row := NextRound(db, model, ns, h, s1, s2, d);
    var h' := [row] + h;
    assert h'[1..] == h;
    assert Describes(db, model, ns, d, |h| + 1, h', row);
    NewRoundFits(db, model, ns, h, d, row);
    HistoryExtends(db, model, ns, h, d, h');
    DigitsAppend(ns, d);
  }

  /** The invariant of a session with tables db and model, live digits ns,
      history h and statistics s1, s2: both tables are present or neither;
      an untrained session is empty; a trained one is consistent. */
  ghost predicate SessionOk(db: Option<map<string, Size>>, model: Option<map<string, seq<int>>>,
                            ns: seq<int>, h: seq<Round>, s1: Stats, s2: Stats)
  {
    && db.Some? == model.Some?
    && if db.Some? then
         ModelOk(model.value) && Consistent(db.value, model.value, ns, h, s1, s2)
       else
         ns == [] && h == [] && s1 == Initial && s2 == Initial
  }

  /** SessionOk for a trained session after a digit is entered. */
  lemma StepKeepsSessionOk(db: map<string, Size>, model: map<string, seq<int>>, ns: seq<int>, h: seq<Round>,
                           s1: Stats, s2: Stats, d: int)
    requires SessionOk(Some(db), Some(model), ns, h, s1, s2)
    requires |ns| >= Width && 0 <= d <= 9
    ensures ModelOk(model)
    ensures var row := NextRound(db, model, ns, h, s1, s2, d);
            SessionOk(Some(db), Some(model), ns + [d], [row] + h, NextStats(s1, row.e1Result), NextStats(s2, row.e2Result))
  {
    StepKeepsConsistent(db, model, ns, h, s1, s2, d);
  }

  /** Prepending a row for a newly entered digit keeps the older rows in
      place: each still describes its own round. */
  lemma HistoryExtends(db: map<string, Size>, model: map<string, seq<int>>, ns: seq<int>, h: seq<Round>, d: int, h': seq<Round>)
    requires ModelOk(model) && |h| <= |ns|
    requires HistoryFits(db, model, ns, h)
    requires |h'| == |h| + 1 && h'[1..] == h
    requires RoundFits(db, model, ns + [d], h', 0)
    ensures HistoryFits(db, model, ns + [d], h')
  {
    forall j | 0 <= j < |h'|
      ensures RoundFits(db, model, ns + [d], h', j)
    {
      if j > 0 {
        RoundShifts(db, model, ns, h, d, h', j - 1);
      }
    }
  }

  class Session {
    /** Engine 1's table, None until training succeeds. */
    var logicDb: Option<map<string, Size>>
    /** Engine 2's table, None until training succeeds. */
    var sequenceModel: Option<map<string, seq<int>>>
    /** The live digits, oldest first. */
    var numSequence: seq<int>
    /** The history rows, most recent first. */
    var history: seq<Round>
    var statsE1: Stats
    var statsE2: Stats

    predicate Trained()
      reads this
    {
      logicDb.Some?
    }

    ghost predicate Valid()
      reads this
    {
      SessionOk(logicDb, sequenceModel, numSequence, history, statsE1, statsE2)
    }

    /** The tables are the ones trained on nums. */
    ghost predicate TrainedOn(nums: seq<int>)
      reads this
    {
      logicDb == Some(Engine1Db(nums)) && sequenceModel == Some(Engine2Model(nums))
    }

    /** The state of a session that has not been trained. */
    ghost predicate IsInitial()
      reads this
    {
      && logicDb == None && sequenceModel == None
      && numSequence == [] && history == []
      && statsE1 == Initial && statsE2 == Initial
    }

    /** Engine 1's current prediction. */
    function Pred1(): Option<Size>
      reads this
      requires Trained()
    {
      Predict1(logicDb.value, numSequence)
    }

    /** Engine 2's current prediction. */
    function Pred2(): Option<int>
      reads this
      requires sequenceModel.Some? && ModelOk(sequenceModel.value)
    {
      Predict2(sequenceModel.value, numSequence)
    }

    constructor ()
      ensures Valid() && IsInitial()
    {
      logicDb := None;
      sequenceModel := None;
      numSequence := [];
      history := [];
      statsE1 := Initial;
      statsE2 := Initial;
    }

    /** Installs the tables built from the upload; a failed training leaves
        the session untrained. */
    method Train(columns: set<string>, nums: seq<int>)
      requires Valid() && !Trained()
      modifies this
      ensures Valid()
      ensures "number" in columns ==> TrainedOn(nums)
      ensures "number" !in columns ==> !Trained()
      ensures numSequence == old(numSequence) && history == old(history)
      ensures statsE1 == old(statsE1) && statsE2 == old(statsE2)
    {
      var r := TrainEngines(columns, nums);
      if r.Ok? {
        logicDb := Some(r.value.logicDb);
        sequenceModel := Some(r.value.sequenceModel);
      }
    }

    /** Replaces the live digits by the six typed ones; any other length
        leaves them as they are. */
    method Initialize(init: string)
      requires Valid() && Trained() && |numSequence| < Width
      requires |init| == Width ==> forall i :: 0 <= i < |init| ==> '0' <= init[i] <= '9'
      modifies this
      ensures Valid()
      ensures numSequence == if |init| == Width then DigitsOf(init) else old(numSequence)
      ensures logicDb == old(logicDb) && sequenceModel == old(sequenceModel)
      ensures history == old(history) && statsE1 == old(statsE1) && statsE2 == old(statsE2)
    {
      if |init| == Width {
        numSequence := DigitsOf(init);
      }
    }

    /** Scores both engines' current predictions against the entered digit,
        prepends its history row and appends the digit to the live digits. */
    method EnterDigit(d: int)
      requires Valid() && Trained() && |numSequence| >= Width && 0 <= d <= 9
      modifies this
      ensures Valid()
      ensures logicDb == old(logicDb) && sequenceModel == old(sequenceModel)
      ensures numSequence == old(numSequence) + [d]
      ensures statsE1 == if old(Pred1()).Some? then Tally(old(statsE1), Judge(old(Pred1()).value, SizeOf(d))) else old(statsE1)
      ensures statsE2 == if old(Pred2()).Some? then Tally(old(statsE2), Judge(SizeOf(old(Pred2()).value), SizeOf(d))) else old(statsE2)
      ensures |history| == |old(history)| + 1 && history[1..] == old(history)
      ensures history[0] == Round(|old(history)| + 1, d, SizeOf(d),
                                  old(Pred1()), Scored1(old(Pred1()), SizeOf(d)),
                                  if old(Pred1()).Some? then Some(statsE1.streak) else None,
                                  old(Pred2()), Scored2(old(Pred2()), SizeOf(d)),
                                  if old(Pred2()).Some? then Some(statsE2.streak) else None)
    {
      StepKeepsSessionOk(logicDb.value, sequenceModel.value, numSequence, history, statsE1, statsE2, d);
      var row := NextRound(logicDb.value, sequenceModel.value, numSequence, history, statsE1, statsE2, d);
      statsE1, statsE2 := NextStats(statsE1, row.e1Result), NextStats(statsE2, row.e2Result);
      history := [row] + history;
      numSequence := numSequence + [d];
    }

    /** Clears the whole session back to its untrained initial state. */
    method Reset()
      requires Valid() && Trained()
      modifies this
      ensures Valid() && IsInitial()
    {
      logicDb := None;
      sequenceModel := None;
      numSequence := [];
      history := [];
      statsE1 := Initial;
      statsE2 := Initial;
    }
  }
}
