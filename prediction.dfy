/** The two engines' predictions for the next digit, looked up with the key
    of the last six live digits. A missing prediction is shown as WAIT. */
module Prediction {
  import opened Common
  import opened Training

  /** `live[-6:]`: the last six numbers, or all of them when there are fewer. */
  function LastSix(live: seq<int>): (w: seq<int>)
    ensures |w| == if |live| >= Width then Width else |live|
  {
    if |live| >= Width then live[|live| - Width..] else live
  }

  /** The trailing window is the end of the live digits. */
  lemma LastSixIsSuffix(live: seq<int>)
    ensures LastSix(live) == live[|live| - |LastSix(live)|..]
  {
  }

  /** Engine 1: the size stored under the trailing key, if any (`dict.get`). */
  function Predict1(db: map<string, Size>, live: seq<int>): (p: Option<Size>)
    ensures p.Some? <==> Key(LastSix(live)) in db
    ensures p.Some? ==> p.value == db[Key(LastSix(live))]
  {
    var k := Key(LastSix(live));
    if k in db then Some(db[k]) else None
  }

  /** A value of `vals` that occurs at least as often as every other value:
      the first such value in occurrence order. */
  function MostFrequent(vals: seq<int>): (r: int)
    requires vals != []
    ensures r in vals
    ensures forall x :: x in vals ==> multiset(vals)[x] <= multiset(vals)[r]
  {
    ScanMax(vals, 1, vals[0])
  }

  /** Scans vals[i..] keeping `best`, a value whose count is maximal among vals[..i]. */
  function ScanMax(vals: seq<int>, i: nat, best: int): (r: int)
    requires 1 <= i <= |vals|
    requires best in vals
    requires forall j :: 0 <= j < i ==> multiset(vals)[vals[j]] <= multiset(vals)[best]
    ensures r in vals
    ensures forall j :: 0 <= j < |vals| ==> multiset(vals)[vals[j]] <= multiset(vals)[r]
    decreases |vals| - i
  {
    if i == |vals| then best
    else ScanMax(vals, i + 1, if multiset(vals)[vals[i]] > multiset(vals)[best] then vals[i] else best)
  }

  /** Engine 2: with at least six live digits and a stored list under the
      trailing key, a most frequent number of that list. */
  function Predict2(model: map<string, seq<int>>, live: seq<int>): (p: Option<int>)
    requires ModelOk(model)
    ensures p.None? <==> |live| < Width || Key(LastSix(live)) !in model
    ensures p.Some? ==>
              var vals := model[Key(LastSix(live))];
              p.value in vals && forall x :: x in vals ==> multiset(vals)[x] <= multiset(vals)[p.value]
  {
    var k := Key(LastSix(live));
    if |live| >= Width && k in model then Some(MostFrequent(model[k])) else None
  }

  /** Training window i is the window w. */
  predicate WindowAt(nums: seq<int>, i: int, w: seq<int>)
  {
    0 <= i < NumWindows(nums) && nums[i..i + Width] == w
  }

  /** For a window w of at most six digits, a key occurrence is a window
      occurrence, whatever the training numbers: a training window with the
      same key has six characters for six numbers, so it is digits too. */
  lemma OccurrenceOfDigits(nums: seq<int>, w: seq<int>, i: int)
    requires IsDigits(w) && |w| <= Width
    ensures IsOccurrence(nums, Key(w), i) <==> WindowAt(nums, i, w)
  {
    if 0 <= i < NumWindows(nums) {
      var v := nums[i..i + Width];
      KeyOfDigits(w);
      if Key(v) == Key(w) {
        ShortKeyIsDigits(v);
        KeyInjective(v, w);
      }
    }
  }

  /** Engine 1 predicts size s for the trailing six digits exactly when that
      window occurs in the training numbers and every occurrence of it was
      followed by a number of size s. */
  lemma Predict1OnDigits(nums: seq<int>, live: seq<int>, s: Size)
    requires IsDigits(live) && |live| >= Width
    ensures Predict1(Engine1Db(nums), live) == Some(s) <==>
              (exists i :: WindowAt(nums, i, LastSix(live))) &&
              (forall i :: WindowAt(nums, i, LastSix(live)) ==> SizeOf(nums[i + Width]) == s)
  {
    var w := LastSix(live);
    var k := Key(w);
    Engine1DbSpec(nums, k);
    forall i
      ensures IsOccurrence(nums, k, i) <==> WindowAt(nums, i, w)
    {
      OccurrenceOfDigits(nums, w, i);
    }
    if exists i :: WindowAt(nums, i, w) {
      var i0 :| WindowAt(nums, i0, w);
      if forall i :: WindowAt(nums, i, w) ==> SizeOf(nums[i + Width]) == s {
        assert k in Engine1Db(nums);
        assert Engine1Db(nums)[k] == SizeOf(nums[i0 + Width]);
      }
    }
  }

  /** Engine 2's prediction for live digits: WAIT exactly when there are fewer
      than six live digits or the trailing window never occurred in training;
      otherwise a number that followed an occurrence of the window and that
      occurs at least as often as any other in the stored list. */
  lemma Predict2OnDigits(nums: seq<int>, live: seq<int>)
    requires IsDigits(live)
    ensures Predict2(Engine2Model(nums), live).None? <==>
              |live| < Width || !exists i :: WindowAt(nums, i, LastSix(live))
    ensures Predict2(Engine2Model(nums), live).Some? ==>
              var x := Predict2(Engine2Model(nums), live).value;
              var vals := Engine2Model(nums)[Key(LastSix(live))];
              && (exists i :: WindowAt(nums, i, LastSix(live)) && nums[i + Width] == x)
              && forall i :: WindowAt(nums, i, LastSix(live)) ==> multiset(vals)[nums[i + Width]] <= multiset(vals)[x]
  {
    var w := LastSix(live);
    var k := Key(w);
    var model := Engine2Model(nums);
    forall i
      ensures IsOccurrence(nums, k, i) <==> WindowAt(nums, i, w)
    {
      OccurrenceOfDigits(nums, w, i);
    }
    Engine2ModelSpec(nums, k);
    var p := Predict2(model, live);
    if p.Some? {
      Engine2Members(nums, k, p.value);
      forall i | WindowAt(nums, i, w)
        ensures nums[i + Width] in model[k]
      {
        Engine2Members(nums, k, nums[i + Width]);
      }
    }
  }

  /** Engine 1 never answers while fewer than six live digits exist: its keys
      have at least six characters, the trailing key fewer. */
  lemma FewDigitsWait(nums: seq<int>, live: seq<int>)
    requires IsDigits(live) && |live| < Width
    ensures Predict1(Engine1Db(nums), live) == None
    ensures Predict2(Engine2Model(nums), live) == None
  {
    KeyOfDigits(live);
    var k := Key(LastSix(live));
    if k in Engine1Db(nums) {
      TableKeysLong(nums, k);
    }
  }

  /** Training on six or fewer numbers leaves both engines at WAIT forever. */
  lemma SmallTrainingWait(nums: seq<int>, live: seq<int>)
    requires |nums| <= Width
    ensures Predict1(Engine1Db(nums), live) == None
    ensures Predict2(Engine2Model(nums), live) == None
  {
    SmallTrainingEmpty(nums);
  }
}
