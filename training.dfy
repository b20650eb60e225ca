/** Training of the two engines from the cleaned `number` column of the
    uploaded history.

    A window is six consecutive numbers that are followed by a seventh; for
    window position i (0 <= i < |nums| - 6) the key is Key(nums[i..i+6]) and the
    follower is nums[i+6]. Both engines group the followers by key, in the
    order the windows occur:
    - engine 1 groups the followers' sizes and keeps only the keys whose
      followers all have one size (the unanimity filter);
    - engine 2 keeps the followers themselves. */
module Training {
  import opened Common

  /** The number of numbers in a window. */
  const Width: nat := 6

  /** The number of window positions, `range(len(nums) - 6)`. */
  function NumWindows(nums: seq<int>): nat
  {
    if |nums| > Width then |nums| - Width else 0
  }

  /** The key of every window position. */
  function WindowKeys(nums: seq<int>): (ks: seq<string>)
    ensures |ks| == NumWindows(nums)
  {
    seq(NumWindows(nums), i requires 0 <= i < NumWindows(nums) => Key(nums[i..i + Width]))
  }

  /** The size of the number after every window position (engine 1's labels). */
  function NextSizes(nums: seq<int>): (vs: seq<Size>)
    ensures |vs| == NumWindows(nums)
  {
    seq(NumWindows(nums), i requires 0 <= i < NumWindows(nums) => SizeOf(nums[i + Width]))
  }

  /** The number after every window position (engine 2's labels). */
  function NextNumbers(nums: seq<int>): (vs: seq<int>)
    ensures |vs| == NumWindows(nums)
  {
    seq(NumWindows(nums), i requires 0 <= i < NumWindows(nums) => nums[i + Width])
  }

  /** Position i is an occurrence of key k in the training numbers. */
  predicate IsOccurrence(nums: seq<int>, k: string, i: int)
  {
    0 <= i < NumWindows(nums) && Key(nums[i..i + Width]) == k
  }

  // ---------------------------------------------------------------------
  // Grouping followers by key (a dictionary of lists filled by appending)
  // ---------------------------------------------------------------------

  /** The positions among the first n whose key is k, in increasing order. */
  function Positions(ks: seq<string>, k: string, n: nat): seq<nat>
    requires n <= |ks|
  {
    if n == 0 then []
    else Positions(ks, k, n - 1) + (if ks[n - 1] == k then [n - 1] else [])
  }

  /** The labels of the first n positions whose key is k, in occurrence order. */
  function Followers<T>(ks: seq<string>, vs: seq<T>, k: string, n: nat): seq<T>
    requires n <= |ks| == |vs|
  {
    if n == 0 then []
    else Followers(ks, vs, k, n - 1) + (if ks[n - 1] == k then [vs[n - 1]] else [])
  }

  /** The dictionary of lists after the first n appends. */
  function Group<T>(ks: seq<string>, vs: seq<T>, n: nat): (g: map<string, seq<T>>)
    requires n <= |ks| == |vs|
    ensures forall k :: k in g ==> g[k] != []
  {
    if n == 0 then map[]
    else
      var g := Group(ks, vs, n - 1);
      var k := ks[n - 1];
      g[k := (if k in g then g[k] else []) + [vs[n - 1]]]
  }

  lemma {:induction false} PositionsSpec(ks: seq<string>, k: string, n: nat)
    requires n <= |ks|
    ensures forall j :: 0 <= j < |Positions(ks, k, n)| ==> Positions(ks, k, n)[j] < n
    ensures forall a, b :: 0 <= a < b < |Positions(ks, k, n)| ==> Positions(ks, k, n)[a] < Positions(ks, k, n)[b]
    ensures forall i :: i in Positions(ks, k, n) <==> 0 <= i < n && ks[i] == k
  {
    if n > 0 {
      PositionsSpec(ks, k, n - 1);
      var p := Positions(ks, k, n - 1);
      assert forall j :: 0 <= j < |p| ==> p[j] < n - 1;
    }
  }

  /** The followers of k are the labels at k's positions, position by position. */
  lemma {:induction false} FollowersInOrder<T>(ks: seq<string>, vs: seq<T>, k: string, n: nat)
    requires n <= |ks| == |vs|
    ensures |Followers(ks, vs, k, n)| == |Positions(ks, k, n)|
    ensures forall j :: 0 <= j < |Positions(ks, k, n)| ==>
              Positions(ks, k, n)[j] < |vs| && Followers(ks, vs, k, n)[j] == vs[Positions(ks, k, n)[j]]
  {
    if n > 0 {
      FollowersInOrder(ks, vs, k, n - 1);
      PositionsSpec(ks, k, n - 1);
    }
  }

  lemma {:induction false} FollowersMembers<T>(ks: seq<string>, vs: seq<T>, k: string, n: nat, x: T)
    requires n <= |ks| == |vs|
    ensures x in Followers(ks, vs, k, n) <==> exists i :: 0 <= i < n && ks[i] == k && vs[i] == x
  {
    if n > 0 {
      FollowersMembers(ks, vs, k, n - 1, x);
    }
  }

  /** A key is present exactly when some position has it, and then it holds
      the followers of that key in occurrence order. */
  lemma {:induction false} GroupSpec<T>(ks: seq<string>, vs: seq<T>, n: nat, k: string)
    requires n <= |ks| == |vs|
    ensures k in Group(ks, vs, n) <==> exists i :: 0 <= i < n && ks[i] == k
    ensures k in Group(ks, vs, n) ==> Group(ks, vs, n)[k] == Followers(ks, vs, k, n)
    ensures k !in Group(ks, vs, n) ==> Followers(ks, vs, k, n) == []
  {
    if n > 0 {
      GroupSpec(ks, vs, n - 1, k);
    }
  }

  /** A present key's list holds the labels at the key's positions, one per
      position and in increasing position order. */
  lemma GroupInOrder<T>(ks: seq<string>, vs: seq<T>, n: nat, k: string)
    requires n <= |ks| == |vs|
    requires k in Group(ks, vs, n)
    ensures var p := Positions(ks, k, n);
            && |Group(ks, vs, n)[k]| == |p| > 0
            && (forall j :: 0 <= j < |p| ==> p[j] < n)
            && (forall a, b :: 0 <= a < b < |p| ==> p[a] < p[b])
            && (forall i :: i in p <==> 0 <= i < n && ks[i] == k)
            && (forall j :: 0 <= j < |p| ==> Group(ks, vs, n)[k][j] == vs[p[j]])
  {
    GroupSpec(ks, vs, n, k);
    PositionsSpec(ks, k, n);
    FollowersInOrder(ks, vs, k, n);
  }

  // ---------------------------------------------------------------------
  // Total number of recorded followers
  // ---------------------------------------------------------------------

  /** The sum of the lengths of all lists of a table. */
  ghost function TotalLength<T>(g: map<string, seq<T>>): nat
    decreases |g.Keys|
  {
    if g.Keys == {} then 0
    else
      var k :| k in g.Keys;
      |g[k]| + TotalLength(g - {k})
  }

  /** The sum does not depend on which key is taken out first. */
  lemma {:induction false} TotalLengthRemove<T>(g: map<string, seq<T>>, k: string)
    requires k in g
    ensures TotalLength(g) == |g[k]| + TotalLength(g - {k})
    decreases |g.Keys|
  {
    var k' :| k' in g.Keys && TotalLength(g) == |g[k']| + TotalLength(g - {k'});
    if k' != k {
      var g1 := g - {k'};
      var g2 := g - {k};
      assert k in g1 && k' in g2;
      assert |g1.Keys| < |g.Keys| by { assert g1.Keys == g.Keys - {k'}; }
      assert |g2.Keys| < |g.Keys| by { assert g2.Keys == g.Keys - {k}; }
      TotalLengthRemove(g1, k);
      TotalLengthRemove(g2, k');
      assert g1 - {k} == g2 - {k'};
    }
  }

  lemma TotalLengthUpdate<T>(g: map<string, seq<T>>, k: string, s: seq<T>)
    ensures TotalLength(g[k := s]) == TotalLength(g) + |s| - (if k in g then |g[k]| else 0)
  {
    TotalLengthRemove(g[k := s], k);
    assert g[k := s] - {k} == g - {k};
    if k in g {
      TotalLengthRemove(g, k);
    } else {
      assert g - {k} == g;
    }
  }

  /** One label is recorded per position: the lists' lengths add up to n. */
  lemma {:induction false} GroupTotal<T>(ks: seq<string>, vs: seq<T>, n: nat)
    requires n <= |ks| == |vs|
    ensures TotalLength(Group(ks, vs, n)) == n
  {
    if n == 0 {
      assert Group(ks, vs, 0).Keys == {};
    } else {
      GroupTotal(ks, vs, n - 1);
      var g := Group(ks, vs, n - 1);
      var k := ks[n - 1];
      TotalLengthUpdate(g, k, (if k in g then g[k] else []) + [vs[n - 1]]);
    }
  }

  // ---------------------------------------------------------------------
  // The two tables
  // ---------------------------------------------------------------------

  /** The distinct values of a list, `set(out)`. */
  function Distinct(s: seq<Size>): set<Size>
  {
    set x | x in s
  }

  /** `len(set(out)) == 1` holds exactly when the list is non-empty and all
      its sizes are its first. */
  lemma DistinctIsOne(s: seq<Size>)
    ensures |Distinct(s)| == 1 <==> |s| > 0 && forall x :: x in s ==> x == s[0]
  {
    if |s| > 0 && forall x :: x in s ==> x == s[0] {
      assert Distinct(s) == {s[0]};
    } else if |s| == 0 {
      assert Distinct(s) == {};
    } else {
      assert Big in s && Small in s;
      assert Distinct(s) == {Big, Small};
    }
  }

  lemma DistinctIsOneAll(logic: map<string, seq<Size>>)
    ensures forall k :: k in logic ==>
              (|Distinct(logic[k])| == 1 <==> |logic[k]| > 0 && forall x :: x in logic[k] ==> x == logic[k][0])
  {
    forall k | k in logic {
      DistinctIsOne(logic[k]);
    }
  }

  /** Engine 1's filter: keep a key only if its list holds a single size. */
  function Unanimous(logic: map<string, seq<Size>>): (r: map<string, Size>)
    ensures forall k :: k in r <==> k in logic && logic[k] != [] && forall x :: x in logic[k] ==> x == logic[k][0]
    ensures forall k, x :: k in r && x in logic[k] ==> x == r[k]
  {
    DistinctIsOneAll(logic);
    // |logic[k]| > 0 follows from |Distinct(logic[k])| == 1; it lets out[0] be read
    map k | k in logic && |logic[k]| > 0 && |Distinct(logic[k])| == 1 :: logic[k][0]
  }

  /** Grouping the sizes of some labels gives the same keys as grouping the
      labels, with each list the sizes of the labels' list. */
  lemma {:induction false} GroupSizes(ks: seq<string>, vs: seq<int>, ws: seq<Size>, n: nat)
    requires n <= |ks| == |vs| == |ws|
    requires forall i :: 0 <= i < |vs| ==> ws[i] == SizeOf(vs[i])
    ensures Group(ks, ws, n).Keys == Group(ks, vs, n).Keys
    ensures forall k :: k in Group(ks, vs, n) ==>
              && |Group(ks, ws, n)[k]| == |Group(ks, vs, n)[k]|
              && forall j :: 0 <= j < |Group(ks, vs, n)[k]| ==> Group(ks, ws, n)[k][j] == SizeOf(Group(ks, vs, n)[k][j])
  {
    if n > 0 {
      GroupSizes(ks, vs, ws, n - 1);
    }
  }

  /** After the unanimity filter on the grouped sizes, a kept key's size is
      the size of every label grouped under it. */
  lemma UnanimousSizes(ks: seq<string>, vs: seq<int>, ws: seq<Size>, n: nat)
    requires n <= |ks| == |vs| == |ws|
    requires forall i :: 0 <= i < |vs| ==> ws[i] == SizeOf(vs[i])
    ensures Unanimous(Group(ks, ws, n)).Keys <= Group(ks, vs, n).Keys
    ensures forall k, x :: k in Unanimous(Group(ks, ws, n)) && x in Group(ks, vs, n)[k] ==>
              SizeOf(x) == Unanimous(Group(ks, ws, n))[k]
  {
    var g, h := Group(ks, vs, n), Group(ks, ws, n);
    GroupSizes(ks, vs, ws, n);
    forall k, x | k in Unanimous(h) && x in g[k]
      ensures SizeOf(x) == Unanimous(h)[k]
    {
      var j :| 0 <= j < |g[k]| && g[k][j] == x;
      assert h[k][j] in h[k];
    }
  }

  /** Engine 1's table: window key to the single size that followed it. It
      keeps only keys engine 2 has, and its size is the size of every number
      engine 2 stored for the key. */
  function Engine1Db(nums: seq<int>): (db: map<string, Size>)
    ensures db.Keys <= Engine2Model(nums).Keys
    ensures forall k, x :: k in db && x in Engine2Model(nums)[k] ==> SizeOf(x) == db[k]
  {
    var ks, vs, n := WindowKeys(nums), NextNumbers(nums), NumWindows(nums);
    UnanimousSizes(ks, vs, NextSizes(nums), n);
    Unanimous(Group(ks, NextSizes(nums), n))
  }

  /** Engine 2's table: window key to the numbers that followed it. */
  function Engine2Model(nums: seq<int>): (model: map<string, seq<int>>)
    ensures ModelOk(model)
  {
    Group(WindowKeys(nums), NextNumbers(nums), NumWindows(nums))
  }

  /** The list engine 2 stores for a key is never empty. */
  predicate ModelOk(model: map<string, seq<int>>)
  {
    forall k :: k in model ==> model[k] != []
  }

  /** The keys at the window positions are the windows' keys. */
  lemma OccurrenceAt(nums: seq<int>, k: string, i: int)
    ensures IsOccurrence(nums, k, i) <==> 0 <= i < NumWindows(nums) && WindowKeys(nums)[i] == k
  {
  }

  /** After the unanimity filter a key is present exactly when some position
      has it and all its positions carry one label, and it maps to that label. */
  lemma {:induction false} UnanimousGroupSpec(ks: seq<string>, vs: seq<Size>, n: nat, k: string)
    requires n <= |ks| == |vs|
    ensures k in Unanimous(Group(ks, vs, n)) <==>
              (exists i :: 0 <= i < n && ks[i] == k) &&
              (forall i, j :: 0 <= i < n && 0 <= j < n && ks[i] == k && ks[j] == k ==> vs[i] == vs[j])
    ensures k in Unanimous(Group(ks, vs, n)) ==>
              forall i :: 0 <= i < n && ks[i] == k ==> vs[i] == Unanimous(Group(ks, vs, n))[k]
  {
    GroupSpec(ks, vs, n, k);
    var f := Followers(ks, vs, k, n);
    DistinctIsOne(f);
    forall x
      ensures x in f <==> exists i :: 0 <= i < n && ks[i] == k && vs[i] == x
    {
      FollowersMembers(ks, vs, k, n, x);
    }
    if (exists i :: 0 <= i < n && ks[i] == k) &&
       (forall i, j :: 0 <= i < n && 0 <= j < n && ks[i] == k && ks[j] == k ==> vs[i] == vs[j]) {
      var i1 :| 0 <= i1 < n && ks[i1] == k;
      assert vs[i1] in f;
      assert f[0] in f;
      var i0 :| 0 <= i0 < n && ks[i0] == k && vs[i0] == f[0];
      forall x | x in f
        ensures x == f[0]
      {
        var i :| 0 <= i < n && ks[i] == k && vs[i] == x;
      }
    }
    if k in Unanimous(Group(ks, vs, n)) {
      forall i | 0 <= i < n && ks[i] == k
        ensures vs[i] == f[0]
      {
        assert vs[i] in f;
      }
    }
  }

  /** Engine 1 keeps exactly the keys that occur in training and whose every
      occurrence was followed by the same size, and maps each to that size. */
  lemma Engine1DbSpec(nums: seq<int>, k: string)
    ensures k in Engine1Db(nums) <==>
              (exists i :: IsOccurrence(nums, k, i)) &&
              (forall i, j :: IsOccurrence(nums, k, i) && IsOccurrence(nums, k, j) ==>
                 SizeOf(nums[i + Width]) == SizeOf(nums[j + Width]))
    ensures k in Engine1Db(nums) ==>
              forall i :: IsOccurrence(nums, k, i) ==> SizeOf(nums[i + Width]) == Engine1Db(nums)[k]
  {
    var ks, vs, n := WindowKeys(nums), NextSizes(nums), NumWindows(nums);
    UnanimousGroupSpec(ks, vs, n, k);
    forall i
      ensures IsOccurrence(nums, k, i) <==> 0 <= i < n && ks[i] == k
      ensures IsOccurrence(nums, k, i) ==> vs[i] == SizeOf(nums[i + Width])
    {
      OccurrenceAt(nums, k, i);
    }
  }

  /** Engine 2 stores, for every key that occurs, the numbers that followed
      its occurrences, one per occurrence and in occurrence order; every list
      is non-empty. */
  lemma Engine2ModelSpec(nums: seq<int>, k: string)
    ensures k in Engine2Model(nums) <==> exists i :: IsOccurrence(nums, k, i)
    ensures k in Engine2Model(nums) ==>
              var p := Positions(WindowKeys(nums), k, NumWindows(nums));
              && |Engine2Model(nums)[k]| == |p| > 0
              && (forall j :: 0 <= j < |p| ==> p[j] < NumWindows(nums))
              && (forall a, b :: 0 <= a < b < |p| ==> p[a] < p[b])
              && (forall i :: i in p <==> IsOccurrence(nums, k, i))
              && (forall j :: 0 <= j < |p| ==> Engine2Model(nums)[k][j] == nums[p[j] + Width])
  {
    OccurrencesAreKeyPositions(nums, k);
    GroupSpec(WindowKeys(nums), NextNumbers(nums), NumWindows(nums), k);
    if k in Engine2Model(nums) {
      Engine2ModelList(nums, k);
    }
  }

  /** The occurrences of k are the window positions whose key is k. */
  lemma OccurrencesAreKeyPositions(nums: seq<int>, k: string)
    ensures forall i :: IsOccurrence(nums, k, i) <==> 0 <= i < NumWindows(nums) && WindowKeys(nums)[i] == k
  {
    forall i
      ensures IsOccurrence(nums, k, i) <==> 0 <= i < NumWindows(nums) && WindowKeys(nums)[i] == k
    {
      OccurrenceAt(nums, k, i);
    }
  }

  /** The list engine 2 stores for a present key, entry by entry. */
  lemma Engine2ModelList(nums: seq<int>, k: string)
    requires k in Engine2Model(nums)
    ensures var p := Positions(WindowKeys(nums), k, NumWindows(nums));
            && |Engine2Model(nums)[k]| == |p| > 0
            && (forall j :: 0 <= j < |p| ==> p[j] < NumWindows(nums))
            && (forall a, b :: 0 <= a < b < |p| ==> p[a] < p[b])
            && (forall i :: i in p <==> 0 <= i < NumWindows(nums) && WindowKeys(nums)[i] == k)
            && (forall j :: 0 <= j < |p| ==> Engine2Model(nums)[k][j] == nums[p[j] + Width])
  {
    var ks, vs, n := WindowKeys(nums), NextNumbers(nums), NumWindows(nums);
    GroupInOrder(ks, vs, n, k);
  }

  /** One number is stored per window: the lists' lengths add up to the
      number of windows. */
  lemma Engine2ModelTotal(nums: seq<int>)
    ensures TotalLength(Engine2Model(nums)) == NumWindows(nums)
  {
    GroupTotal(WindowKeys(nums), NextNumbers(nums), NumWindows(nums));
  }

  /** The numbers in engine 2's list for a key are exactly the numbers that
      followed an occurrence of the key. */
  lemma Engine2Members(nums: seq<int>, k: string, x: int)
    requires k in Engine2Model(nums)
    ensures x in Engine2Model(nums)[k] <==> exists i :: IsOccurrence(nums, k, i) && nums[i + Width] == x
  {
    if x in Engine2Model(nums)[k] {
      MemberFollowed(nums, k, x);
    } else {
      forall i | IsOccurrence(nums, k, i)
        ensures nums[i + Width] != x
      {
        FollowerIsMember(nums, k, i);
      }
    }
  }

  /** A stored number followed some occurrence of its key. */
  lemma MemberFollowed(nums: seq<int>, k: string, x: int)
    requires k in Engine2Model(nums) && x in Engine2Model(nums)[k]
    ensures exists i :: IsOccurrence(nums, k, i) && nums[i + Width] == x
  {
    var ks, vs, n := WindowKeys(nums), NextNumbers(nums), NumWindows(nums);
    GroupSpec(ks, vs, n, k);
    FollowersMembers(ks, vs, k, n, x);
    var i :| 0 <= i < n && ks[i] == k && vs[i] == x;
    OccurrenceAt(nums, k, i);
    assert vs[i] == nums[i + Width];
  }

  /** The number after an occurrence of a key is stored under that key. */
  lemma FollowerIsMember(nums: seq<int>, k: string, i: int)
    requires IsOccurrence(nums, k, i)
    ensures k in Engine2Model(nums) && nums[i + Width] in Engine2Model(nums)[k]
  {
    var ks, vs, n := WindowKeys(nums), NextNumbers(nums), NumWindows(nums);
    OccurrenceAt(nums, k, i);
    GroupSpec(ks, vs, n, k);
    FollowersMembers(ks, vs, k, n, nums[i + Width]);
    assert vs[i] == nums[i + Width];
  }

  /** Every key of either table is the key of a window of six numbers, hence
      at least six characters long. */
  lemma TableKeysLong(nums: seq<int>, k: string)
    requires k in Engine1Db(nums) || k in Engine2Model(nums)
    ensures |k| >= Width
  {
    Engine1DbSpec(nums, k);
    Engine2ModelSpec(nums, k);
    var i :| IsOccurrence(nums, k, i);
    assert |nums[i..i + Width]| == Width;
  }

  /** With six or fewer training numbers no window exists and both tables
      are empty. */
  lemma SmallTrainingEmpty(nums: seq<int>)
    requires |nums| <= Width
    ensures Engine1Db(nums) == map[] && Engine2Model(nums) == map[]
  {
  }

  // ---------------------------------------------------------------------
  // Training
  // ---------------------------------------------------------------------

  datatype TrainError = MissingNumberColumn

  datatype Engines = Engines(logicDb: map<string, Size>, sequenceModel: map<string, seq<int>>)

  /** Engine 1's training loop: the size of the number after each window
      is appended to the window key's list, then the unanimity filter runs. */
  method TrainLogic(nums: seq<int>) returns (engine1Db: map<string, Size>)
    ensures engine1Db == Engine1Db(nums)
  {
    var sizes := seq(|nums|, i requires 0 <= i < |nums| => SizeOf(nums[i]));
    ghost var ks, vs := WindowKeys(nums), NextSizes(nums);
    var logic: map<string, seq<Size>> := map[];
    for i := 0 to NumWindows(nums)
      invariant logic == Group(ks, vs, i)
    {
      var pat := Key(nums[i..i + Width]);
      var nextVal := sizes[i + Width];
      assert ks[i] == pat && vs[i] == nextVal;
      logic := logic[pat := (if pat in logic then logic[pat] else []) + [nextVal]];
    }
    engine1Db := Unanimous(logic);
  }

  /** Engine 2's training loop: the number after each window is appended to
      the window key's list. */
  method TrainSequence(nums: seq<int>) returns (engine2Model: map<string, seq<int>>)
    ensures engine2Model == Engine2Model(nums)
  {
    ghost var ks, vs := WindowKeys(nums), NextNumbers(nums);
    engine2Model := map[];
    for i := 0 to NumWindows(nums)
      invariant engine2Model == Group(ks, vs, i)
    {
      var pat6 := Key(nums[i..i + Width]);
      var nextNum := nums[i + Width];
      assert ks[i] == pat6 && vs[i] == nextNum;
      engine2Model := engine2Model[pat6 := (if pat6 in engine2Model then engine2Model[pat6] else []) + [nextNum]];
    }
  }

  /** Builds both tables from the cleaned `number` column; fails when the
      upload has no `number` column. */
  method TrainEngines(columns: set<string>, nums: seq<int>) returns (r: Result<Engines, TrainError>)
    ensures "number" !in columns ==> r == Err(MissingNumberColumn)
    ensures "number" in columns ==> r == Ok(Engines(Engine1Db(nums), Engine2Model(nums)))
  {
    if "number" !in columns {
      return Err(MissingNumberColumn);
    }
    var engine1Db := TrainLogic(nums);
    var engine2Model := TrainSequence(nums);
    return Ok(Engines(engine1Db, engine2Model));
  }
}
