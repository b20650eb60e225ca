/** Values shared by both prediction engines: the BIG/SMALL size of a number,
    the WIN/LOSS outcome of a round, and the string keys the engines are
    indexed by (the decimal strings of a window's numbers, concatenated). */
module Common {

  datatype Option<+T> = None | Some(value: T)

  datatype Result<+T, +E> = Ok(value: T) | Err(error: E)

  /** The size category of a number. */
  datatype Size = Big | Small

  /** The result of comparing a predicted size with the actual one. */
  datatype Outcome = Win | Loss

  /** One rule is used for the training labels, for engine 2's predicted
      size and for the size of the digit actually entered. */
  function SizeOf(n: int): (s: Size)
    ensures s == Big <==> n >= 5
  {
    if n >= 5 then Big else Small
  }

  /** A round is won exactly when the predicted size is the actual size. */
  function Judge(predicted: Size, actual: Size): (o: Outcome)
    ensures o == Win <==> predicted == actual
  {
    if actual == predicted then Win else Loss
  }

  predicate IsDigits(w: seq<int>)
  {
    forall j :: 0 <= j < |w| ==> 0 <= w[j] <= 9
  }

  function DigitChar(d: int): char
    requires 0 <= d <= 9
  {
    ('0' as int + d) as char
  }

  /** Decimal representation of a natural number, most significant digit first. */
  function NatToString(n: nat): (s: string)
    ensures |s| >= 1
    decreases n
  {
    if n < 10 then [DigitChar(n)] else NatToString(n / 10) + [DigitChar(n % 10)]
  }

  /** The decimal representation of an integer, with a leading minus sign
      for a negative one (what `str` gives for an `int`). */
  function IntToString(n: int): (s: string)
    ensures |s| >= 1
    ensures 0 <= n <= 9 ==> s == [DigitChar(n)]
    ensures |s| == 1 <==> 0 <= n <= 9
  {
    if n < 0 then "-" + NatToString(-n) else NatToString(n)
  }

  /** The key of a window: the strings of its numbers joined with nothing
      between them. Every number contributes at least one character. */
  function Key(w: seq<int>): (k: string)
    ensures |k| >= |w|
  {
    if w == [] then "" else IntToString(w[0]) + Key(w[1..])
  }

  /** For a window of digits the key has one character per digit. */
  lemma {:induction false} KeyOfDigits(w: seq<int>)
    requires IsDigits(w)
    ensures |Key(w)| == |w|
    ensures forall j :: 0 <= j < |w| ==> Key(w)[j] == DigitChar(w[j])
  {
    if w != [] {
      KeyOfDigits(w[1..]);
      assert Key(w) == [DigitChar(w[0])] + Key(w[1..]);
    }
  }

  /** A key with one character per number comes from a window of digits:
      every other number contributes two characters or more. */
  lemma {:induction false} ShortKeyIsDigits(w: seq<int>)
    requires |Key(w)| == |w|
    ensures IsDigits(w)
  {
    if w != [] {
      assert |Key(w)| == |IntToString(w[0])| + |Key(w[1..])|;
      ShortKeyIsDigits(w[1..]);
      forall j | 0 <= j < |w|
        ensures 0 <= w[j] <= 9
      {
        if j > 0 {
          assert w[j] == w[1..][j - 1];
        }
      }
    }
  }

  /** On windows of digits the key determines the window. */
  lemma KeyInjective(v: seq<int>, w: seq<int>)
    requires IsDigits(v) && IsDigits(w)
    ensures Key(v) == Key(w) <==> v == w
  {
    if Key(v) == Key(w) {
      KeyOfDigits(v);
      KeyOfDigits(w);
      forall j | 0 <= j < |v|
        ensures v[j] == w[j]
      {
        assert DigitChar(v[j]) == DigitChar(w[j]);
      }
    }
  }

  /** The key of two windows placed end to end is the two keys joined. */
  lemma {:induction false} KeyConcat(v: seq<int>, w: seq<int>)
    ensures Key(v + w) == Key(v) + Key(w)
  {
    if v == [] {
      assert v + w == w;
    } else {
      KeyConcat(v[1..], w);
      KeyConsStep(v, w);
    }
  }

  lemma ConcatAssoc(a: string, b: string, c: string)
    ensures a + (b + c) == (a + b) + c
  {
  }

  /** Unfolding the key of v + w once, for a non-empty v. */
  lemma KeyUnfold(v: seq<int>, w: seq<int>)
    requires v != []
    ensures Key(v + w) == IntToString(v[0]) + Key(v[1..] + w)
  {
    assert (v + w)[0] == v[0] && (v + w)[1..] == v[1..] + w;
  }

  /** The inductive step of KeyConcat: the first number of v contributes its
      string in front of both sides. */
  lemma KeyConsStep(v: seq<int>, w: seq<int>)
    requires v != []
    requires Key(v[1..] + w) == Key(v[1..]) + Key(w)
    ensures Key(v + w) == Key(v) + Key(w)
  {
    KeyUnfold(v, w);
    ConcatAssoc(IntToString(v[0]), Key(v[1..]), Key(w));
  }

  /** Once a number has more than one digit, two different windows can share
      a key: [1,2,3,4,5,67] and [12,3,4,5,6,7] both give "1234567". */
  lemma KeyAmbiguous()
    ensures Key([1, 2, 3, 4, 5, 67]) == Key([12, 3, 4, 5, 6, 7])
    ensures [1, 2, 3, 4, 5, 67] != [12, 3, 4, 5, 6, 7]
  {
    var v, w := [1, 2, 3, 4, 5, 67], [12, 3, 4, 5, 6, 7];
    var digits := [1, 2, 3, 4, 5, 6, 7];
    assert Key([67]) == Key([6, 7]) by {
      assert NatToString(67) == NatToString(6) + [DigitChar(7)];
    }
    assert Key([12]) == Key([1, 2]) by {
      assert NatToString(12) == NatToString(1) + [DigitChar(2)];
    }
    assert v == [1, 2, 3, 4, 5] + [67] && w == [12] + [3, 4, 5, 6, 7];
    assert digits == [1, 2, 3, 4, 5] + [6, 7] && digits == [1, 2] + [3, 4, 5, 6, 7];
    KeyConcat([1, 2, 3, 4, 5], [67]);
    KeyConcat([1, 2, 3, 4, 5], [6, 7]);
    KeyConcat([12], [3, 4, 5, 6, 7]);
    KeyConcat([1, 2], [3, 4, 5, 6, 7]);
  }
}
