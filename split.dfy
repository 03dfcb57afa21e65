/** The per-class train/validation assignment driven by a decrementing
    counter. */
module Splitting {
  import opened Numeric

  datatype Split = Train | Val

  /** The counter's start value: `(int)(imageCount * percentage)`. */
  function TestCount(n: nat, percentage: real): (t: int)
    ensures TruncOf(n as real * percentage, t)
  {
    Trunc(n as real * percentage)
  }

  /** For a fraction in `[0, 1]` the counter starts at a number of images of
      the class. */
  lemma TestCountRange(n: nat, percentage: real)
    requires 0.0 <= percentage <= 1.0
    ensures 0 <= TestCount(n, percentage) <= n
  {
    assert 0.0 <= n as real * percentage <= n as real * 1.0;
  }

  /** The assignment the counter produces for `n` images when it starts at
      `counter`: an image goes to validation while the counter is positive,
      and the counter goes down by one per image. */
  function Assign(n: nat, counter: int): (s: seq<Split>)
    ensures |s| == n
  {
    if n == 0 then [] else [if counter <= 0 then Train else Val] + Assign(n - 1, counter - 1)
  }

  /** Image `j` goes to validation exactly when `j` is below the counter's start. */
  lemma {:induction false} AssignAt(n: nat, t: int, j: nat)
    requires j < n
    ensures Assign(n, t)[j] == Val <==> j < t
  {
    if j > 0 {
      AssignAt(n - 1, t - 1, j - 1);
    }
  }

  /** The number of validation images: `max(0, min(t, n))`. */
  function ValCount(n: nat, t: int): (v: nat)
    ensures v <= n
    ensures t <= 0 ==> v == 0
    ensures t >= n ==> v == n
    ensures 0 <= t <= n ==> v == t
  {
    if t <= 0 then 0 else if t >= n then n else t
  }

  /** The assignment is the first `ValCount(n, t)` images to validation and all
      later ones to training; a counter that starts at 0 or below sends every
      image to training. */
  lemma AssignClosedForm(n: nat, t: int)
    ensures Assign(n, t) == seq(ValCount(n, t), _ => Val) + seq(n - ValCount(n, t), _ => Train)
  {
    var v := ValCount(n, t);
    var closed := seq(v, _ => Val) + seq(n - v, _ => Train);
    forall j | 0 <= j < n
      ensures Assign(n, t)[j] == closed[j]
    {
      AssignAt(n, t, j);
    }
  }

  /** Ten images with a validation fraction of 0.2: two validation images,
      then eight training images. */
  lemma TenImagesSplit()
    ensures Assign(10, TestCount(10, 0.2)) == [Val, Val, Train, Train, Train, Train, Train, Train, Train, Train]
  {
    assert TestCount(10, 0.2) == 2;
    AssignClosedForm(10, 2);
  }
}
