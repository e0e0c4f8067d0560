/**
 * Reversal of a series. The source writes into a fresh zero-filled slice of
 * the same length, swapping from both ends inwards while the left index is
 * below the right one, so the middle slot of an odd-length series is never
 * written and keeps the value 0.
 */
module Series {

  /** What the swap loop produces: element k is element n-1-k of the input,
      except a lone middle element, which is 0. */
  function Reversed(s: seq<real>): (r: seq<real>)
  {
    seq(|s|, k requires 0 <= k < |s| => if 2 * k + 1 == |s| then 0.0 else s[|s| - 1 - k])
  }

  /** Reversing the empty series gives the empty series; a one-element
      series reverses to [0], whatever its element. */
  lemma ReversedShort(x: real)
    ensures Reversed([]) == []
    ensures Reversed([x]) == [0.0]
  {
  }

  /** The first element of the reversal is the last element of the input
      once the series has at least two elements. */
  lemma ReversedFirst(s: seq<real>)
    requires |s| >= 2
    ensures Reversed(s)[0] == s[|s| - 1]
  {
  }

  /** Reversing twice gives the series back when there is no middle element
      or the middle element already was 0. */
  lemma ReversedTwiceRestores(s: seq<real>)
    requires |s| % 2 == 0 || s[|s| / 2] == 0.0
    ensures Reversed(Reversed(s)) == s
  {
    var n := |s|;
    var rr := Reversed(Reversed(s));
    forall k | 0 <= k < n ensures rr[k] == s[k] {
      if 2 * k + 1 == n {
        assert k == n / 2;
      }
    }
  }

  /** Otherwise the middle element is lost: reversal is not an involution. */
  lemma ReversedTwiceLosesMiddle(s: seq<real>)
    requires |s| % 2 == 1 && s[|s| / 2] != 0.0
    ensures Reversed(Reversed(s)) != s
  {
    var m := |s| / 2;
    assert 2 * m + 1 == |s|;
    assert Reversed(Reversed(s))[m] == 0.0;
  }

  /**
   * The source's `reverse`: a fresh zero-filled buffer of the input's length,
   * filled by swapping elements from both ends while i < j.
   */
  method Reverse(numbers: seq<real>) returns (r: seq<real>)
    ensures |r| == |numbers|
    ensures forall k :: 0 <= k < |r| && 2 * k + 1 != |r| ==> r[k] == numbers[|r| - 1 - k]
    ensures |r| % 2 == 1 ==> r[|r| / 2] == 0.0
    ensures r == Reversed(numbers)
  {
    var n := |numbers|;
    var a := new real[n](_ => 0.0);
    var i, j := 0, n - 1;
    while i < j
      invariant 0 <= i <= j + 1 <= n && i + j == n - 1
      invariant forall k :: 0 <= k < i ==> a[k] == numbers[n - 1 - k] && a[n - 1 - k] == numbers[k]
      invariant forall k :: i <= k <= j ==> a[k] == 0.0
    {
      a[i], a[j] := numbers[j], numbers[i];
      i, j := i + 1, j - 1;
    }
    r := a[..];
  }
}
