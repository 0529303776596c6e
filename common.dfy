/** Shared vocabulary: the Python exceptions the core can raise, a Result type
    that carries them, and the running sum used for means and averages. */
module Common {

  /** The exceptions of the modelled Python code that the model keeps. */
  datatype Error =
    | IndexError         // list index out of range
    | AxisError          // np.moveaxis on a rank-0 array
    | ValueError         // tuple unpacking of the wrong arity, or a bad DataLoader batch size
    | KeyError           // dictionary lookup of a missing key
    | ZeroDivisionError  // a cosine schedule of length 0 taking a step

  datatype Option<+T> = None | Some(value: T)

  datatype Result<+T> = Ok(value: T) | Err(error: Error)

  /** Python's list indexing: a non-negative index counts from the front and a
      negative one from the back; anything else raises IndexError. */
  function PyIndex(n: nat, i: int): (k: Option<nat>)
    ensures k.Some? <==> -(n as int) <= i < n
    ensures k.Some? ==> k.value < n && (k.value - i) % n == 0
  {
    if 0 <= i < n then Some(i)
    else if -(n as int) <= i < 0 then Some(n + i)
    else None
  }

  /** The sum of a sequence of reals, folded from the back. */
  function Sum(s: seq<real>): real
  {
    if s == [] then 0.0 else Sum(s[..|s| - 1]) + s[|s| - 1]
  }

  /** Every element at most b: the sum is at most b times the length. */
  lemma {:induction false} SumAtMost(s: seq<real>, b: real)
    requires forall k :: 0 <= k < |s| ==> s[k] <= b
    ensures Sum(s) <= b * |s| as real
    decreases |s|
  {
    if s != [] {
      var init := s[..|s| - 1];
      assert forall k :: 0 <= k < |init| ==> init[k] == s[k];
      SumAtMost(init, b);
    }
  }

  /** Every element above b in a non-empty sequence: the sum exceeds b times the length. */
  lemma {:induction false} SumAbove(s: seq<real>, b: real)
    requires |s| > 0
    requires forall k :: 0 <= k < |s| ==> s[k] > b
    ensures Sum(s) > b * |s| as real
    decreases |s|
  {
    var init := s[..|s| - 1];
    if init != [] {
      assert forall k :: 0 <= k < |init| ==> init[k] == s[k];
      SumAbove(init, b);
    }
  }
}
