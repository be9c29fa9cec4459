/** `calculate_max_line_len` in src/app/utils/math.rs. */
module MathUtils {

  /** The longest length among the lines of a non-empty list. */
  function MaxLen(ls: seq<string>): (r: nat)
    requires ls != []
    ensures forall i :: 0 <= i < |ls| ==> |ls[i]| <= r
    ensures exists i :: 0 <= i < |ls| && r == |ls[i]|
  {
    if |ls| == 1 then |ls[0]|
    else
      var m := MaxLen(ls[1..]);
      assert forall i :: 1 <= i < |ls| ==> ls[i] == ls[1..][i - 1];
      if |ls[0]| >= m then |ls[0]| else m
  }

  /**
   * The character count of the longest line, or 1 when there are no lines at
   * all (`max().unwrap_or(1)`): a list of empty lines gives 0, not 1.
   */
  function CalculateMaxLineLen(ls: seq<string>): (r: nat)
    ensures ls == [] ==> r == 1
    ensures forall i :: 0 <= i < |ls| ==> |ls[i]| <= r
    ensures ls != [] ==> exists i :: 0 <= i < |ls| && r == |ls[i]|
    ensures ls != [] && (forall i :: 0 <= i < |ls| ==> ls[i] == "") ==> r == 0
  {
    if ls == [] then 1 else MaxLen(ls)
  }
}
