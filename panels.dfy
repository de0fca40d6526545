/**
 * The panel switcher's pure part: which navigation buttons are active (and
 * which panels displayed) after switching to a panel index, and which editor
 * is asked to recompute its layout.
 */
module Panels {

  /** The three editing surfaces, in the order of their panels. */
  datatype Editor = Html | Css | Js {
    /** The panel index the editor sits on. */
    function Index(): nat
    {
      match this
      case Html => 0
      case Css => 1
      case Js => 2
    }
  }

  /** The panel holding the combined preview. */
  const PreviewPanel: int := 3

  /**
   * Flags of `n` elements after switching to `index`: element `k` is set
   * (button active, panel displayed) iff `k == index`.
   */
  function Selection(n: nat, index: int): seq<bool>
  {
    seq(n, k => k == index)
  }

  /** Number of set flags. */
  function CountTrue(flags: seq<bool>): nat
  {
    if flags == [] then 0
    else CountTrue(flags[..|flags| - 1]) + if flags[|flags| - 1] then 1 else 0
  }

  /**
   * After a switch to an index in range exactly one flag is set, the one at
   * that index; after a switch out of range none is.
   */
  lemma {:induction false} ExactlyOneSelected(n: nat, index: int)
    ensures CountTrue(Selection(n, index)) == if 0 <= index < n then 1 else 0
    ensures 0 <= index < n ==> Selection(n, index)[index]
  {
    if n > 0 {
      ExactlyOneSelected(n - 1, index);
      assert Selection(n, index)[..n - 1] == Selection(n - 1, index);
    }
  }

  /** The resize requests a switch to `index` issues: at most one, to the editor on that panel. */
  function Resized(index: int): (r: seq<Editor>)
    ensures |r| <= 1
    ensures |r| == 1 <==> 0 <= index <= 2
    ensures forall e :: e in r ==> e.Index() == index
  {
    if index == 0 then [Html]
    else if index == 1 then [Css]
    else if index == 2 then [Js]
    else []
  }
}
