/**
 * The list helpers. A JavaScript array is a growable object shared by
 * reference, so it is a class whose contents the helpers read and append
 * to in place.
 */
module ArrayUtil {

  class JsArray<T> {
    var elems: seq<T>

    constructor (init: seq<T>)
      ensures elems == init
    {
      elems := init;
    }

    /** `push`: one element at the end. */
    method Push(x: T)
      modifies this
      ensures elems == old(elems) + [x]
    {
      elems := elems + [x];
    }
  }

  /**
   * `pushAll(src, dst)`: appends the elements `src` had when the call began
   * to `dst`, in order. `forEach` fixes its range before the first step, so
   * the result is the same when `src` and `dst` are one array (which then
   * ends up doubled); otherwise `src` is left as it was.
   */
  method PushAll<T>(src: JsArray<T>, dst: JsArray<T>)
    modifies dst
    ensures dst.elems == old(dst.elems) + old(src.elems)
    ensures src != dst ==> src.elems == old(src.elems)
    ensures src == dst ==> dst.elems == old(src.elems) + old(src.elems)
  {
    var n := |src.elems|;
    ghost var s0 := src.elems;
    ghost var d0 := dst.elems;
    var i := 0;
    while i < n
      invariant 0 <= i <= n
      invariant dst.elems == d0 + s0[..i]
      invariant n <= |src.elems| && src.elems[..n] == s0
      invariant src != dst ==> src.elems == s0
    {
      assert src.elems[i] == s0[i];
      dst.Push(src.elems[i]);
      assert s0[..i + 1] == s0[..i] + [s0[i]];
      i := i + 1;
    }
    assert s0[..n] == s0;
  }

  /** `toHTMLElements`: a new array holding the input's elements in order; the input is only read. */
  method ToHTMLElements<T>(items: JsArray<T>) returns (result: JsArray<T>)
    ensures fresh(result)
    ensures result.elems == items.elems
  {
    result := new JsArray([]);
    var i := 0;
    while i < |items.elems|
      invariant 0 <= i <= |items.elems|
      invariant result.elems == items.elems[..i]
    {
      result.Push(items.elems[i]);
      assert items.elems[..i + 1] == items.elems[..i] + [items.elems[i]];
      i := i + 1;
    }
    assert items.elems[..i] == items.elems;
  }
}
