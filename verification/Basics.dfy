/** Option and Result, and facts about sequences used by several modules. */
module Basics {

  datatype Option<+T> = None | Some(value: T)

  datatype Result<+T, +E> = Ok(value: T) | Err(error: E)

  type u16 = n: nat | n < 0x1_0000

  type u32 = n: nat | n < 0x1_0000_0000

  /** `f` applied to every element; `None` as soon as one element has no image. */
  function CollectSome<A, B>(xs: seq<A>, f: A -> Option<B>): Option<seq<B>> {
    if xs == [] then Some([])
    else
      match f(xs[0])
      case None => None
      case Some(y) =>
        match CollectSome(xs[1..], f)
        case None => None
        case Some(ys) => Some([y] + ys)
  }

  lemma {:induction false} CollectSomeElements<A, B>(xs: seq<A>, f: A -> Option<B>)
    ensures CollectSome(xs, f).Some? <==> forall i :: 0 <= i < |xs| ==> f(xs[i]).Some?
    ensures var r := CollectSome(xs, f);
            r.Some? ==> |r.value| == |xs| && forall i :: 0 <= i < |xs| ==> f(xs[i]) == Some(r.value[i])
    decreases xs
  {
    if xs != [] {
      CollectSomeElements(xs[1..], f);
      assert forall i :: 1 <= i < |xs| ==> xs[i] == xs[1..][i - 1];
    }
  }

  /** Appending one element to the list that is collected. */
  lemma {:induction false} CollectSnoc<A, B>(xs: seq<A>, x: A, f: A -> Option<B>)
    ensures CollectSome(xs + [x], f) ==
            if CollectSome(xs, f).None? || f(x).None? then None
            else Some(CollectSome(xs, f).value + [f(x).value])
    decreases xs
  {
    if xs == [] {
      assert [] + [x] == [x];
      assert [x][1..] == [];
      if f(x).Some? {
        var v := f(x).value;
        assert CollectSome([x], f) == Some([v] + []);
        assert [v] + [] == [] + [v];
      }
    } else {
      assert (xs + [x])[1..] == xs[1..] + [x];
      CollectSnoc(xs[1..], x, f);
      if CollectSome(xs, f).Some? && f(x).Some? {
        var tail := CollectSome(xs[1..], f).value;
        assert CollectSome(xs, f) == Some([f(xs[0]).value] + tail);
        assert [f(xs[0]).value] + (tail + [f(x).value]) == ([f(xs[0]).value] + tail) + [f(x).value];
      }
    }
  }

  /** The elements of `xs` that satisfy `p`, in order. */
  function Keep<T>(xs: seq<T>, p: T -> bool): seq<T> {
    if xs == [] then [] else (if p(xs[0]) then [xs[0]] else []) + Keep(xs[1..], p)
  }

  lemma {:induction false} KeepElements<T>(xs: seq<T>, p: T -> bool)
    ensures forall x :: x in Keep(xs, p) ==> x in xs && p(x)
    ensures forall x :: x in xs && p(x) ==> x in Keep(xs, p)
    ensures |Keep(xs, p)| <= |xs|
    decreases xs
  {
    if xs != [] {
      KeepElements(xs[1..], p);
      assert forall x :: x in xs <==> x == xs[0] || x in xs[1..];
    }
  }

  lemma KeepStep<T>(xs: seq<T>, p: T -> bool)
    requires xs != []
    ensures Keep(xs, p) == (if p(xs[0]) then [xs[0]] else []) + Keep(xs[1..], p)
  {
  }

  lemma {:induction false} KeepAppend<T>(xs: seq<T>, ys: seq<T>, p: T -> bool)
    ensures Keep(xs + ys, p) == Keep(xs, p) + Keep(ys, p)
    decreases xs
  {
    if xs == [] {
      assert xs + ys == ys;
    } else {
      hide Keep;
      assert (xs + ys)[0] == xs[0] && (xs + ys)[1..] == xs[1..] + ys;
      KeepStep(xs, p);
      KeepStep(xs + ys, p);
      KeepAppend(xs[1..], ys, p);
    }
  }

  /** `f` applied to every element, in order. */
  function Map<A, B>(xs: seq<A>, f: A -> B): (r: seq<B>)
    ensures |r| == |xs| && forall i :: 0 <= i < |xs| ==> r[i] == f(xs[i])
  {
    seq(|xs|, i requires 0 <= i < |xs| => f(xs[i]))
  }
}
