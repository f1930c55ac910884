/**
 * Generic sequence operations: element-wise conversion and its partial
 * inverse, and the bounded list the simulator keeps of recent values
 * (`list.append(x)` followed by `list.pop(0)` when the list grew past its cap).
 */
module Sequences {
  import opened Common

  /** Applies `f` to every element, keeping the order. */
  function Map<A, B>(f: A -> B, s: seq<A>): (r: seq<B>)
    ensures |r| == |s|
    ensures forall i :: 0 <= i < |s| ==> r[i] == f(s[i])
  {
    if s == [] then [] else Map(f, s[..|s| - 1]) + [f(s[|s| - 1])]
  }

  /** Applies the partial `g` to every element; fails if it fails on any element. */
  function TryMap<A, B>(g: A -> Option<B>, s: seq<A>): (r: Option<seq<B>>)
    ensures r.Some? <==> forall i :: 0 <= i < |s| ==> g(s[i]).Some?
    ensures r.Some? ==> |r.value| == |s| && forall i :: 0 <= i < |s| ==> g(s[i]) == Some(r.value[i])
  {
    if s == [] then Some([])
    else
      match TryMap(g, s[..|s| - 1])
      case None => None
      case Some(bs) =>
        match g(s[|s| - 1])
        case None => None
        case Some(b) => Some(bs + [b])
  }

  /** When `g` undoes `f` element by element, it undoes `Map(f, _)` on whole sequences. */
  lemma {:induction false} MapThenTryMap<A, B>(f: A -> B, g: B -> Option<A>, s: seq<A>)
    requires forall x :: g(f(x)) == Some(x)
    ensures TryMap(g, Map(f, s)) == Some(s)
  {
    if s != [] {
      var init := s[..|s| - 1];
      MapThenTryMap(f, g, init);
      assert Map(f, s)[..|s| - 1] == Map(f, init);
      assert init + [s[|s| - 1]] == s;
    }
  }

  /**
   * Appends `x` and, if the list then holds more than `cap` entries, drops
   * the oldest one.
   */
  function AppendBounded<T>(s: seq<T>, x: T, cap: nat): (r: seq<T>)
    ensures |s| <= cap ==> |r| <= cap
    ensures |r| == |s| || |r| == |s| + 1
  {
    var t := s + [x];
    if |t| > cap then t[1..] else t
  }

  /**
   * The bounded list is a suffix of the extended list: what is lost is the
   * oldest entry.
   */
  lemma AppendBoundedDropsOldest<T>(s: seq<T>, x: T, cap: nat)
    ensures var r := AppendBounded(s, x, cap);
            r == (s + [x])[|s| + 1 - |r|..]
  {
  }

  /** The newest `cap` entries of `xs`, oldest first. */
  function Window<T>(xs: seq<T>, cap: nat): (w: seq<T>)
    ensures |w| == if |xs| < cap then |xs| else cap
  {
    if |xs| <= cap then xs else xs[|xs| - cap..]
  }

  /** A window is the suffix of its length: the newest entries, in their order. */
  lemma WindowIsSuffix<T>(xs: seq<T>, cap: nat)
    ensures var w := Window(xs, cap);
            w == xs[|xs| - |w|..] && forall i :: 0 <= i < |w| ==> w[i] == xs[|xs| - |w| + i]
  {
  }

  /** Appending to a window of the history gives the window of the extended history. */
  lemma WindowStep<T>(xs: seq<T>, x: T, cap: nat)
    ensures AppendBounded(Window(xs, cap), x, cap) == Window(xs + [x], cap)
  {
    var w := Window(xs, cap);
    var ys := xs + [x];
    if |xs| < cap {
      assert w + [x] == ys;
    } else {
      assert w + [x] == ys[|ys| - cap - 1..];
    }
  }

  /** Feeds `xs` one by one into a bounded list that starts as `s`. */
  function AppendAllBounded<T>(s: seq<T>, xs: seq<T>, cap: nat): seq<T> {
    if xs == [] then s else AppendBounded(AppendAllBounded(s, xs[..|xs| - 1], cap), xs[|xs| - 1], cap)
  }

  /**
   * A bounded list that starts empty holds exactly the newest `cap` values
   * ever appended, oldest first: it drops oldest-first and never grows past
   * `cap`.
   */
  lemma {:induction false} BoundedKeepsNewest<T>(xs: seq<T>, cap: nat)
    ensures AppendAllBounded([], xs, cap) == Window(xs, cap)
    ensures |AppendAllBounded([], xs, cap)| <= cap
  {
    if xs != [] {
      var init, x := xs[..|xs| - 1], xs[|xs| - 1];
      assert init + [x] == xs;
      BoundedKeepsNewest(init, cap);
      calc {
        AppendAllBounded([], xs, cap);
        AppendBounded(AppendAllBounded([], init, cap), x, cap);
        AppendBounded(Window(init, cap), x, cap);
        { WindowStep(init, x, cap); }
        Window(xs, cap);
      }
    }
  }

  /** A slice that lies within the first part of a concatenation is a slice of that part. */
  lemma SliceOfAppendLeft<T>(a: seq<T>, b: seq<T>, lo: nat, hi: nat)
    requires lo <= hi <= |a|
    ensures (a + b)[lo..hi] == a[lo..hi]
  {
  }

  /** The slice that covers exactly the second part of a concatenation is that part. */
  lemma SliceOfAppendRight<T>(a: seq<T>, b: seq<T>)
    ensures (a + b)[|a|..|a| + |b|] == b
  {
  }
}
