/**
 * The compile-time helpers of src/base/mpl.hpp that have run-time meaning: disable_if, and
 * generate_extensions_hierarchy, which folds an ordered list of extension types into a chain of
 * layers TE<T, TT, Base> ending in null_type. Types become values here: a layer is a datatype node.
 */
module Mpl {
  import opened Wrappers

  /** disable_if<Test, T>: names T exactly when Test is false. */
  function DisableIf<T>(test: bool, t: T): (r: Option<T>)
    ensures r.Some? <==> !test
    ensures r.Some? ==> r.value == t
  {
    if test then None else Some(t)
  }

  /** A class chain: TE<ext, tag, base> nodes over null_type. */
  datatype Hierarchy<T, TT> = NullType | Layer(ext: T, tag: TT, base: Hierarchy<T, TT>)

  /** The layers from the most derived (outermost) to the innermost. */
  function Layers<T, TT>(h: Hierarchy<T, TT>): seq<T>
  {
    match h
    case NullType => []
    case Layer(ext, _, base) => [ext] + Layers(base)
  }

  function Depth<T, TT>(h: Hierarchy<T, TT>): nat
  {
    match h
    case NullType => 0
    case Layer(_, _, base) => 1 + Depth(base)
  }

  /** Every layer carries the tag tt. */
  ghost predicate Tagged<T, TT>(h: Hierarchy<T, TT>, tt: TT)
  {
    match h
    case NullType => true
    case Layer(_, tag, base) => tag == tt && Tagged(base, tt)
  }

  /** The layer right above null_type. */
  function Innermost<T, TT>(h: Hierarchy<T, TT>): T
    requires h.Layer?
  {
    if h.base.NullType? then h.ext else Innermost(h.base)
  }

  /** C++ constructs bases first: the innermost layer's constructor runs first, the outermost last. */
  function ConstructionOrder<T, TT>(h: Hierarchy<T, TT>): seq<T>
  {
    match h
    case NullType => []
    case Layer(ext, _, base) => ConstructionOrder(base) + [ext]
  }

  function Reverse<T>(s: seq<T>): (r: seq<T>)
    ensures |r| == |s|
  {
    if s == [] then [] else Reverse(s[1..]) + [s[0]]
  }

  /**
   * The two partial specialisations of generate_extensions_hierarchy: a single type sits on
   * null_type, and T, Rests... puts T over the chain of Rests.
   */
  function Build<T, TT>(tt: TT, exts: seq<T>): (h: Hierarchy<T, TT>)
    requires exts != []
    ensures h.Layer? && h.ext == exts[0] && h.tag == tt
    ensures |exts| == 1 <==> h.base == NullType
  {
    if |exts| == 1 then Layer(exts[0], tt, NullType) else Layer(exts[0], tt, Build(tt, exts[1..]))
  }

  /** generate_extensions_hierarchy_t: the primary template has no definition, so an empty list has no chain. */
  function Generate<T, TT>(tt: TT, exts: seq<T>): (h: Option<Hierarchy<T, TT>>)
    ensures h.None? <==> exts == []
    ensures h.Some? ==> h.value == Build(tt, exts)
  {
    if exts == [] then None else Some(Build(tt, exts))
  }

  /** Declaration order is kept, outermost first. */
  lemma {:induction false} BuildLayers<T, TT>(tt: TT, exts: seq<T>)
    requires exts != []
    ensures Layers(Build(tt, exts)) == exts
  {
    if |exts| > 1 {
      BuildLayers(tt, exts[1..]);
    }
  }

  /** The nesting depth is the length of the list. */
  lemma {:induction false} BuildDepth<T, TT>(tt: TT, exts: seq<T>)
    requires exts != []
    ensures Depth(Build(tt, exts)) == |exts|
  {
    if |exts| > 1 {
      BuildDepth(tt, exts[1..]);
    }
  }

  /** The tag is threaded unchanged into every layer. */
  lemma {:induction false} BuildTagged<T, TT>(tt: TT, exts: seq<T>)
    requires exts != []
    ensures Tagged(Build(tt, exts), tt)
  {
    if |exts| > 1 {
      BuildTagged(tt, exts[1..]);
    }
  }

  /** The last type of the list is the innermost layer. */
  lemma {:induction false} BuildInnermost<T, TT>(tt: TT, exts: seq<T>)
    requires exts != []
    ensures Innermost(Build(tt, exts)) == exts[|exts| - 1]
  {
    if |exts| > 1 {
      BuildInnermost(tt, exts[1..]);
    }
  }

  /** Construction runs the layers in the reverse of their layer order. */
  lemma {:induction false} ConstructionIsReversedLayers<T, TT>(h: Hierarchy<T, TT>)
    ensures ConstructionOrder(h) == Reverse(Layers(h))
  {
    match h
    case NullType =>
    case Layer(ext, _, base) =>
      ConstructionIsReversedLayers(base);
      assert ([ext] + Layers(base))[1..] == Layers(base);
  }

  /** So the chain for a list constructs the last type first and the first type last. */
  lemma BuildConstructionOrder<T, TT>(tt: TT, exts: seq<T>)
    requires exts != []
    ensures ConstructionOrder(Build(tt, exts)) == Reverse(exts)
    ensures ConstructionOrder(Build(tt, exts))[0] == exts[|exts| - 1]
    ensures ConstructionOrder(Build(tt, exts))[|exts| - 1] == exts[0]
  {
    BuildLayers(tt, exts);
    ConstructionIsReversedLayers(Build(tt, exts));
    ReverseEnds(exts);
  }

  lemma {:induction false} ReverseEnds<T>(s: seq<T>)
    requires s != []
    ensures Reverse(s)[0] == s[|s| - 1] && Reverse(s)[|s| - 1] == s[0]
  {
    if |s| > 1 {
      ReverseEnds(s[1..]);
    }
  }

  lemma {:induction false} ReverseAppendLast<T>(s: seq<T>, x: T)
    ensures Reverse(s + [x]) == [x] + Reverse(s)
  {
    if s != [] {
      assert (s + [x])[1..] == s[1..] + [x];
      ReverseAppendLast(s[1..], x);
    }
  }
}
