/**
 * The text the formatter produces, as pure functions: `Render` for one value
 * and `Line` for one call of the variadic `print`.
 */
module Rendering {
  import opened Classifier
  import opened Joins

  /** What the fallback overload writes for a value it cannot show. */
  const OpaqueText: string := "[[X]]"

  /** Written between the elements of a container, a pair or a tuple. */
  const ItemSeparator: string := ", "

  /** Written between the top-level arguments of `print`. */
  const ArgumentSeparator: string := " "

  /**
   * The values whose rendering is defined. The iterator overload writes the
   * first element and then increments the iterator once before comparing it
   * with `end()`, so on an empty container it steps past the end: every
   * container that dispatch reaches must be non-empty. The tuple
   * specialisation names element 0 under an ordinary `if`, so a tuple of
   * arity 0 does not compile: every tuple reached must be non-empty too. A
   * value written by stream insertion is never traversed, so its elements
   * impose nothing.
   */
  predicate Renderable(v: Value)
    decreases v
  {
    match v
    case Plain(_, _, _, es) =>
      StrategyOf(v) == Container ==> es != [] && AllRenderable(es)
    case Pair(a, b) => Renderable(a) && Renderable(b)
    case Tuple(items) => items != [] && AllRenderable(items)
  }

  predicate AllRenderable(vs: seq<Value>)
    decreases vs
  {
    forall i :: 0 <= i < |vs| ==> Renderable(vs[i])
  }

  /** The text written for one value, through the same dispatch at every depth. */
  function Render(v: Value): (r: string)
    requires Renderable(v)
    decreases v
  {
    match v
    case Plain(_, text, _, es) =>
      (match StrategyOf(v)
       case Direct => text
       case Opaque => OpaqueText
       case Container => "{" + Join(ItemSeparator, RenderEach(es)) + "}")
    case Pair(a, b) => "(" + Render(a) + ItemSeparator + Render(b) + ")"
    case Tuple(items) => "(" + Join(ItemSeparator, RenderEach(items)) + ")"
  }

  /** The renderings of `vs`, one per value, in order. */
  function RenderEach(vs: seq<Value>): (r: seq<string>)
    requires AllRenderable(vs)
    ensures |r| == |vs|
    ensures forall i :: 0 <= i < |vs| ==> r[i] == Render(vs[i])
    decreases vs
  {
    seq(|vs|, i requires 0 <= i < |vs| => Render(vs[i]))
  }

  /** The text one call of `print` writes: the arguments joined by spaces, then a newline. */
  function Line(args: seq<Value>): (r: string)
    requires args != [] && AllRenderable(args)
  {
    Join(ArgumentSeparator, RenderEach(args)) + "\n"
  }

  /** Rendering a suffix of the values gives the corresponding suffix of renderings. */
  lemma RenderEachDrop(vs: seq<Value>, k: nat)
    requires AllRenderable(vs) && k <= |vs|
    ensures AllRenderable(vs[k..])
    ensures RenderEach(vs[k..]) == RenderEach(vs)[k..]
  {
  }

  /** Rendering one more value appends its rendering. */
  lemma RenderEachSnoc(vs: seq<Value>, v: Value)
    requires AllRenderable(vs) && Renderable(v)
    ensures AllRenderable(vs + [v])
    ensures RenderEach(vs + [v]) == RenderEach(vs) + [Render(v)]
  {
    assert forall i :: 0 <= i < |vs| ==> (vs + [v])[i] == vs[i];
  }

  /** Widening a slice by one position appends the element at that position. */
  lemma SliceExtend(vs: seq<Value>, i: nat, j: nat)
    requires i <= j < |vs|
    ensures vs[i..j + 1] == vs[i..j] + [vs[j]]
  {
  }

  /** Rendering one more element of `vs` adds one separator and its rendering. */
  lemma PrefixedStep(vs: seq<Value>, i: nat)
    requires AllRenderable(vs) && 1 <= i < |vs|
    ensures AllRenderable(vs[1..i]) && AllRenderable(vs[1..i + 1])
    ensures Prefixed(ItemSeparator, RenderEach(vs[1..i + 1]))
         == Prefixed(ItemSeparator, RenderEach(vs[1..i])) + ItemSeparator + Render(vs[i])
  {
    SliceExtend(vs, 1, i);
    RenderEachSnoc(vs[1..i], vs[i]);
    PrefixedSnoc(ItemSeparator, RenderEach(vs[1..i]), Render(vs[i]));
  }

  /**
   * A value with stream insertion is written as its own text, whether or not
   * it is also iterable and whatever its elements are.
   */
  lemma DirectWinsOverIteration(text: string, hasBeginEnd: bool, es: seq<Value>)
    ensures Renderable(Plain(true, text, hasBeginEnd, es))
    ensures Render(Plain(true, text, hasBeginEnd, es)) == text
  {
  }

  /** A value with neither capability is written as the five characters `[[X]]`. */
  lemma OpaqueOutput(text: string, es: seq<Value>)
    ensures Renderable(Plain(false, text, false, es))
    ensures Render(Plain(false, text, false, es)) == "[[X]]"
    ensures |Render(Plain(false, text, false, es))| == 5
  {
  }

  /** An iterable value without stream insertion and without elements has no defined rendering. */
  lemma EmptyContainerUndefined(text: string)
    ensures !Renderable(Plain(false, text, true, []))
  {
  }

  /**
   * A container is written as `{`, its first element, then `, ` and each
   * later element in iteration order, then `}`; each element rendered by the
   * same dispatch.
   */
  lemma ContainerOutput(v: Value)
    requires v.Plain? && ContainerEnabled(v.hasStreamInsert, v.hasBeginEnd)
    requires Renderable(v)
    ensures v.elements != [] && AllRenderable(v.elements)
    ensures Render(v) == "{" + Render(v.elements[0])
                           + Prefixed(ItemSeparator, RenderEach(v.elements[1..])) + "}"
  {
    var rs := RenderEach(v.elements);
    JoinIsFirstThenPrefixed(ItemSeparator, rs);
    RenderEachDrop(v.elements, 1);
  }

  /** A pair is written as `(`, its first member, `, `, its second member, `)`. */
  lemma PairOutput(a: Value, b: Value)
    requires Renderable(a) && Renderable(b)
    ensures Renderable(Pair(a, b))
    ensures Render(Pair(a, b)) == "(" + Render(a) + ", " + Render(b) + ")"
  {
  }

  /** A pair is written exactly as the tuple of its two members. */
  lemma PairAsTuple(a: Value, b: Value)
    requires Renderable(a) && Renderable(b)
    ensures Renderable(Pair(a, b)) && Renderable(Tuple([a, b]))
    ensures Render(Pair(a, b)) == Render(Tuple([a, b]))
  {
    var items := [a, b];
    assert AllRenderable(items);
    TupleOutput(items);
    assert items[1..] == [b];
    assert Prefixed(ItemSeparator, RenderEach([b])) == ItemSeparator + Render(b);
    AppendAssociative("(" + Render(a), ItemSeparator, Render(b));
  }

  /**
   * A tuple is written as `(`, its elements in index order with `, ` between
   * consecutive ones, `)`: element 0 first, then `, ` before each later one.
   */
  lemma TupleOutput(items: seq<Value>)
    requires items != [] && AllRenderable(items)
    ensures Renderable(Tuple(items))
    ensures Render(Tuple(items)) == "(" + Render(items[0]) + Prefixed(ItemSeparator, RenderEach(items[1..])) + ")"
  {
    JoinIsFirstThenPrefixed(ItemSeparator, RenderEach(items));
    RenderEachDrop(items, 1);
  }

  /**
   * A tuple of arity 0 has no defined rendering: the tuple specialisation
   * asks for element 0 of it, which does not compile.
   */
  lemma EmptyTupleUndefined()
    ensures !Renderable(Tuple([]))
  {
  }

  /** A one-element tuple has no trailing separator. */
  lemma SingletonTupleOutput(e: Value)
    requires Renderable(e)
    ensures Renderable(Tuple([e]))
    ensures Render(Tuple([e])) == "(" + Render(e) + ")"
  {
  }

  /**
   * One call of `print` writes the first argument, then a space and each
   * later argument, then a newline.
   */
  lemma LineOutput(args: seq<Value>)
    requires args != [] && AllRenderable(args)
    ensures Line(args) == Render(args[0]) + Prefixed(" ", RenderEach(args[1..])) + "\n"
  {
    JoinIsFirstThenPrefixed(ArgumentSeparator, RenderEach(args));
    RenderEachDrop(args, 1);
  }

  /**
   * The variadic recursion: a line of two or more arguments is the first
   * argument, a space, and the line of the remaining arguments.
   */
  lemma LineRecursion(args: seq<Value>)
    requires |args| > 1 && AllRenderable(args)
    ensures AllRenderable(args[1..])
    ensures Line(args) == Render(args[0]) + " " + Line(args[1..])
  {
    var rs := RenderEach(args);
    RenderEachDrop(args, 1);
    assert Join(ArgumentSeparator, rs) == rs[0] + ArgumentSeparator + Join(ArgumentSeparator, rs[1..]);
  }

  /**
   * A line is as long as its renderings plus one space between each two
   * arguments and the newline: no leading and no trailing space.
   */
  lemma LineLength(args: seq<Value>)
    requires args != [] && AllRenderable(args)
    ensures |Line(args)| == TotalLength(RenderEach(args)) + |args|
    ensures Line(args)[|Line(args)| - 1] == '\n'
  {
    JoinLength(ArgumentSeparator, RenderEach(args));
  }

  /** A single argument is written followed by the newline alone. */
  lemma SingleArgumentLine(v: Value)
    requires Renderable(v)
    ensures AllRenderable([v])
    ensures Line([v]) == Render(v) + "\n"
  {
  }
}
