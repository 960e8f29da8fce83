/**
 * The values the formatter is given, and the choice of rendering strategy
 * for a value that is neither a pair nor a tuple.
 *
 * The C++ code decides everything from the static type of a value. Here
 * the outcome of its two compile-time capability probes is carried on the
 * value itself as two flags.
 */
module Classifier {

  /**
   * A value handed to the formatter.
   *
   * - `Plain`: any type that is not a `std::pair` or `std::tuple`.
   *   `hasStreamInsert` says whether `std::cout << x` is well-formed for it,
   *   and `text` is what that insertion writes (an opaque input: number and
   *   string formatting belong to the standard library). `hasBeginEnd` says
   *   whether it has `begin()` and `end()`, and `elements` is the sequence
   *   those iterators visit, in iteration order.
   * - `Pair`: a `std::pair`.
   * - `Tuple`: a `std::tuple` of any arity, elements in index order.
   */
  datatype Value =
    | Plain(hasStreamInsert: bool, text: string, hasBeginEnd: bool, elements: seq<Value>)
    | Pair(first: Value, second: Value)
    | Tuple(items: seq<Value>)

  /** The three strategies of the overloaded `print_helper`. */
  datatype Strategy = Direct | Container | Opaque

  /** The condition under which the stream-insertion overload is enabled. */
  predicate DirectEnabled(hasStreamInsert: bool, hasBeginEnd: bool)
  {
    hasStreamInsert
  }

  /** The condition under which the `[[X]]` fallback overload is enabled. */
  predicate OpaqueEnabled(hasStreamInsert: bool, hasBeginEnd: bool)
  {
    !hasStreamInsert && !hasBeginEnd
  }

  /** The condition under which the iterator overload is enabled. */
  predicate ContainerEnabled(hasStreamInsert: bool, hasBeginEnd: bool)
  {
    hasBeginEnd && !hasStreamInsert
  }

  /**
   * The overload that overload resolution selects. Each strategy is chosen
   * exactly when its overload is enabled, so stream insertion wins even for
   * an iterable type.
   */
  function Classify(hasStreamInsert: bool, hasBeginEnd: bool): (r: Strategy)
    ensures r == Direct <==> DirectEnabled(hasStreamInsert, hasBeginEnd)
    ensures r == Container <==> ContainerEnabled(hasStreamInsert, hasBeginEnd)
    ensures r == Opaque <==> OpaqueEnabled(hasStreamInsert, hasBeginEnd)
  {
    if hasStreamInsert then Direct
    else if hasBeginEnd then Container
    else Opaque
  }

  /**
   * The three enabling conditions never overlap and always cover every type:
   * overload resolution is never ambiguous and never finds no candidate.
   */
  lemma ExactlyOneOverloadEnabled(hasStreamInsert: bool, hasBeginEnd: bool)
    ensures DirectEnabled(hasStreamInsert, hasBeginEnd)
         || ContainerEnabled(hasStreamInsert, hasBeginEnd)
         || OpaqueEnabled(hasStreamInsert, hasBeginEnd)
    ensures !(DirectEnabled(hasStreamInsert, hasBeginEnd) && ContainerEnabled(hasStreamInsert, hasBeginEnd))
    ensures !(DirectEnabled(hasStreamInsert, hasBeginEnd) && OpaqueEnabled(hasStreamInsert, hasBeginEnd))
    ensures !(ContainerEnabled(hasStreamInsert, hasBeginEnd) && OpaqueEnabled(hasStreamInsert, hasBeginEnd))
  {
  }

  /** The strategy of a value that is not a pair or tuple. */
  function StrategyOf(v: Value): (r: Strategy)
    requires v.Plain?
    ensures r == Direct <==> v.hasStreamInsert
    ensures r == Container <==> v.hasBeginEnd && !v.hasStreamInsert
  {
    Classify(v.hasStreamInsert, v.hasBeginEnd)
  }
}
