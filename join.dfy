/**
 * Joining rendered pieces with a separator.
 *
 * `Join` is the reference definition of "the pieces with `sep` between
 * consecutive ones". `Prefixed` is what the formatter actually writes after
 * the first piece: `sep + p` for every later piece. `JoinIsFirstThenPrefixed`
 * connects the two.
 */
module Joins {

  /** Regrouping appended text. */
  lemma AppendAssociative(a: string, b: string, c: string)
    ensures a + (b + c) == a + b + c
  {
  }

  /** The pieces of `ps` in order, with `sep` between consecutive pieces. */
  function Join(sep: string, ps: seq<string>): (r: string)
    decreases |ps|
  {
    if ps == [] then ""
    else if |ps| == 1 then ps[0]
    else ps[0] + sep + Join(sep, ps[1..])
  }

  /** Every piece of `ps`, each one preceded by `sep`. */
  function Prefixed(sep: string, ps: seq<string>): (r: string)
    decreases |ps|
  {
    if ps == [] then "" else sep + ps[0] + Prefixed(sep, ps[1..])
  }

  /** Appending one more piece appends `sep` and that piece. */
  lemma {:induction false} PrefixedSnoc(sep: string, ps: seq<string>, p: string)
    ensures Prefixed(sep, ps + [p]) == Prefixed(sep, ps) + sep + p
    decreases |ps|
  {
    if ps == [] {
      assert ps + [p] == [p];
    } else {
      assert (ps + [p])[1..] == ps[1..] + [p];
      PrefixedSnoc(sep, ps[1..], p);
    }
  }

  /** The length of the prefixed text: every piece plus one separator each. */
  lemma {:induction false} PrefixedLength(sep: string, ps: seq<string>)
    ensures |Prefixed(sep, ps)| == |ps| * |sep| + TotalLength(ps)
    decreases |ps|
  {
    if ps != [] {
      PrefixedLength(sep, ps[1..]);
    }
  }

  /** The summed length of all pieces. */
  function TotalLength(ps: seq<string>): (n: nat)
    decreases |ps|
  {
    if ps == [] then 0 else |ps[0]| + TotalLength(ps[1..])
  }

  /**
   * A non-empty join is its first piece followed by every later piece
   * preceded by the separator: the order in which the formatter writes.
   */
  lemma {:induction false} JoinIsFirstThenPrefixed(sep: string, ps: seq<string>)
    requires ps != []
    ensures Join(sep, ps) == ps[0] + Prefixed(sep, ps[1..])
    decreases |ps|
  {
    if |ps| > 1 {
      JoinIsFirstThenPrefixed(sep, ps[1..]);
      assert ps[1..][1..] == ps[2..];
    }
  }

  /** A non-empty join holds exactly one separator fewer than it has pieces. */
  lemma JoinLength(sep: string, ps: seq<string>)
    requires ps != []
    ensures |Join(sep, ps)| == (|ps| - 1) * |sep| + TotalLength(ps)
  {
    JoinIsFirstThenPrefixed(sep, ps);
    PrefixedLength(sep, ps[1..]);
  }
}
