/**
 * The formatter as the C++ code runs it: every renderer appends its
 * pieces one write at a time to the standard output stream. `Cout` stands
 * for that stream; `written` is everything inserted into it so far.
 *
 * Each method is proved to append exactly the text the pure `Render` or
 * `Line` gives, and to change nothing else: values are immutable, and the
 * only state any method touches is `written`.
 */
module Printer {
  import opened Classifier
  import opened Joins
  import opened Rendering

  class Cout {
    /** The characters inserted into the stream so far. */
    var written: string

    constructor ()
      ensures written == ""
    {
      written := "";
    }

    /** `std::cout << s` on text that is already a string. */
    method Write(s: string)
      modifies this
      ensures written == old(written) + s
    {
      written := written + s;
    }

    /**
     * `PrintHelper<T>::print`: the pair and tuple specialisations for pairs
     * and tuples, the generic class (which defers to `print_helper`) for any
     * other value.
     */
    method PrintValue(v: Value)
      requires Renderable(v)
      modifies this
      ensures written == old(written) + Render(v)
      decreases v, 2, 0
    {
      match v
      case Plain(_, _, _, _) => PrintHelper(v);
      case Pair(_, _) => PrintPair(v);
      case Tuple(_) => PrintTuple(v);
    }

    /** `print_helper`: the overload that classification enables. */
    method PrintHelper(v: Value)
      requires v.Plain? && Renderable(v)
      modifies this
      ensures written == old(written) + Render(v)
      decreases v, 1, 0
    {
      match StrategyOf(v)
      case Direct => Write(v.text);
      case Opaque => Write(OpaqueText);
      case Container => PrintContainer(v);
    }

    /**
     * The iterator overload of `print_helper`. `it` is the position of the
     * iterator: element 0 is written, the iterator is advanced, and each
     * further element is written after `, ` until the iterator reaches the end.
     */
    method PrintContainer(v: Value)
      requires v.Plain? && ContainerEnabled(v.hasStreamInsert, v.hasBeginEnd)
      requires Renderable(v)
      modifies this
      ensures written == old(written) + Render(v)
      decreases v, 0, 0
    {
      var es := v.elements;
      assert es != [] && AllRenderable(es);
      ghost var before, first := written, Render(es[0]);
      ghost var head := before + "{" + first;
      var it := 0;
      Write("{");
      if it != |es| {
        PrintValue(es[it]);
      }
      it := it + 1;
      assert RenderEach(es[1..it]) == [];
      while it != |es|
        invariant 1 <= it <= |es|
        invariant written == head + Prefixed(ItemSeparator, RenderEach(es[1..it]))
        decreases |es| - it
      {
        ghost var prefixed, next := Prefixed(ItemSeparator, RenderEach(es[1..it])), Render(es[it]);
        Write(ItemSeparator);
        PrintValue(es[it]);
        AppendAssociative(head, prefixed + ItemSeparator, next);
        AppendAssociative(head, prefixed, ItemSeparator);
        PrefixedStep(es, it);
        it := it + 1;
      }
      ghost var rest := Prefixed(ItemSeparator, RenderEach(es[1..]));
      assert es[1..it] == es[1..];
      Write("}");
      AppendAssociative(before, "{" + first, rest);
      AppendAssociative(before, "{" + first + rest, "}");
      AppendAssociative(before, "{", first);
      ContainerOutput(v);
    }

    /** The pair specialisation: `(`, first, `, `, second, `)`. */
    method PrintPair(v: Value)
      requires v.Pair? && Renderable(v)
      modifies this
      ensures written == old(written) + Render(v)
      decreases v, 1, 0
    {
      PairOutput(v.first, v.second);
      ghost var before, first, second := written, Render(v.first), Render(v.second);
      Write("(");
      PrintValue(v.first);
      AppendAssociative(before, "(", first);
      Write(ItemSeparator);
      AppendAssociative(before, "(" + first, ItemSeparator);
      PrintValue(v.second);
      AppendAssociative(before, "(" + first + ItemSeparator, second);
      Write(")");
      AppendAssociative(before, "(" + first + ItemSeparator + second, ")");
    }

    /**
     * The tuple specialisation: `(`, element 0 under the arity test, the
     * rest through `PrintTupleFrom` starting at index 1, `)`.
     */
    method PrintTuple(v: Value)
      requires v.Tuple? && Renderable(v)
      modifies this
      ensures written == old(written) + Render(v)
      decreases v, 1, 0
    {
      TupleOutput(v.items);
      ghost var before, head := written, Render(v.items[0]);
      Write("(");
      if |v.items| > 0 {
        PrintValue(v.items[0]);
      }
      AppendAssociative(before, "(", head);
      RenderEachDrop(v.items, 1);
      ghost var rest := Prefixed(ItemSeparator, RenderEach(v.items[1..]));
      PrintTupleFrom(v, 1);
      assert written == before + ("(" + head) + rest by {
        if |v.items| == 1 {
          assert RenderEach(v.items[1..]) == [];
        }
      }
      AppendAssociative(before, "(" + head, rest);
      Write(")");
      AppendAssociative(before, "(" + head + rest, ")");
    }

    /**
     * `print_tuple<T, I>`: nothing once `i` is at or past the arity;
     * otherwise `, `, element `i`, and the elements after it.
     */
    method PrintTupleFrom(v: Value, i: nat)
      requires v.Tuple? && Renderable(v)
      modifies this
      ensures i < |v.items| ==>
                AllRenderable(v.items[i..]) &&
                written == old(written) + Prefixed(ItemSeparator, RenderEach(v.items[i..]))
      ensures i >= |v.items| ==> written == old(written)
      decreases v, 0, |v.items| - i
    {
      if i < |v.items| {
        RenderEachDrop(v.items, i);
        RenderEachDrop(v.items, i + 1);
        ghost var before, item := written, Render(v.items[i]);
        ghost var later := RenderEach(v.items[i + 1..]);
        assert RenderEach(v.items[i..]) == [item] + later;
        Write(ItemSeparator);
        PrintValue(v.items[i]);
        AppendAssociative(before, ItemSeparator, item);
        PrintTupleFrom(v, i + 1);
        assert written == before + (ItemSeparator + item) + Prefixed(ItemSeparator, later) by {
          if i + 1 == |v.items| {
            assert later == [];
          }
        }
        AppendAssociative(before, ItemSeparator + item, Prefixed(ItemSeparator, later));
      }
    }

    /**
     * The variadic `print`: the first argument, then either the newline
     * (the one-argument base case) or a space and the remaining arguments.
     */
    method Print(args: seq<Value>)
      requires args != [] && AllRenderable(args)
      modifies this
      ensures written == old(written) + Line(args)
      decreases |args|
    {
      ghost var before, head := written, Render(args[0]);
      PrintValue(args[0]);
      if |args| == 1 {
        SingleArgumentLine(args[0]);
        assert args == [args[0]];
        Write("\n");
        AppendAssociative(before, head, "\n");
      } else {
        LineRecursion(args);
        Write(ArgumentSeparator);
        AppendAssociative(before, head, ArgumentSeparator);
        Print(args[1..]);
        AppendAssociative(before, head + ArgumentSeparator, Line(args[1..]));
      }
    }
  }
}
