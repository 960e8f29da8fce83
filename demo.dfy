/**
 * The calls of the repository's demonstration program (test/pptest.cpp),
 * with the values built as the formatter sees them.
 */
module Demo {
  import opened Classifier
  import opened Joins
  import opened Rendering
  import opened Printer

  /** A value with stream insertion and no iterators: an `int`, a `double`, a `const char*`. */
  function Scalar(text: string): (v: Value)
  {
    Plain(true, text, false, [])
  }

  /**
   * A `std::string`: it has stream insertion and also iterators. Stream
   * insertion wins, so its characters are never visited and are not listed.
   */
  function StdString(text: string): (v: Value)
  {
    Plain(true, text, true, [])
  }

  /**
   * The `unordered_map<int, string>` holding 42 -> "foo" and 5 -> "bar": no
   * stream insertion, iterators over key/value pairs. Its iteration order is
   * the implementation's choice; `fooFirst` picks one of the two.
   */
  function DemoMap(fooFirst: bool): (m: Value)
  {
    var foo := Pair(Scalar("42"), StdString("foo"));
    var bar := Pair(Scalar("5"), StdString("bar"));
    Plain(false, "", true, if fooFirst then [foo, bar] else [bar, foo])
  }

  /** `print("hello", "world", 42, 3.14)`. */
  lemma HelloWorld()
    ensures AllRenderable([Scalar("hello"), Scalar("world"), Scalar("42"), Scalar("3.14")])
    ensures Line([Scalar("hello"), Scalar("world"), Scalar("42"), Scalar("3.14")])
         == "hello world 42 3.14\n"
  {
    var args := [Scalar("hello"), Scalar("world"), Scalar("42"), Scalar("3.14")];
    LineOutput(args);
    assert RenderEach(args[1..]) == ["world", "42", "3.14"];
  }

  /** A three-element tuple, written out. */
  lemma TripleOutput(a: Value, b: Value, c: Value)
    requires Renderable(a) && Renderable(b) && Renderable(c)
    ensures Renderable(Tuple([a, b, c]))
    ensures Render(Tuple([a, b, c])) == "(" + Render(a) + ", " + Render(b) + ", " + Render(c) + ")"
  {
    var items := [a, b, c];
    TupleOutput(items);
    var rest := RenderEach(items[1..]);
    assert rest == [Render(b), Render(c)];
    assert rest[1..] == [Render(c)];
    assert Prefixed(", ", [Render(c)]) == ", " + Render(c);
    assert Prefixed(", ", rest) == ", " + Render(b) + (", " + Render(c));
  }

  /** A two-element container, written out. */
  lemma TwoElementContainerOutput(text: string, x: Value, y: Value)
    requires Renderable(x) && Renderable(y)
    ensures Renderable(Plain(false, text, true, [x, y]))
    ensures Render(Plain(false, text, true, [x, y])) == "{" + Render(x) + ", " + Render(y) + "}"
  {
    var m := Plain(false, text, true, [x, y]);
    assert AllRenderable(m.elements);
    ContainerOutput(m);
    assert RenderEach(m.elements[1..]) == [Render(y)];
  }

  /** `print(make_tuple("tuples", "inside", make_tuple("tuples")))`. */
  lemma NestedTuple()
    ensures Renderable(Tuple([Scalar("tuples"), Scalar("inside"), Tuple([Scalar("tuples")])]))
    ensures Render(Tuple([Scalar("tuples"), Scalar("inside"), Tuple([Scalar("tuples")])]))
         == "(tuples, inside, (tuples))"
  {
    DirectWinsOverIteration("tuples", false, []);
    DirectWinsOverIteration("inside", false, []);
    SingletonTupleOutput(Scalar("tuples"));
    TripleOutput(Scalar("tuples"), Scalar("inside"), Tuple([Scalar("tuples")]));
  }

  /** A two-argument line, written out. */
  lemma TwoArgumentLine(a: Value, b: Value)
    requires Renderable(a) && Renderable(b)
    ensures AllRenderable([a, b])
    ensures Line([a, b]) == Render(a) + " " + Render(b) + "\n"
  {
    var args := [a, b];
    LineOutput(args);
    assert RenderEach(args[1..]) == [Render(b)];
  }

  /** `(42, foo)`: one entry of the map. */
  lemma FooEntry()
    ensures Renderable(Pair(Scalar("42"), StdString("foo")))
    ensures Render(Pair(Scalar("42"), StdString("foo"))) == "(42, foo)"
  {
    DirectWinsOverIteration("42", false, []);
    DirectWinsOverIteration("foo", true, []);
    PairOutput(Scalar("42"), StdString("foo"));
  }

  /** `(5, bar)`: the other entry of the map. */
  lemma BarEntry()
    ensures Renderable(Pair(Scalar("5"), StdString("bar")))
    ensures Render(Pair(Scalar("5"), StdString("bar"))) == "(5, bar)"
  {
    DirectWinsOverIteration("5", false, []);
    DirectWinsOverIteration("bar", true, []);
    PairOutput(Scalar("5"), StdString("bar"));
  }

  /**
   * The text of the map in the iteration order `fooFirst` selects:
   * `{(42, foo), (5, bar)}` or `{(5, bar), (42, foo)}`.
   */
  function MapText(fooFirst: bool): (s: string)
  {
    if fooFirst then "{" + "(42, foo)" + ", " + "(5, bar)" + "}"
    else "{" + "(5, bar)" + ", " + "(42, foo)" + "}"
  }

  /** The map of the demonstration program, in either iteration order. */
  lemma DemoMapOutput(fooFirst: bool)
    ensures Renderable(DemoMap(fooFirst))
    ensures Render(DemoMap(fooFirst)) == MapText(fooFirst)
  {
    FooEntry();
    BarEntry();
    var foo, bar := Pair(Scalar("42"), StdString("foo")), Pair(Scalar("5"), StdString("bar"));
    if fooFirst {
      TwoElementContainerOutput("", foo, bar);
    } else {
      TwoElementContainerOutput("", bar, foo);
    }
  }

  /** `print(mymap, "weeeeeeeeeeeee")`, in either iteration order of the map. */
  lemma MapAndString(fooFirst: bool)
    ensures AllRenderable([DemoMap(fooFirst), Scalar("weeeeeeeeeeeee")])
    ensures Line([DemoMap(fooFirst), Scalar("weeeeeeeeeeeee")]) == MapText(fooFirst) + " weeeeeeeeeeeee\n"
  {
    DemoMapOutput(fooFirst);
    DirectWinsOverIteration("weeeeeeeeeeeee", false, []);
    TwoArgumentLine(DemoMap(fooFirst), Scalar("weeeeeeeeeeeee"));
  }

  /**
   * `print(myarray)`: the array is passed by value, so it decays to `int*`,
   * which has stream insertion and is written as an address.
   */
  lemma DecayedArray(address: string)
    ensures AllRenderable([Scalar(address)])
    ensures Line([Scalar(address)]) == address + "\n"
  {
    SingleArgumentLine(Scalar(address));
  }

  /**
   * The four `print` calls of the demonstration program, run one after the
   * other against a fresh stream. The pointer's text and the map's iteration
   * order are the implementation's.
   */
  method RunDemo(address: string, fooFirst: bool) returns (output: string)
    ensures output == "hello world 42 3.14\n" + "(tuples, inside, (tuples))\n"
                    + (MapText(fooFirst) + " weeeeeeeeeeeee\n") + (address + "\n")
  {
    var out := new Cout();
    var hello := [Scalar("hello"), Scalar("world"), Scalar("42"), Scalar("3.14")];
    HelloWorld();
    out.Print(hello);
    assert out.written == "hello world 42 3.14\n";
    var tuple := [Tuple([Scalar("tuples"), Scalar("inside"), Tuple([Scalar("tuples")])])];
    NestedTuple();
    SingleArgumentLine(tuple[0]);
    out.Print(tuple);
    assert out.written == "hello world 42 3.14\n" + "(tuples, inside, (tuples))\n";
    var mapped := [DemoMap(fooFirst), Scalar("weeeeeeeeeeeee")];
    MapAndString(fooFirst);
    out.Print(mapped);
    assert out.written == "hello world 42 3.14\n" + "(tuples, inside, (tuples))\n"
                          + (MapText(fooFirst) + " weeeeeeeeeeeee\n");
    var pointer := [Scalar(address)];
    DecayedArray(address);
    out.Print(pointer);
    output := out.written;
  }
}
