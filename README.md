# pythonic-printer in Dafny

A model of the recursive "pythonic" formatter of `pp::print` (the C++ header
`src/pythonic_print-private.h`). `pp::print(v1, ..., vn)` writes every argument
to standard output in a Python-like form, with single spaces between the
arguments and a newline at the end. Each value is written according to its type:

- a type with stream insertion (`std::cout << x` compiles) is written as its
  own text, even if it is also iterable (so a `std::string` is written as text);
- an iterable type without stream insertion is written as `{e0, e1, ...}`;
- a type with neither is written as `[[X]]`;
- a `std::pair` is written as `(a, b)` and a `std::tuple` as `(e0, ..., en)`.

Elements of containers, pairs and tuples go through the same dispatch again.

The C++ decides all of this from static types at compile time. The model
carries the outcome of the two capability probes (`has_stream_insert` and
`has_begin_and_end`) as flags on a `Value`:

- `Plain(hasStreamInsert, text, hasBeginEnd, elements)` stands for any type
  that is not a pair or tuple. `text` is what stream insertion would write.
  `elements` are what its iterators visit, in order.
- `Pair(first, second)` stands for a `std::pair`.
- `Tuple(items)` stands for a `std::tuple`.

Files:

- `classifier.dfy` (module `Classifier`): the `Value` datatype, the three
  `print_helper` overload conditions and `Classify`, the overload that
  resolution picks.
- `join.dfy` (module `Joins`): `Join` (pieces with a separator between two
  neighbours) and `Prefixed` (each piece preceded by the separator). This is
  how the C++ writes lists: first element, then `", " + e_i`.
- `render.dfy` (module `Rendering`): the pure specification. `Render(v)` is
  the text written for one value and `Line(args)` the text of one `print`
  call. The lemmas state each output format.
- `printer.dfy` (module `Printer`): class `Cout`, the standard output stream
  as an append-only `written: string`. Each renderer is a method that appends
  piece by piece, as the C++ does. The iterator loop of the container
  overload is a `while` loop over the iterator position `it`. Each method is
  proved to append exactly `Render(v)` or `Line(args)` and to change nothing else.
- `demo.dfy` (module `Demo`): the calls of the demonstration program
  `test/pptest.cpp`, with their exact output.

Where the code does something other than what a reader might expect, the
model follows the code:

- **Empty containers.** One might expect an empty container to be written
  `{}`. The code writes `{`, skips element 0, then runs `++it` on the
  `end()` iterator before its first comparison
  (src/pythonic_print-private.h:102). That is undefined behaviour. So the
  model leaves rendering undefined there: `Render`, `Line` and the printing
  methods require `Renderable`, which says every container reached by
  dispatch is non-empty. `EmptyContainerUndefined` records that an empty one
  is excluded.
- **Empty tuples.** The comment at src/pythonic_print-private.h:153 says an
  empty tuple prints just the parentheses, but the test on line 154 is an
  ordinary `if`, so line 155 names `std::tuple_element<0, std::tuple<>>` and
  `std::get<0>` even for arity 0, and that does not compile. `Renderable`
  therefore also requires every tuple reached to be non-empty, and
  `EmptyTupleUndefined` records that `std::tuple<>` is excluded.
- **Fixed-size arrays.** There is no array overload. An array passed to
  `print` by value decays to a pointer, which has stream insertion and is
  written as an address (`Demo.DecayedArray`).
- **Arguments.** The header declares `const Ts&...`
  (src/pythonic_print.h:8), but the definitions take their arguments by
  value (src/pythonic_print-private.h:164, 172). Either way nothing is
  modified. In the model, values are immutable and every method changes
  only `written`.

## Model

| member | source | states |
|---|---|---|
| `Classifier.Classify` | src/pythonic_print-private.h:74-95 | Direct exactly when stream insertion exists (even for an iterable type); Container exactly when iterable without stream insertion; Opaque exactly when neither |
| `Classifier.StrategyOf` | src/pythonic_print-private.h:74-95 | the strategy of a value that is not a pair or tuple: Direct exactly when it has stream insertion, Container exactly when it is iterable without it |
| `Classifier.ExactlyOneOverloadEnabled` | src/pythonic_print-private.h:74-95 | the three `enable_if` conditions of `print_helper` are pairwise exclusive and cover every combination of capabilities |
| `Rendering.DirectWinsOverIteration` | src/pythonic_print-private.h:75-80 | a value with stream insertion is always renderable and is written as its own text, whatever its iterability and elements |
| `Rendering.OpaqueOutput` | src/pythonic_print-private.h:83-89 | a value with neither capability is written as exactly the five characters `[[X]]` |
| `Rendering.EmptyContainerUndefined` | src/pythonic_print-private.h:97-102 | an iterable value without stream insertion and without elements is outside the defined domain: the loop steps past `end()` |
| `Rendering.ContainerOutput` | src/pythonic_print-private.h:92-107 | a container is non-empty and is written as `{`, element 0, then `, ` before each later element in iteration order, then `}`, each element rendered recursively |
| `Rendering.PairOutput` | src/pythonic_print-private.h:136-145 | a pair is written as `(` + first + `, ` + second + `)` |
| `Rendering.PairAsTuple` | src/pythonic_print-private.h:136-160 | a pair is written exactly as the two-element tuple of its members |
| `Rendering.TupleOutput` | src/pythonic_print-private.h:119-160 | a non-empty tuple is written as `(`, element 0, then `, ` before each later element in index order, then `)` |
| `Rendering.EmptyTupleUndefined` | src/pythonic_print-private.h:149-156 | a tuple of arity 0 is outside the defined domain: element 0 is named under an ordinary `if` and does not exist |
| `Rendering.SingletonTupleOutput` | src/pythonic_print-private.h:149-160 | a one-element tuple is written `(e0)`, with no trailing separator |
| `Rendering.LineOutput` | src/pythonic_print-private.h:162-177 | a `print` call writes the first argument, then a space before each later argument, then one newline |
| `Rendering.LineRecursion` | src/pythonic_print-private.h:171-177 | with two or more arguments the line is the first argument, a space, and the line of the remaining arguments |
| `Rendering.LineLength` | src/pythonic_print-private.h:162-177 | a line is as long as all renderings plus one space per argument after the first and one newline, which it ends with: no leading or trailing space |
| `Rendering.SingleArgumentLine` | src/pythonic_print-private.h:163-168 | a one-argument call writes the rendering followed by the newline alone |
| `Joins.JoinIsFirstThenPrefixed` | src/pythonic_print-private.h:97-105 | writing the first piece and then `sep + p_i` for each later piece gives the pieces joined with `sep` |
| `Printer.Cout.Write` | src/pythonic_print-private.h:79 | a stream insertion of text appends exactly that text to what was written before |
| `Printer.Cout.PrintValue` | src/pythonic_print-private.h:109-115 | dispatch to the pair, tuple or generic `PrintHelper`; appends exactly `Render(v)` to the stream and changes nothing else |
| `Printer.Cout.PrintHelper` | src/pythonic_print-private.h:74-107 | the enabled `print_helper` overload appends exactly `Render(v)` |
| `Printer.Cout.PrintContainer` | src/pythonic_print-private.h:92-107 | the iterator loop appends exactly the container's rendering |
| `Printer.Cout.PrintPair` | src/pythonic_print-private.h:136-145 | the pair specialisation appends exactly the pair's rendering |
| `Printer.Cout.PrintTuple` | src/pythonic_print-private.h:149-160 | the tuple specialisation appends exactly the tuple's rendering |
| `Printer.Cout.PrintTupleFrom` | src/pythonic_print-private.h:117-133 | `print_tuple<T, I>` appends nothing when `I` is at or past the arity, otherwise `, ` before each element from `I` on |
| `Printer.Cout.Print` | src/pythonic_print-private.h:162-177 | the variadic `print` appends exactly `Line(args)` |
| `Demo.HelloWorld` | test/pptest.cpp:11 | `print("hello", "world", 42, 3.14)` writes `hello world 42 3.14` and a newline |
| `Demo.NestedTuple` | test/pptest.cpp:12 | the nested tuple is written `(tuples, inside, (tuples))` |
| `Demo.MapAndString` | test/pptest.cpp:10-13 | the map and string give `{(42, foo), (5, bar)} weeeeeeeeeeeee` (or the other iteration order) and a newline |
| `Demo.DecayedArray` | test/pptest.cpp:14-15 | the decayed array is written as its address text and a newline |
| `Demo.RunDemo` | test/pptest.cpp:8-16 | the four `print` calls of the demonstration program, run on a fresh stream, write exactly its four lines |

## Left out

- Scalar text: what `std::cout << x` writes for numbers, characters, strings
  and pointers comes from the standard library. It is the opaque input
  `text` of a `Plain` value.
- Capability detection: the SFINAE probes (`decltype`, `enable_if`, the
  ranking of the ellipsis overload) are compile-time machinery. Only their
  outcome is modelled, as the two flags.
- Compile errors: a type that passes the iterator probe but has no
  `value_type`, and a tuple of arity 0, do not compile in C++. The model has
  no compile step: the empty tuple is outside `Renderable`.
- Container element types: a C++ container's elements all share one type
  and so one strategy. The model lets each element carry its own flags.
- Stream details: `std::endl` is modelled as writing `'\n'`. Its flush and
  any stream failure are left out.
- `print(ostream&, ...)` and a zero-argument `print()`: they are declared in
  `src/pythonic_print.h` but defined nowhere. All output goes to `std::cout`,
  and the smallest defined `print` takes one argument.
- Building the header: src/pythonic_print.h:13 names `ostream` unqualified
  before any standard header is included, so `test/pptest.cpp` does not
  build as shipped. `Demo.RunDemo` models the four `print` calls of the
  demonstration program as if it did.
- Unordered-map iteration order is implementation-defined. A container is
  given by its element sequence, and `Demo.RunDemo` takes the order as a
  parameter.
- Copies of arguments: C++ takes arguments by value, so copy constructors
  run. Their effects are outside the model. Dafny values are immutable.
- Empty containers: the code's behaviour is undefined, so the model
  defines no output for them instead of claiming `{}`.
