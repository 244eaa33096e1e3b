/** Middleware composition. Both `Tool#finish_definition` and
    `Executor#perform_execution` walk the middleware stack from its last entry
    to its first, wrapping the continuation built so far in one more proc each
    time (`make_config_proc`, `make_executor`). A `Chain` is that nested proc:
    the outermost layer is the one that runs first. */
module Composition {

  datatype Chain<M> = Terminal | Layer(outer: M, inner: Chain<M>)

  /** The middlewares of a chain, outermost first. */
  function Layers<M>(c: Chain<M>): seq<M>
  {
    match c
    case Terminal => []
    case Layer(m, inner) => [m] + Layers(inner)
  }

  /** The chain whose outermost layer is the first entry of the stack. */
  function Nest<M>(stack: seq<M>): Chain<M>
    decreases |stack|
  {
    if |stack| == 0 then Terminal else Layer(stack[0], Nest(stack[1..]))
  }

  /** The first middleware of the stack is the outermost layer, and the
      layers read from the outside in are the stack in order. */
  lemma {:induction false} NestOrder<M>(stack: seq<M>)
    ensures Layers(Nest(stack)) == stack
    ensures |stack| > 0 ==> Nest(stack).Layer? && Nest(stack).outer == stack[0]
    decreases |stack|
  {
    if |stack| > 0 {
      NestOrder(stack[1..]);
      assert [stack[0]] + stack[1..] == stack;
    }
  }

  /** The loop over `middleware_stack.reverse`: starting from the terminal
      continuation, each middleware wraps the chain built so far. */
  method WrapAll<M>(stack: seq<M>) returns (c: Chain<M>)
    ensures Layers(c) == stack
    ensures c == Nest(stack)
  {
    c := Terminal;
    var i := |stack|;
    while i > 0
      invariant 0 <= i <= |stack|
      invariant c == Nest(stack[i..])
    {
      i := i - 1;
      assert stack[i..][1..] == stack[i + 1..];
      c := Layer(stack[i], c);
    }
    assert stack[0..] == stack;
    NestOrder(stack);
  }
}
