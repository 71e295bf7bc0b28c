/** The calculator's errors, its operators (the two shapes that `new_operator!`
    builds) and the default operator registry. Values are abstract: `V` stands
    for `f64`, and the four arithmetic operations are given as functions. */
module Operators {

  datatype Option<T> = None | Some(value: T)

  /** `RpnCalculatorError`, without the `IOError` variant that only the
      terminal front end produces. */
  datatype CalcError = ParsingError | NotEnoughOperands | Quit

  /** `CalcResult`: `Ok(())` or an error. */
  datatype CalcResult = Ok | Err(error: CalcError)

  /** What running an operator does: the stack it leaves and what it returns. */
  datatype Effect<V> = Effect(stack: seq<V>, result: CalcResult)

  /** What the `$code` block of the fixed-arity form produces once the
      operands are popped: a value to push, or an early `return Err(..)` (or
      `?`) that leaves the function with that error. */
  datatype Outcome<V> = Value(value: V) | Fail(error: CalcError)

  /** An `OperatorFn` as `new_operator!` writes it.
      `Fixed(n, compute)` reads the top `n` values (top first), pops them and
      pushes the value `compute` yields for them, or returns the error it
      fails with; `Raw(run)` is given the whole stack, and `run` says what
      stack it leaves and what it returns, including when it fails. */
  datatype Operator<!V> =
    | Fixed(arity: nat, compute: seq<V> --> Outcome<V>)
    | Raw(run: seq<V> -> Effect<V>)

  /** A fixed-arity operator can compute on any `arity` operands, as the body
      of a Rust `fn` with that many named operands can. */
  ghost predicate WellFormed<V(!new)>(op: Operator<V>) {
    op.Fixed? ==> forall xs: seq<V> :: |xs| == op.arity ==> op.compute.requires(xs)
  }

  /** An `OperatorsMap`: every operator it binds is well formed. */
  ghost predicate ValidRegistry<V(!new)>(ops: map<string, Operator<V>>) {
    forall symbol :: symbol in ops ==> WellFormed(ops[symbol])
  }

  /** The top `n` values of `s`, the top one first: the first operand name of
      the macro binds to the top, the second to the one below, and so on. */
  function Operands<V>(s: seq<V>, n: nat): (xs: seq<V>)
    requires n <= |s|
    ensures |xs| == n
    ensures forall k :: 0 <= k < n ==> xs[k] == s[|s| - 1 - k]
  {
    if n == 0 then [] else [s[|s| - 1]] + Operands(s[..|s| - 1], n - 1)
  }

  /** Running `op` on the stack `s`. */
  function Apply<V(!new)>(op: Operator<V>, s: seq<V>): Effect<V>
    requires WellFormed(op)
  {
    match op
    case Fixed(n, compute) =>
      if |s| < n then Effect(s, Err(NotEnoughOperands))
      else (match compute(Operands(s, n))
        case Value(v) => Effect(s[..|s| - n] + [v], Ok)
        case Fail(e) => Effect(s[..|s| - n], Err(e)))
    case Raw(run) => run(s)
  }

  /** A fixed-arity operator on a stack holding fewer values than its arity
      fails with `NotEnoughOperands` and leaves the stack as it was. Otherwise
      the top `n` values are popped whatever happens next, the lower `|s| - n`
      values are kept, and the operator succeeds exactly when its block yields
      a value, which is then pushed in place of the `n` operands; a block that
      fails returns its own error. */
  lemma FixedOperator<V(!new)>(n: nat, compute: seq<V> --> Outcome<V>, s: seq<V>)
    requires WellFormed(Fixed(n, compute))
    ensures var e := Apply(Fixed(n, compute), s);
      && (|s| < n ==> e == Effect(s, Err(NotEnoughOperands)))
      && (|s| >= n ==>
            && e.stack[..|s| - n] == s[..|s| - n]
            && (e.result.Ok? <==> compute(Operands(s, n)).Value?)
            && (e.result.Ok? ==>
                  |e.stack| == |s| - n + 1 && e.stack[|s| - n] == compute(Operands(s, n)).value)
            && (e.result.Err? ==>
                  e.stack == s[..|s| - n] && e.result.error == compute(Operands(s, n)).error))
  {
  }

  /** The stack an operator function is handed: `CalcStack`, a `Vec<f64>`. */
  class CalcStack<V> {
    var items: seq<V>

    constructor ()
      ensures items == []
    {
      items := [];
    }
  }

  /** The function that the fixed-arity form of `new_operator!` generates: it
      reads the operands from the top down, failing before anything is popped
      if the stack runs out, then pops them all, runs the block and pushes its
      value, or returns the block's error with the operands already popped. */
  method ApplyFixed<V(!new)>(s: CalcStack<V>, arity: nat, compute: seq<V> --> Outcome<V>) returns (r: CalcResult)
    requires WellFormed(Fixed(arity, compute))
    modifies s
    ensures Effect(s.items, r) == Apply(Fixed(arity, compute), old(s.items))
  {
    var i := |s.items|;
    var operands: seq<V> := [];
    while |operands| < arity
      invariant s.items == old(s.items)
      invariant |operands| <= arity
      invariant 0 <= i && i + |operands| == |s.items|
      invariant forall k :: 0 <= k < |operands| ==> operands[k] == s.items[|s.items| - 1 - k]
    {
      if i == 0 {
        return Err(NotEnoughOperands);
      }
      operands := operands + [s.items[i - 1]];
      i := i - 1;
    }
    assert operands == Operands(s.items, arity);
    var n := |s.items| - i;
    var popped := 0;
    while popped < n
      invariant 0 <= popped <= n
      invariant s.items == old(s.items)[..|old(s.items)| - popped]
    {
      s.items := s.items[..|s.items| - 1];
      popped := popped + 1;
    }
    match compute(operands)
    case Value(v) =>
      s.items := s.items + [v];
      r := Ok;
    case Fail(e) =>
      r := Err(e);
  }

  /** Calling an operator function on the stack (`operator(&mut self.stack)`).
      A raw operator's changes stand whatever it returns. */
  method Invoke<V(!new)>(op: Operator<V>, s: CalcStack<V>) returns (r: CalcResult)
    requires WellFormed(op)
    modifies s
    ensures Effect(s.items, r) == Apply(op, old(s.items))
  {
    match op
    case Fixed(n, compute) =>
      r := ApplyFixed(s, n, compute);
    case Raw(run) =>
      var e := run(s.items);
      s.items := e.stack;
      r := e.result;
  }

  /** The operations on `f64` that the default operators use. */
  datatype Arithmetic<!V> = Arithmetic(add: (V, V) -> V, sub: (V, V) -> V, mul: (V, V) -> V, div: (V, V) -> V)

  /** `new_operator!(ops, sym, [y, x], { x OP y })`: an arity-2 operator whose
      result is `g(second from top, top)`. */
  function BinaryOp<V(!new)>(g: (V, V) -> V): (op: Operator<V>)
    ensures WellFormed(op) && op.Fixed? && op.arity == 2
    ensures forall x, y :: op.compute([y, x]) == Value(g(x, y))
  {
    Fixed(2, (xs: seq<V>) requires |xs| == 2 => Value(g(xs[1], xs[0])))
  }

  /** A binary operator on a stack `[.., x, y]` leaves `[.., g(x, y)]`; on a
      stack of fewer than two values it fails and changes nothing. */
  lemma BinaryOpOnStack<V(!new)>(g: (V, V) -> V, s: seq<V>)
    ensures |s| < 2 ==> Apply(BinaryOp(g), s) == Effect(s, Err(NotEnoughOperands))
    ensures |s| >= 2 ==> Apply(BinaryOp(g), s) == Effect(s[..|s| - 2] + [g(s[|s| - 2], s[|s| - 1])], Ok)
  {
    if |s| >= 2 {
      var xs := Operands(s, 2);
      assert xs == [s[|s| - 1], s[|s| - 2]];
    }
  }

  /** The symbols of the default registry. */
  const DefaultSymbols: set<string> := {"+", "-", "*", "/"}

  /** The arithmetic function behind each default symbol. */
  function DefaultFunction<V>(arith: Arithmetic<V>, symbol: string): (V, V) -> V
    requires symbol in DefaultSymbols
  {
    if symbol == "+" then arith.add
    else if symbol == "-" then arith.sub
    else if symbol == "*" then arith.mul
    else arith.div
  }

  /** The registry that `default_operators` returns. */
  function DefaultRegistry<V(!new)>(arith: Arithmetic<V>): map<string, Operator<V>> {
    map["+" := BinaryOp(arith.add), "-" := BinaryOp(arith.sub),
        "*" := BinaryOp(arith.mul), "/" := BinaryOp(arith.div)]
  }

  /** `default_operators`: an empty map, then one insertion per operator. */
  method DefaultOperators<V(!new)>(arith: Arithmetic<V>) returns (ops: map<string, Operator<V>>)
    ensures ops == DefaultRegistry(arith)
  {
    ops := map[];
    ops := ops["+" := BinaryOp(arith.add)];
    ops := ops["-" := BinaryOp(arith.sub)];
    ops := ops["*" := BinaryOp(arith.mul)];
    ops := ops["/" := BinaryOp(arith.div)];
  }

  /** The default registry binds exactly `+ - * /`, each to an arity-2
      operator computing `second from top OP top`. */
  lemma DefaultRegistryShape<V(!new)>(arith: Arithmetic<V>, symbol: string, s: seq<V>)
    ensures DefaultRegistry(arith).Keys == DefaultSymbols
    ensures ValidRegistry(DefaultRegistry(arith))
    ensures symbol in DefaultSymbols ==>
      && DefaultRegistry(arith)[symbol] == BinaryOp(DefaultFunction(arith, symbol))
      && DefaultRegistry(arith)[symbol].arity == 2
      && (|s| >= 2 ==>
            Apply(DefaultRegistry(arith)[symbol], s)
            == Effect(s[..|s| - 2] + [DefaultFunction(arith, symbol)(s[|s| - 2], s[|s| - 1])], Ok))
  {
    if symbol in DefaultSymbols {
      BinaryOpOnStack(DefaultFunction(arith, symbol), s);
    }
  }

  /** The operator the terminal front end registers as `q`: it changes
      nothing and always returns `Quit`. */
  function QuitOperator<V(!new)>(): (op: Operator<V>)
    ensures op.Raw? && forall s :: op.run(s) == Effect(s, Err(Quit))
  {
    Raw(s => Effect(s, Err(Quit)))
  }

  /** A raw operator whose body is `s.pop(); Ok(())`: it drops the top value
      if there is one and never fails. */
  function DropOperator<V(!new)>(): (op: Operator<V>)
    ensures op.Raw?
    ensures forall s :: op.run(s).result == Ok
    ensures forall s :: |s| > 0 ==> op.run(s).stack == s[..|s| - 1]
    ensures op.run([]).stack == []
  {
    Raw(s => if s == [] then Effect(s, Ok) else Effect(s[..|s| - 1], Ok))
  }
}
