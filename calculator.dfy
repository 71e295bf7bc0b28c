/** `RpnCalculator`: a stack and an operator registry, and `evaluate`, which
    runs the tokens of a line against them from left to right. */
module Calculator {
  import opened Tokenizer
  import opened Operators

  /** What `parse_and_push` does to the stack `s`: a token that parses as a
      number is pushed, any other fails with `ParsingError`. */
  function PushLiteral<V>(parse: string -> Option<V>, s: seq<V>, token: string): Effect<V> {
    match parse(token)
    case None => Effect(s, Err(ParsingError))
    case Some(v) => Effect(s + [v], Ok)
  }

  /** What `parse_token` does: a registry key runs its operator, anything
      else is read as a number. */
  function Step<V(!new)>(ops: map<string, Operator<V>>, parse: string -> Option<V>, s: seq<V>, token: string): Effect<V>
    requires ValidRegistry(ops)
  {
    if token in ops then Apply(ops[token], s) else PushLiteral(parse, s, token)
  }

  /** The token loop of `evaluate`: each token in turn, stopping at the first
      that fails and returning its error. */
  function EvalTokens<V(!new)>(ops: map<string, Operator<V>>, parse: string -> Option<V>, s: seq<V>, ts: seq<string>): Effect<V>
    requires ValidRegistry(ops)
    decreases |ts|
  {
    if ts == [] then Effect(s, Ok)
    else
      var e := Step(ops, parse, s, ts[0]);
      if e.result.Err? then e else EvalTokens(ops, parse, e.stack, ts[1..])
  }

  /** Evaluating `a + b` is evaluating `a`, then, if that succeeded, `b` on
      the stack `a` left. */
  lemma {:induction false} EvalAppend<V(!new)>(ops: map<string, Operator<V>>, parse: string -> Option<V>, s: seq<V>, a: seq<string>, b: seq<string>)
    requires ValidRegistry(ops)
    ensures EvalTokens(ops, parse, s, a + b)
      == (var e := EvalTokens(ops, parse, s, a);
          if e.result.Err? then e else EvalTokens(ops, parse, e.stack, b))
    decreases |a|
  {
    if a == [] {
      assert a + b == b;
    } else {
      assert (a + b)[0] == a[0] && (a + b)[1..] == a[1..] + b;
      var e := Step(ops, parse, s, a[0]);
      if e.result.Ok? {
        EvalAppend(ops, parse, e.stack, a[1..], b);
      }
    }
  }

  /** Once a line has failed, the tokens after the failure are never run. */
  lemma FailureSkipsRest<V(!new)>(ops: map<string, Operator<V>>, parse: string -> Option<V>, s: seq<V>, a: seq<string>, b: seq<string>)
    requires ValidRegistry(ops)
    requires EvalTokens(ops, parse, s, a).result.Err?
    ensures EvalTokens(ops, parse, s, a + b) == EvalTokens(ops, parse, s, a)
  {
    EvalAppend(ops, parse, s, a, b);
  }

  /** If the first `i` tokens succeed and token `i` fails, the line ends with
      that token's error and the stack that token left. Nothing is undone:
      only a number that does not parse and a fixed-arity operator short of
      operands leave the stack the first `i` tokens left; a fixed-arity
      operator whose block fails has already popped its operands, and a raw
      operator leaves whatever it made of the stack. */
  lemma FirstFailureDecides<V(!new)>(ops: map<string, Operator<V>>, parse: string -> Option<V>, s: seq<V>, ts: seq<string>, i: nat)
    requires ValidRegistry(ops)
    requires i < |ts|
    requires EvalTokens(ops, parse, s, ts[..i]).result.Ok?
    requires Step(ops, parse, EvalTokens(ops, parse, s, ts[..i]).stack, ts[i]).result.Err?
    ensures EvalTokens(ops, parse, s, ts) == Step(ops, parse, EvalTokens(ops, parse, s, ts[..i]).stack, ts[i])
    ensures var before := EvalTokens(ops, parse, s, ts[..i]).stack;
      (ts[i] !in ops || (ops[ts[i]].Fixed? && |before| < ops[ts[i]].arity)) ==>
        EvalTokens(ops, parse, s, ts).stack == before
    ensures var before := EvalTokens(ops, parse, s, ts[..i]).stack;
      (ts[i] in ops && ops[ts[i]].Fixed? && |before| >= ops[ts[i]].arity) ==>
        EvalTokens(ops, parse, s, ts).stack == before[..|before| - ops[ts[i]].arity]
  {
    assert ts == ts[..i] + ts[i..];
    EvalAppend(ops, parse, s, ts[..i], ts[i..]);
    assert ts[i..][0] == ts[i];
  }

  /** A line that fails has a first failing token: every token before it
      succeeded, and the line's outcome is that token's. */
  lemma {:induction false} FailureHasFirstFailingToken<V(!new)>(ops: map<string, Operator<V>>, parse: string -> Option<V>, s: seq<V>, ts: seq<string>)
    requires ValidRegistry(ops)
    requires EvalTokens(ops, parse, s, ts).result.Err?
    ensures exists i ::
              && 0 <= i < |ts|
              && EvalTokens(ops, parse, s, ts[..i]).result.Ok?
              && EvalTokens(ops, parse, s, ts) == Step(ops, parse, EvalTokens(ops, parse, s, ts[..i]).stack, ts[i])
    decreases |ts|
  {
    var e := Step(ops, parse, s, ts[0]);
    assert ts[..0] == [];
    if e.result.Err? {
      assert EvalTokens(ops, parse, s, ts[..0]) == Effect(s, Ok);
    } else {
      FailureHasFirstFailingToken(ops, parse, e.stack, ts[1..]);
      var j :| 0 <= j < |ts[1..]|
        && EvalTokens(ops, parse, e.stack, ts[1..][..j]).result.Ok?
        && EvalTokens(ops, parse, e.stack, ts[1..]) == Step(ops, parse, EvalTokens(ops, parse, e.stack, ts[1..][..j]).stack, ts[1..][j]);
      assert ts[..j + 1] == [ts[0]] + ts[1..][..j];
      assert ts[..j + 1][0] == ts[0] && ts[..j + 1][1..] == ts[1..][..j];
      assert ts[1..][j] == ts[j + 1];
    }
  }

  /** A line succeeds exactly when every one of its tokens, run on the stack
      the tokens before it left, succeeds. */
  lemma {:induction false} SuccessIffEveryTokenSucceeds<V(!new)>(ops: map<string, Operator<V>>, parse: string -> Option<V>, s: seq<V>, ts: seq<string>)
    requires ValidRegistry(ops)
    ensures EvalTokens(ops, parse, s, ts).result.Ok?
      <==> forall i :: 0 <= i < |ts| ==> Step(ops, parse, EvalTokens(ops, parse, s, ts[..i]).stack, ts[i]).result.Ok?
    decreases |ts|
  {
    if ts != [] {
      var e := Step(ops, parse, s, ts[0]);
      assert ts[..0] == [];
      SuccessIffEveryTokenSucceeds(ops, parse, e.stack, ts[1..]);
      if e.result.Ok? {
        forall i | 1 <= i < |ts|
          ensures EvalTokens(ops, parse, s, ts[..i]) == EvalTokens(ops, parse, e.stack, ts[1..][..i - 1])
          ensures ts[i] == ts[1..][i - 1]
        {
          assert ts[..i][0] == ts[0] && ts[..i][1..] == ts[1..][..i - 1];
        }
      }
    }
  }

  /** A registry key always runs its operator; the number parser is never
      consulted for it, even when the key would parse as a number. */
  lemma KeyIsNeverParsed<V(!new)>(ops: map<string, Operator<V>>, parse: string -> Option<V>, other: string -> Option<V>, s: seq<V>, token: string)
    requires ValidRegistry(ops)
    requires token in ops
    ensures Step(ops, parse, s, token) == Apply(ops[token], s)
    ensures Step(ops, parse, s, token) == Step(ops, other, s, token)
  {
  }

  /** A token that is not a key and does not parse fails with `ParsingError`
      and pushes nothing; one that parses is pushed and becomes the top. */
  lemma LiteralToken<V(!new)>(ops: map<string, Operator<V>>, parse: string -> Option<V>, s: seq<V>, token: string)
    requires ValidRegistry(ops)
    requires token !in ops
    ensures parse(token).None? ==> Step(ops, parse, s, token) == Effect(s, Err(ParsingError))
    ensures parse(token).Some? ==>
      var e := Step(ops, parse, s, token);
      e.result == Ok && e.stack[..|s|] == s && |e.stack| == |s| + 1 && e.stack[|s|] == parse(token).value
  {
  }

  /** A blank line runs nothing: it succeeds and leaves the stack alone. */
  lemma BlankLineIsNoOp<V(!new)>(ops: map<string, Operator<V>>, parse: string -> Option<V>, s: seq<V>, line: string)
    requires ValidRegistry(ops)
    requires IsBlank(line)
    ensures EvalTokens(ops, parse, s, Tokens(line)) == Effect(s, Ok)
  {
    TokensEmptyIffBlank(line);
  }

  /** Binding `symbol` changes what `symbol` does, replacing any earlier
      binding and shadowing any number it spells, and nothing else: a line
      that does not use `symbol` evaluates as before. */
  lemma {:induction false} InsertOnlyAffectsItsSymbol<V(!new)>(ops: map<string, Operator<V>>, symbol: string, op: Operator<V>, parse: string -> Option<V>, s: seq<V>, ts: seq<string>)
    requires ValidRegistry(ops) && WellFormed(op)
    ensures ValidRegistry(ops[symbol := op])
    ensures Step(ops[symbol := op], parse, s, symbol) == Apply(op, s)
    ensures (forall k :: 0 <= k < |ts| ==> ts[k] != symbol) ==>
      EvalTokens(ops[symbol := op], parse, s, ts) == EvalTokens(ops, parse, s, ts)
    decreases |ts|
  {
    if ts != [] && forall k :: 0 <= k < |ts| ==> ts[k] != symbol {
      var e := Step(ops, parse, s, ts[0]);
      assert Step(ops[symbol := op], parse, s, ts[0]) == e;
      InsertOnlyAffectsItsSymbol(ops, symbol, op, parse, e.stack, ts[1..]);
    }
  }

  /** The calculator. The stack is an object of its own because each operator
      function is handed it by mutable reference. */
  class RpnCalculator<V(!new)> {
    const stack: CalcStack<V>
    var operators: map<string, Operator<V>>
    /** `str::parse::<f64>`, which this model does not describe. */
    const parse: string -> Option<V>

    ghost predicate Valid()
      reads this
    {
      ValidRegistry(operators)
    }

    /** `RpnCalculator::new`: an empty stack and the default operators. */
    constructor (arith: Arithmetic<V>, parse: string -> Option<V>)
      ensures Valid() && fresh(stack)
      ensures stack.items == [] && Top() == None
      ensures operators == DefaultRegistry(arith) && this.parse == parse
    {
      var ops := DefaultOperators(arith);
      DefaultRegistryShape(arith, "+", []);
      this.stack := new CalcStack();
      this.operators := ops;
      this.parse := parse;
    }

    /** `RpnCalculator::new_with_operators`: an empty stack and the given
        operators. */
    constructor WithOperators(operators: map<string, Operator<V>>, parse: string -> Option<V>)
      requires ValidRegistry(operators)
      ensures Valid() && fresh(stack)
      ensures stack.items == [] && Top() == None
      ensures this.operators == operators && this.parse == parse
    {
      this.stack := new CalcStack();
      this.operators := operators;
      this.parse := parse;
    }

    /** `top`: the last value pushed and not yet popped, if any. */
    function Top(): (r: Option<V>)
      reads stack
      ensures r.None? <==> stack.items == []
      ensures r.Some? ==> r.value == stack.items[|stack.items| - 1]
    {
      if stack.items == [] then None else Some(stack.items[|stack.items| - 1])
    }

    /** `ops.insert(symbol, op)` on this calculator's own registry, as
        `new_operator!(calc.operators, ...)` does. */
    method AddOperator(symbol: string, op: Operator<V>)
      requires Valid() && WellFormed(op)
      modifies this
      ensures Valid()
      ensures operators == old(operators)[symbol := op]
      ensures stack.items == old(stack.items)
    {
      InsertOnlyAffectsItsSymbol(operators, symbol, op, parse, [], []);
      operators := operators[symbol := op];
    }

    /** `evaluate`: runs the tokens of `input` in order and stops at the first
        error. Only the stack changes. */
    method Evaluate(input: string) returns (r: CalcResult)
      requires Valid()
      modifies stack
      ensures Effect(stack.items, r) == EvalTokens(operators, parse, old(stack.items), Tokens(input))
    {
      var tokens := Tokens(input);
      var i := 0;
      while i < |tokens|
        invariant 0 <= i <= |tokens|
        invariant EvalTokens(operators, parse, old(stack.items), tokens)
          == EvalTokens(operators, parse, stack.items, tokens[i..])
      {
        assert tokens[i..][0] == tokens[i] && tokens[i..][1..] == tokens[i + 1..];
        r := ParseToken(tokens[i]);
        if r.Err? {
          return;
        }
        i := i + 1;
      }
      r := Ok;
    }

    /** `parse_token`: dispatches a registry key to its operator, and hands
        anything else to `ParseAndPush`. */
    method ParseToken(token: string) returns (r: CalcResult)
      requires Valid()
      modifies stack
      ensures Effect(stack.items, r) == Step(operators, parse, old(stack.items), token)
    {
      if token in operators {
        var operator := operators[token];
        r := Invoke(operator, stack);
      } else {
        r := ParseAndPush(token);
      }
    }

    /** `parse_and_push`: pushes the number the token spells, or fails with
        `ParsingError` and pushes nothing. */
    method ParseAndPush(token: string) returns (r: CalcResult)
      modifies stack
      ensures Effect(stack.items, r) == PushLiteral(parse, old(stack.items), token)
    {
      match parse(token)
      case None =>
        return Err(ParsingError);
      case Some(value) =>
        stack.items := stack.items + [value];
        r := Ok;
    }
  }
}
