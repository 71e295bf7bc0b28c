/** Whole lines evaluated by the calculator, as its unit tests and the
    terminal front end use it. */
module Scenarios {
  import opened Tokenizer
  import opened Operators
  import opened Calculator

  lemma JoinThree(a: string, b: string, c: string)
    ensures Join([a, b, c]) == a + " " + b + " " + c
  {
    assert [a, b, c][1..] == [b, c] && [b, c][1..] == [c];
    assert Join([b, c]) == b + " " + c;
    assert a + " " + (b + " " + c) == a + " " + b + " " + c;
  }

  /** A one-character token is a default symbol only if it is one of the
      four operator characters. */
  lemma OneCharSymbol(c: char)
    ensures [c] in DefaultSymbols <==> c in {'+', '-', '*', '/'}
  {
    assert "+" == ['+'] && "-" == ['-'] && "*" == ['*'] && "/" == ['/'];
  }

  /** The tokens of a line made of three words separated by single spaces. */
  lemma TokensThree(a: string, b: string, c: string)
    requires IsWord(a) && IsWord(b) && IsWord(c)
    ensures Tokens(a + " " + b + " " + c) == [a, b, c]
  {
    JoinThree(a, b, c);
    TokensOfJoin([a, b, c]);
  }

  /** A three-token line is its three steps in turn, up to the first failure. */
  lemma EvalThree<V(!new)>(ops: map<string, Operator<V>>, parse: string -> Option<V>, s: seq<V>, a: string, b: string, c: string)
    requires ValidRegistry(ops)
    ensures EvalTokens(ops, parse, s, [a, b, c])
      == (var e1 := Step(ops, parse, s, a);
          if e1.result.Err? then e1
          else var e2 := Step(ops, parse, e1.stack, b);
          if e2.result.Err? then e2 else Step(ops, parse, e2.stack, c))
  {
    var ts := [a, b, c];
    assert ts[0] == a && ts[1..] == [b, c];
    assert [b, c][0] == b && [b, c][1..] == [c];
    assert [c][0] == c && [c][1..] == [];
    var e1 := Step(ops, parse, s, a);
    if e1.result.Ok? {
      var e2 := Step(ops, parse, e1.stack, b);
      assert EvalTokens(ops, parse, s, ts) == EvalTokens(ops, parse, e1.stack, [b, c]);
      if e2.result.Ok? {
        assert EvalTokens(ops, parse, e1.stack, [b, c]) == EvalTokens(ops, parse, e2.stack, [c]);
      }
    }
  }

  /** A line holding one token that is not an operator: a number is pushed
      and becomes the top; anything else fails with `ParsingError` and leaves
      the stack as it was. */
  lemma SingleLiteralLine<V(!new)>(ops: map<string, Operator<V>>, parse: string -> Option<V>, s: seq<V>, token: string)
    requires ValidRegistry(ops)
    requires IsWord(token) && token !in ops
    ensures parse(token).Some? ==> EvalTokens(ops, parse, s, Tokens(token)) == Effect(s + [parse(token).value], Ok)
    ensures parse(token).None? ==> EvalTokens(ops, parse, s, Tokens(token)) == Effect(s, Err(ParsingError))
  {
    TokensOfWord(token);
  }

  /** `x y OP` with a default operator leaves `x OP y` on top of what was
      there: the operand below the top is the left one, so `6 2 -` is 4. */
  lemma DefaultBinaryLine<V(!new)>(arith: Arithmetic<V>, parse: string -> Option<V>, s: seq<V>, a: string, b: string, symbol: string)
    requires IsWord(a) && IsWord(b) && a !in DefaultSymbols && b !in DefaultSymbols
    requires parse(a).Some? && parse(b).Some?
    requires symbol in DefaultSymbols
    ensures EvalTokens(DefaultRegistry(arith), parse, s, Tokens(a + " " + b + " " + symbol))
      == Effect(s + [DefaultFunction(arith, symbol)(parse(a).value, parse(b).value)], Ok)
  {
    var ops := DefaultRegistry(arith);
    var x, y := parse(a).value, parse(b).value;
    DefaultRegistryShape(arith, symbol, s + [x, y]);
    TokensThree(a, b, symbol);
    EvalThree(ops, parse, s, a, b, symbol);
    assert Step(ops, parse, s + [x], b) == Effect(s + [x, y], Ok) by {
      assert (s + [x]) + [y] == s + [x, y];
    }
    assert (s + [x, y])[..|s|] == s;
  }

  /** A default operator alone on a line, with fewer than two values on the
      stack, fails with `NotEnoughOperands` and pops nothing. */
  lemma LoneOperatorUnderflows<V(!new)>(arith: Arithmetic<V>, parse: string -> Option<V>, s: seq<V>, symbol: string)
    requires symbol in DefaultSymbols
    requires |s| < 2
    ensures EvalTokens(DefaultRegistry(arith), parse, s, Tokens(symbol)) == Effect(s, Err(NotEnoughOperands))
  {
    DefaultRegistryShape(arith, symbol, s);
    BinaryOpOnStack(DefaultFunction(arith, symbol), s);
    TokensOfWord(symbol);
  }

  /** The arity-0 operator that pushes `ten`, registered as `?` next to the
      defaults. */
  function PushTen<V(!new)>(ten: V): (op: Operator<V>)
    ensures WellFormed(op) && op.Fixed? && op.arity == 0
    ensures forall s :: Apply(op, s) == Effect(s + [ten], Ok)
  {
    Fixed(0, (xs: seq<V>) => Value(ten))
  }

  /** The three steps of `? 2 +` with `?` bound to `PushTen(ten)`. */
  lemma ExtensionSteps<V(!new)>(arith: Arithmetic<V>, parse: string -> Option<V>, s: seq<V>, ten: V, two: V)
    requires parse("2") == Some(two)
    requires ValidRegistry(DefaultRegistry(arith)["?" := PushTen(ten)])
    ensures Step(DefaultRegistry(arith)["?" := PushTen(ten)], parse, s, "?") == Effect(s + [ten], Ok)
    ensures Step(DefaultRegistry(arith)["?" := PushTen(ten)], parse, s + [ten], "2") == Effect(s + [ten, two], Ok)
    ensures Step(DefaultRegistry(arith)["?" := PushTen(ten)], parse, s + [ten, two], "+") == Effect(s + [arith.add(ten, two)], Ok)
  {
    var ops := DefaultRegistry(arith)["?" := PushTen(ten)];
    assert "2" !in ops by {
      OneCharSymbol('2');
      assert "2" == ['2'] && "?" == ['?'];
    }
    assert (s + [ten]) + [two] == s + [ten, two];
    DefaultRegistryShape(arith, "+", s + [ten, two]);
    assert ops["+"] == DefaultRegistry(arith)["+"];
    assert (s + [ten, two])[..|s|] == s;
  }

  /** An operator added under `?` composes with the built-ins in one line:
      `? 2 +` leaves `ten + two` on top. */
  lemma ExtensionComposes<V(!new)>(arith: Arithmetic<V>, parse: string -> Option<V>, s: seq<V>, ten: V, two: V)
    requires parse("2") == Some(two)
    ensures ValidRegistry(DefaultRegistry(arith)["?" := PushTen(ten)])
    ensures EvalTokens(DefaultRegistry(arith)["?" := PushTen(ten)], parse, s, Tokens("? 2 +"))
      == Effect(s + [arith.add(ten, two)], Ok)
  {
    InsertOnlyAffectsItsSymbol(DefaultRegistry(arith), "?", PushTen(ten), parse, s, []);
    assert Tokens("? 2 +") == ["?", "2", "+"] by {
      assert "? 2 +" == "?" + " " + "2" + " " + "+";
      TokensThree("?", "2", "+");
    }
    ExtensionSteps(arith, parse, s, ten, two);
    EvalThree(DefaultRegistry(arith)["?" := PushTen(ten)], parse, s, "?", "2", "+");
  }

  lemma DropLineTokens()
    ensures Tokens("2 3 ?") == ["2", "3", "?"]
  {
    assert "2 3 ?" == "2" + " " + "3" + " " + "?";
    TokensThree("2", "3", "?");
  }

  /** The three steps of `2 3 ?` with `?` bound to the drop operator. */
  lemma DropLineSteps<V(!new)>(arith: Arithmetic<V>, parse: string -> Option<V>, s: seq<V>, two: V, three: V)
    requires parse("2") == Some(two) && parse("3") == Some(three)
    requires ValidRegistry(DefaultRegistry(arith)["?" := DropOperator()])
    ensures Step(DefaultRegistry(arith)["?" := DropOperator()], parse, s, "2") == Effect(s + [two], Ok)
    ensures Step(DefaultRegistry(arith)["?" := DropOperator()], parse, s + [two], "3") == Effect(s + [two, three], Ok)
    ensures Step(DefaultRegistry(arith)["?" := DropOperator()], parse, s + [two, three], "?") == Effect(s + [two], Ok)
  {
    var ops := DefaultRegistry(arith)["?" := DropOperator()];
    assert "2" !in ops && "3" !in ops by {
      OneCharSymbol('2');
      OneCharSymbol('3');
      assert "2" == ['2'] && "3" == ['3'] && "?" == ['?'];
    }
    assert (s + [two]) + [three] == s + [two, three];
    assert ops["?"] == DropOperator();
    assert (s + [two, three])[..|s| + 1] == s + [two];
  }

  /** A raw operator under `?` that drops the top: `2 3 ?` leaves 2 on top. */
  lemma RawOperatorLine<V(!new)>(arith: Arithmetic<V>, parse: string -> Option<V>, s: seq<V>, two: V, three: V)
    requires parse("2") == Some(two) && parse("3") == Some(three)
    ensures ValidRegistry(DefaultRegistry(arith)["?" := DropOperator()])
    ensures EvalTokens(DefaultRegistry(arith)["?" := DropOperator()], parse, s, Tokens("2 3 ?"))
      == Effect(s + [two], Ok)
  {
    InsertOnlyAffectsItsSymbol(DefaultRegistry(arith), "?", DropOperator(), parse, s, []);
    DropLineTokens();
    DropLineSteps(arith, parse, s, two, three);
    EvalThree(DefaultRegistry(arith)["?" := DropOperator()], parse, s, "2", "3", "?");
  }

  /** With `q` bound to the quit operator, a line ends at its first `q` (if
      everything before it succeeded) with `Quit`, the stack as the tokens
      before it left it, and nothing after it run. */
  lemma QuitStopsTheLine<V(!new)>(ops: map<string, Operator<V>>, parse: string -> Option<V>, s: seq<V>, ts: seq<string>, i: nat)
    requires ValidRegistry(ops)
    requires "q" in ops && ops["q"] == QuitOperator()
    requires i < |ts| && ts[i] == "q"
    requires EvalTokens(ops, parse, s, ts[..i]).result.Ok?
    ensures EvalTokens(ops, parse, s, ts) == Effect(EvalTokens(ops, parse, s, ts[..i]).stack, Err(Quit))
  {
    FirstFailureDecides(ops, parse, s, ts, i);
  }

  /** The arity-2 operator that ignores its operands and yields `zero`,
      registered as `X`. */
  function ConstantOperator<V(!new)>(zero: V): (op: Operator<V>)
    ensures WellFormed(op) && op.Fixed? && op.arity == 2
    ensures forall xs :: |xs| == 2 ==> op.compute(xs) == Value(zero)
  {
    Fixed(2, (xs: seq<V>) requires |xs| == 2 => Value(zero))
  }

  /** The steps of `p q` and then `symbol`, with `symbol` bound to
      `ConstantOperator(zero)` next to the defaults. */
  lemma ConstantLineSteps<V(!new)>(arith: Arithmetic<V>, parse: string -> Option<V>, s: seq<V>,
                                   p: string, q: string, symbol: string, x: V, y: V, zero: V)
    requires p !in DefaultSymbols && q !in DefaultSymbols && p != symbol && q != symbol
    requires parse(p) == Some(x) && parse(q) == Some(y)
    requires ValidRegistry(DefaultRegistry(arith)[symbol := ConstantOperator(zero)])
    ensures Step(DefaultRegistry(arith)[symbol := ConstantOperator(zero)], parse, s, p) == Effect(s + [x], Ok)
    ensures Step(DefaultRegistry(arith)[symbol := ConstantOperator(zero)], parse, s + [x], q) == Effect(s + [x, y], Ok)
    ensures Step(DefaultRegistry(arith)[symbol := ConstantOperator(zero)], parse, s + [x, y], symbol) == Effect(s + [zero], Ok)
  {
    assert (s + [x]) + [y] == s + [x, y];
    FixedOperator(2, ConstantOperator(zero).compute, s + [x, y]);
    assert (s + [x, y])[..|s|] == s;
  }

  /** With `symbol` bound to `ConstantOperator(zero)` next to the defaults,
      a line `p q` of two numbers pushes both, and a following line `symbol`
      replaces the two by `zero`. */
  lemma PairThenConstant<V(!new)>(arith: Arithmetic<V>, parse: string -> Option<V>, s: seq<V>,
                                  p: string, q: string, symbol: string, x: V, y: V, zero: V)
    requires IsWord(p) && IsWord(q) && IsWord(symbol)
    requires p !in DefaultSymbols && q !in DefaultSymbols && p != symbol && q != symbol
    requires parse(p) == Some(x) && parse(q) == Some(y)
    ensures ValidRegistry(DefaultRegistry(arith)[symbol := ConstantOperator(zero)])
    ensures EvalTokens(DefaultRegistry(arith)[symbol := ConstantOperator(zero)], parse, s, Tokens(p + " " + q))
      == Effect(s + [x, y], Ok)
    ensures EvalTokens(DefaultRegistry(arith)[symbol := ConstantOperator(zero)], parse, s + [x, y], Tokens(symbol))
      == Effect(s + [zero], Ok)
  {
    var ops := DefaultRegistry(arith)[symbol := ConstantOperator(zero)];
    InsertOnlyAffectsItsSymbol(DefaultRegistry(arith), symbol, ConstantOperator(zero), parse, s, []);
    ConstantLineSteps(arith, parse, s, p, q, symbol, x, y, zero);
    assert EvalTokens(ops, parse, s, Tokens(p + " " + q)) == Effect(s + [x, y], Ok) by {
      assert p + " " + q == p + [' '] + q;
      TokensSplitAt(p, ' ', q);
      TokensOfWord(p);
      TokensOfWord(q);
      var ts := [p, q];
      assert Tokens(p + " " + q) == ts;
      assert ts[0] == p && ts[1..] == [q] && [q][1..] == [];
      assert EvalTokens(ops, parse, s, ts) == EvalTokens(ops, parse, s + [x], [q]);
    }
    assert EvalTokens(ops, parse, s + [x, y], Tokens(symbol)) == Effect(s + [zero], Ok) by {
      TokensOfWord(symbol);
      assert [symbol][1..] == [];
    }
  }

  /** A new calculator with `X` added: `2.5 3.2` succeeds with 3.2 on top,
      then `X` succeeds with `zero` on top. */
  method ConstantOperatorCalculator<V(!new)>(arith: Arithmetic<V>, parse: string -> Option<V>, a: V, b: V, zero: V)
      returns (first: CalcResult, firstTop: Option<V>, second: CalcResult, secondTop: Option<V>)
    requires parse("2.5") == Some(a) && parse("3.2") == Some(b)
    ensures first == Ok && firstTop == Some(b)
    ensures second == Ok && secondTop == Some(zero)
  {
    var calculator := new RpnCalculator(arith, parse);
    calculator.AddOperator("X", ConstantOperator(zero));
    assert "2.5" !in DefaultSymbols && "3.2" !in DefaultSymbols by {
      assert |"2.5"| == 3 && |"3.2"| == 3;
    }
    assert "2.5 3.2" == "2.5" + " " + "3.2";
    PairThenConstant(arith, parse, [], "2.5", "3.2", "X", a, b, zero);
    first := calculator.Evaluate("2.5 3.2");
    firstTop := calculator.Top();
    second := calculator.Evaluate("X");
    secondTop := calculator.Top();
  }

  /** A calculator built with a registry holding only a raw `?` that pushes
      `ten`: evaluating `?` succeeds and leaves `ten` on top. */
  method ConstructionTimeOperators<V(!new)>(parse: string -> Option<V>, ten: V) returns (r: CalcResult, top: Option<V>)
    ensures r == Ok && top == Some(ten)
  {
    var calculator := new RpnCalculator.WithOperators(map["?" := Raw((s: seq<V>) => Effect(s + [ten], Ok))], parse);
    TokensOfWord("?");
    r := calculator.Evaluate("?");
    top := calculator.Top();
  }

  /** A new calculator with `?` added that pushes `ten`: evaluating `? 2 +`
      succeeds and leaves `ten + two` on top. */
  method ExtendedCalculator<V(!new)>(arith: Arithmetic<V>, parse: string -> Option<V>, ten: V, two: V) returns (r: CalcResult, top: Option<V>)
    requires parse("2") == Some(two)
    ensures r == Ok && top == Some(arith.add(ten, two))
  {
    var calculator := new RpnCalculator(arith, parse);
    calculator.AddOperator("?", PushTen(ten));
    ExtensionComposes(arith, parse, [], ten, two);
    r := calculator.Evaluate("? 2 +");
    top := calculator.Top();
  }

  /** On a new calculator, `1.0` succeeds and a following `+` fails with
      `NotEnoughOperands`, leaving the value pushed by the first line on top:
      the stack persists between lines and the failed operator pops nothing. */
  method UnderflowKeepsStack<V(!new)>(arith: Arithmetic<V>, parse: string -> Option<V>, one: V) returns (first: CalcResult, second: CalcResult, top: Option<V>)
    requires parse("1.0") == Some(one)
    ensures first == Ok && second == Err(NotEnoughOperands) && top == Some(one)
  {
    var calculator := new RpnCalculator(arith, parse);
    SingleLiteralLine(calculator.operators, parse, [], "1.0");
    first := calculator.Evaluate("1.0");
    LoneOperatorUnderflows(arith, parse, [one], "+");
    second := calculator.Evaluate("+");
    top := calculator.Top();
  }
}
