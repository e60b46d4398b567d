/**
 * The expression grammar of the debugger command language
 * (src/debugger/dbglanguage.rs, the productions listed in __reduce):
 *
 *   Expression = Expression "+" Factor | Expression "-" Factor | Factor
 *   Factor     = Factor "*" Term | Factor "/" Term | Factor "%" Term | Term
 *   Term       = Number | "(" Expression ")"
 *   Number     = Hex | Decimal
 *
 * The generated parser runs LR tables over these productions; here they
 * are a recursive-descent specification over the token list the matcher
 * yields, with the left-recursive rules read as left folds. Parsing
 * builds a tree, and Eval runs the semantic actions over it.
 */
module DbgGrammar {
  import opened Options
  import opened DbgLexer
  import opened DbgNumbers

  /** An expression tree: a Number token, or an operator applied to two operands. */
  datatype Expr = Number(token: Token) | Binary(op: Op, left: Expr, right: Expr)

  /** The operators of Expression. */
  predicate Additive(op: Op) { op == Add || op == Sub }

  /** The operator token an Op is written with. */
  function OpToken(op: Op): Token
  {
    match op
    case Add => Token(PlusTok, "+")
    case Sub => Token(MinusTok, "-")
    case Mul => Token(StarTok, "*")
    case Div => Token(SlashTok, "/")
    case Rem => Token(PercentTok, "%")
  }

  /** The operator of Expression a token stands for, if any. */
  function AdditiveOp(t: Token): Option<Op>
  {
    if t.kind == PlusTok then Some(Add) else if t.kind == MinusTok then Some(Sub) else None
  }

  /** The operator of Factor a token stands for, if any. */
  function MultiplicativeOp(t: Token): Option<Op>
  {
    if t.kind == StarTok then Some(Mul)
    else if t.kind == SlashTok then Some(Div)
    else if t.kind == PercentTok then Some(Rem)
    else None
  }

  /** Number = Hex | Decimal: the two literal terminals. */
  predicate IsNumber(t: Token) { t.kind == DecimalTok || t.kind == HexTok }

  /** Expression: a Factor followed by any number of ("+" | "-") Factor, folded to the left. */
  function ParseExpression(ts: seq<Token>): (r: Option<(Expr, seq<Token>)>)
    ensures r.Some? ==> |r.value.1| < |ts|
    decreases |ts|, 3
  {
    match ParseFactor(ts)
    case None => None
    case Some((first, rest)) => ExpressionTail(first, rest)
  }

  /** The ("+" | "-") Factor repetitions after `acc`, each applied to the tree built so far. */
  function ExpressionTail(acc: Expr, ts: seq<Token>): (r: Option<(Expr, seq<Token>)>)
    ensures r.Some? ==> |r.value.1| <= |ts|
    decreases |ts|, 2
  {
    if ts != [] && AdditiveOp(ts[0]).Some? then
      match ParseFactor(ts[1..])
      case None => None
      case Some((operand, rest)) => ExpressionTail(Binary(AdditiveOp(ts[0]).value, acc, operand), rest)
    else Some((acc, ts))
  }

  /** Factor: a Term followed by any number of ("*" | "/" | "%") Term, folded to the left. */
  function ParseFactor(ts: seq<Token>): (r: Option<(Expr, seq<Token>)>)
    ensures r.Some? ==> |r.value.1| < |ts|
    decreases |ts|, 1
  {
    match ParseTerm(ts)
    case None => None
    case Some((first, rest)) => FactorTail(first, rest)
  }

  /** The ("*" | "/" | "%") Term repetitions after `acc`. */
  function FactorTail(acc: Expr, ts: seq<Token>): (r: Option<(Expr, seq<Token>)>)
    ensures r.Some? ==> |r.value.1| <= |ts|
    decreases |ts|, 0
  {
    if ts != [] && MultiplicativeOp(ts[0]).Some? then
      match ParseTerm(ts[1..])
      case None => None
      case Some((operand, rest)) => FactorTail(Binary(MultiplicativeOp(ts[0]).value, acc, operand), rest)
    else Some((acc, ts))
  }

  /** Term: a Number token, or an Expression in parentheses. */
  function ParseTerm(ts: seq<Token>): (r: Option<(Expr, seq<Token>)>)
    ensures r.Some? ==> |r.value.1| < |ts|
    decreases |ts|, 0
  {
    if ts == [] then None
    else if IsNumber(ts[0]) then Some((Number(ts[0]), ts[1..]))
    else if ts[0].kind == LParenTok then
      match ParseExpression(ts[1..])
      case None => None
      case Some((inner, rest)) =>
        if rest != [] && rest[0].kind == RParenTok then Some((inner, rest[1..])) else None
    else None
  }

  /** An Expression that spans the whole token list. */
  function ParseWhole(ts: seq<Token>): Option<Expr>
  {
    match ParseExpression(ts)
    case Some((e, rest)) => if rest == [] then Some(e) else None
    case None => None
  }

  /** Every leaf of the tree is a Number token. */
  predicate WellFormed(e: Expr)
  {
    match e
    case Number(t) => IsNumber(t)
    case Binary(_, l, r) => WellFormed(l) && WellFormed(r)
  }

  /** The rank of a tree in the printer's and the round trip's termination measure. */
  function FactorRank(e: Expr): nat { if e.Binary? && Additive(e.op) then 4 else 1 }

  function TermRank(e: Expr): nat { if e.Binary? then 3 else 0 }

  /** The tokens of a tree at the Expression level, with the fewest parentheses the grammar needs. */
  function PrintExpression(e: Expr): seq<Token>
    decreases e, 2
  {
    if e.Binary? && Additive(e.op) then PrintExpression(e.left) + [OpToken(e.op)] + PrintFactor(e.right)
    else PrintFactor(e)
  }

  /** The tokens of a tree at the Factor level. */
  function PrintFactor(e: Expr): seq<Token>
    decreases e, FactorRank(e)
  {
    if e.Binary? && !Additive(e.op) then PrintFactor(e.left) + [OpToken(e.op)] + PrintTerm(e.right)
    else PrintTerm(e)
  }

  /** The tokens of a tree at the Term level: a number, or a parenthesised expression. */
  function PrintTerm(e: Expr): seq<Token>
    decreases e, TermRank(e)
  {
    if e.Number? then [e.token] else [Token(LParenTok, "(")] + PrintExpression(e) + [Token(RParenTok, ")")]
  }

  /** The token after an expression is not an operator of Factor. */
  predicate NoFactorOp(rest: seq<Token>) { rest == [] || MultiplicativeOp(rest[0]).None? }

  /** The token after an expression is no operator at all. */
  predicate NoOperator(rest: seq<Token>) { NoFactorOp(rest) && (rest == [] || AdditiveOp(rest[0]).None?) }

  /** Parsing a printed Term gives the tree back, whatever follows it. */
  lemma {:induction false} TermRoundTrip(e: Expr, rest: seq<Token>)
    requires WellFormed(e)
    ensures ParseTerm(PrintTerm(e) + rest) == Some((e, rest))
    decreases e, TermRank(e)
  {
    if e.Number? {
      assert ([e.token] + rest)[1..] == rest;
    } else {
      var close := Token(RParenTok, ")");
      var inner := PrintExpression(e) + ([close] + rest);
      assert PrintTerm(e) + rest == [Token(LParenTok, "(")] + inner;
      assert (PrintTerm(e) + rest)[1..] == inner;
      ExpressionRoundTrip(e, [close] + rest);
      assert ([close] + rest)[1..] == rest;
    }
  }

  /** Parsing a printed Factor reads the tree and then goes on with the Factor operators that follow. */
  lemma {:induction false} FactorRoundTrip(e: Expr, rest: seq<Token>)
    requires WellFormed(e)
    ensures ParseFactor(PrintFactor(e) + rest) == FactorTail(e, rest)
    decreases e, FactorRank(e)
  {
    if e.Binary? && !Additive(e.op) {
      var after := [OpToken(e.op)] + PrintTerm(e.right) + rest;
      assert PrintFactor(e) + rest == PrintFactor(e.left) + after;
      FactorRoundTrip(e.left, after);
      assert after[1..] == PrintTerm(e.right) + rest;
      TermRoundTrip(e.right, rest);
    } else {
      TermRoundTrip(e, rest);
    }
  }

  /** Parsing a printed Expression reads the tree and then goes on with the Expression operators that follow. */
  lemma {:induction false} ExpressionRoundTrip(e: Expr, rest: seq<Token>)
    requires WellFormed(e) && NoFactorOp(rest)
    ensures ParseExpression(PrintExpression(e) + rest) == ExpressionTail(e, rest)
    decreases e, 2
  {
    if e.Binary? && Additive(e.op) {
      var after := [OpToken(e.op)] + PrintFactor(e.right) + rest;
      assert PrintExpression(e) + rest == PrintExpression(e.left) + after;
      ExpressionRoundTrip(e.left, after);
      assert after[1..] == PrintFactor(e.right) + rest;
      FactorRoundTrip(e.right, rest);
      assert FactorTail(e.right, rest) == Some((e.right, rest));
      assert AdditiveOp(after[0]) == Some(e.op);
    } else {
      FactorRoundTrip(e, rest);
      assert FactorTail(e, rest) == Some((e, rest));
    }
  }

  /**
   * The printed form of every tree parses back to that tree: parsing is
   * left-associative, puts * / % below + -, and honours parentheses.
   */
  lemma PrintParse(e: Expr)
    requires WellFormed(e)
    ensures ParseWhole(PrintExpression(e)) == Some(e)
  {
    ExpressionRoundTrip(e, []);
    assert PrintExpression(e) + [] == PrintExpression(e);
  }

  /** A number prints as its own token at every level. */
  lemma PrintNumber(t: Token)
    ensures PrintExpression(Number(t)) == [t] && PrintFactor(Number(t)) == [t] && PrintTerm(Number(t)) == [t]
  {
    assert PrintTerm(Number(t)) == [t];
    assert PrintFactor(Number(t)) == [t];
  }

  /** `a - b - c` (and any mix of + and -) groups to the left. */
  lemma AdditiveLeftAssociative(a: Token, b: Token, c: Token, op1: Op, op2: Op)
    requires IsNumber(a) && IsNumber(b) && IsNumber(c) && Additive(op1) && Additive(op2)
    ensures ParseWhole([a, OpToken(op1), b, OpToken(op2), c])
      == Some(Binary(op2, Binary(op1, Number(a), Number(b)), Number(c)))
  {
    var e := Binary(op2, Binary(op1, Number(a), Number(b)), Number(c));
    PrintNumber(a);
    PrintNumber(b);
    PrintNumber(c);
    PrintParse(e);
    assert PrintExpression(e.left) == [a, OpToken(op1), b];
    assert PrintExpression(e) == [a, OpToken(op1), b, OpToken(op2), c];
  }

  /** `a / b * c` (and any mix of * / %) groups to the left. */
  lemma MultiplicativeLeftAssociative(a: Token, b: Token, c: Token, op1: Op, op2: Op)
    requires IsNumber(a) && IsNumber(b) && IsNumber(c) && !Additive(op1) && !Additive(op2)
    ensures ParseWhole([a, OpToken(op1), b, OpToken(op2), c])
      == Some(Binary(op2, Binary(op1, Number(a), Number(b)), Number(c)))
  {
    var e := Binary(op2, Binary(op1, Number(a), Number(b)), Number(c));
    PrintNumber(a);
    PrintNumber(b);
    PrintNumber(c);
    PrintParse(e);
    assert PrintFactor(e.left) == [a, OpToken(op1), b];
    assert PrintFactor(e) == [a, OpToken(op1), b, OpToken(op2), c];
    assert PrintExpression(e) == [a, OpToken(op1), b, OpToken(op2), c];
  }

  /** * / % bind tighter than + - on either side. */
  lemma Precedence(a: Token, b: Token, c: Token, add: Op, mul: Op)
    requires IsNumber(a) && IsNumber(b) && IsNumber(c) && Additive(add) && !Additive(mul)
    ensures ParseWhole([a, OpToken(add), b, OpToken(mul), c])
      == Some(Binary(add, Number(a), Binary(mul, Number(b), Number(c))))
    ensures ParseWhole([a, OpToken(mul), b, OpToken(add), c])
      == Some(Binary(add, Binary(mul, Number(a), Number(b)), Number(c)))
  {
    PrintNumber(a);
    PrintNumber(b);
    PrintNumber(c);
    var e1 := Binary(add, Number(a), Binary(mul, Number(b), Number(c)));
    PrintParse(e1);
    assert PrintFactor(e1.right) == [b, OpToken(mul), c];
    assert PrintExpression(e1) == [a, OpToken(add), b, OpToken(mul), c];
    var e2 := Binary(add, Binary(mul, Number(a), Number(b)), Number(c));
    PrintParse(e2);
    assert PrintFactor(e2.left) == [a, OpToken(mul), b];
    assert PrintExpression(e2.left) == [a, OpToken(mul), b];
    assert PrintExpression(e2) == [a, OpToken(mul), b, OpToken(add), c];
  }

  /** Parentheses override precedence: `(a + b) * c` multiplies the sum. */
  lemma Parentheses(a: Token, b: Token, c: Token, add: Op, mul: Op)
    requires IsNumber(a) && IsNumber(b) && IsNumber(c) && Additive(add) && !Additive(mul)
    ensures ParseWhole([Token(LParenTok, "("), a, OpToken(add), b, Token(RParenTok, ")"), OpToken(mul), c])
      == Some(Binary(mul, Binary(add, Number(a), Number(b)), Number(c)))
  {
    var e := Binary(mul, Binary(add, Number(a), Number(b)), Number(c));
    PrintNumber(a);
    PrintNumber(b);
    PrintNumber(c);
    PrintParse(e);
    assert PrintExpression(e.left) == [a, OpToken(add), b];
    assert PrintTerm(e.left) == [Token(LParenTok, "("), a, OpToken(add), b, Token(RParenTok, ")")];
    assert PrintFactor(e.left) == PrintTerm(e.left);
    assert PrintFactor(e) == [Token(LParenTok, "("), a, OpToken(add), b, Token(RParenTok, ")"), OpToken(mul), c];
    assert PrintExpression(e) == [Token(LParenTok, "("), a, OpToken(add), b, Token(RParenTok, ")"), OpToken(mul), c];
  }

  /** __action21..__action26: the value of a Number token, read as hexadecimal or decimal. */
  function NumberValue(t: Token): Outcome<int>
  {
    if t.kind == HexTok then FromHex(t.text) else FromStr(t.text)
  }

  /**
   * The semantic actions over a tree: numbers read by from_str /
   * from_str_radix, the operators computed in i32. Any panic below a node
   * is a panic of the whole parse.
   */
  function Eval(e: Expr): (r: Outcome<int>)
    ensures r != Rejected && (r.Ok? ==> InI32(r.value))
  {
    match e
    case Number(t) => NumberValue(t)
    case Binary(op, l, r) =>
      match Eval(l)
      case Ok(a) => (
        match Eval(r)
        case Ok(b) => Apply(op, a, b)
        case _ => Panic)
      case _ => Panic
  }
}
