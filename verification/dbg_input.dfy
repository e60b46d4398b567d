/**
 * The commands of the debugger language and the two entry points of the
 * generated parser, parse_Input and parse_Number
 * (src/debugger/dbglanguage.rs):
 *
 *   Input         = Run | Reset | Step | SetUnsetValue | Expression
 *   SetUnsetValue = "watch" Space? Expression | "unwatch" Space? Expression
 *                 | "set" Space+ "breakpoint" Space? Expression
 *                 | "unset" Space+ "breakpoint" Space? Expression
 *   Space         = " " | "\\t"
 *
 * The matcher skips whitespace, so the only Space token it ever yields is
 * the two-character "\\t"; Space+ therefore makes "set breakpoint 1"
 * unparseable. The model keeps that grammar (ParseInputAsWritten) and uses
 * the evidently intended Space* (ParseInput) everywhere else.
 */
module DbgInput {
  import opened Options
  import opened DbgLexer
  import opened DbgLanguage
  import opened DbgNumbers
  import opened DbgGrammar

  /** The parse tree of an Input. */
  datatype Command =
    | RunInput
    | ResetInput
    | StepInput
    | WatchInput(value: Expr)
    | UnwatchInput(value: Expr)
    | SetBreakInput(value: Expr)
    | UnsetBreakInput(value: Expr)
    | EchoInput(value: Expr)

  /** Space = " " | "\\t". */
  predicate IsSpace(t: Token) { t.kind == SpaceTok || t.kind == TabTok }

  /** The number of Space tokens at the head of the list. */
  function LeadingSpaces(ts: seq<Token>): (n: nat)
    ensures n <= |ts| && (n < |ts| ==> !IsSpace(ts[n]))
    ensures forall i :: 0 <= i < n ==> IsSpace(ts[i])
    decreases |ts|
  {
    if ts != [] && IsSpace(ts[0]) then 1 + LeadingSpaces(ts[1..]) else 0
  }

  /** `Space? Expression`: at most one Space, then an Expression spanning the rest. */
  function ParseValue(ts: seq<Token>): Option<Expr>
  {
    if ts != [] && IsSpace(ts[0]) then ParseWhole(ts[1..]) else ParseWhole(ts)
  }

  /**
   * Input over the whole token list. `minSpaces` is the number of Space
   * tokens "set" and "unset" need before "breakpoint": one for the Space+
   * of the generated grammar, none for Space*.
   */
  function ParseCommandWith(ts: seq<Token>, minSpaces: nat): Option<Command>
  {
    if ts == [] then None
    else
      var k := ts[0].kind;
      if k == RunTok || k == ResetTok || k == StepTok then
        if |ts| == 1 then Some(if k == RunTok then RunInput else if k == ResetTok then ResetInput else StepInput)
        else None
      else if k == WatchTok || k == UnwatchTok then
        match ParseValue(ts[1..])
        case None => None
        case Some(e) => Some(if k == WatchTok then WatchInput(e) else UnwatchInput(e))
      else if k == SetTok || k == UnsetTok then
        var n := LeadingSpaces(ts[1..]);
        if n < minSpaces || 1 + n >= |ts| || ts[1 + n].kind != BreakpointTok then None
        else
          match ParseValue(ts[2 + n..])
          case None => None
          case Some(e) => Some(if k == SetTok then SetBreakInput(e) else UnsetBreakInput(e))
      else
        match ParseWhole(ts)
        case None => None
        case Some(e) => Some(EchoInput(e))
  }

  /** Input as the generated grammar has it, with Space+ before "breakpoint". */
  function ParseCommandAsWritten(ts: seq<Token>): Option<Command>
  {
    ParseCommandWith(ts, 1)
  }

  /** Input with Space* before "breakpoint", as the matcher's whitespace skipping calls for. */
  function ParseCommand(ts: seq<Token>): Option<Command>
  {
    ParseCommandWith(ts, 0)
  }

  /** The address an expression names: its i32 value cast `as u16`. */
  function AddressOf(e: Expr): (r: Outcome<Addr>)
    ensures r != Rejected && (r.Panic? <==> Eval(e).Panic?)
    ensures r.Ok? ==> (r.value - Eval(e).value) % 0x1_0000 == 0
  {
    match Eval(e)
    case Ok(v) => Ok(AsU16(v))
    case _ => Panic
  }

  /**
   * The semantic actions of Input (__action2..__action13 and
   * __action33..__action40): the command's action, with Echo carrying the
   * decimal rendering of the value and the address commands its low
   * sixteen bits.
   */
  function Execute(c: Command): (r: Outcome<DebuggerAction>)
    ensures r != Rejected
    ensures r.Panic? <==> !(c.RunInput? || c.ResetInput? || c.StepInput?) && Eval(c.value).Panic?
    ensures c.EchoInput? && r.Ok? ==>
      r.value.Echo? && IsDecimal(r.value.str) && Eval(c.value) == Ok(DecimalValue(r.value.str))
    ensures (c.WatchInput? || c.UnwatchInput? || c.SetBreakInput? || c.UnsetBreakInput?) && r.Ok? ==>
      (r.value.WatchPoint? || r.value.UnwatchPoint? || r.value.SetBreakPoint? || r.value.UnsetBreakPoint?)
      && (r.value.addr - Eval(c.value).value) % 0x1_0000 == 0
  {
    match c
    case RunInput => Ok(Run)
    case ResetInput => Ok(Reset)
    case StepInput => Ok(Step)
    case EchoInput(e) =>
      (match Eval(e)
       case Ok(v) => RenderReadsBack(v); Ok(Echo(Render(v)))
       case _ => Panic)
    case WatchInput(e) => (match AddressOf(e) case Ok(a) => Ok(WatchPoint(a)) case _ => Panic)
    case UnwatchInput(e) => (match AddressOf(e) case Ok(a) => Ok(UnwatchPoint(a)) case _ => Panic)
    case SetBreakInput(e) => (match AddressOf(e) case Ok(a) => Ok(SetBreakPoint(a)) case _ => Panic)
    case UnsetBreakInput(e) => (match AddressOf(e) case Ok(a) => Ok(UnsetBreakPoint(a)) case _ => Panic)
  }

  /** Lexing, parsing and the semantic actions of parse_Input, for either Space rule. */
  function ParseInputWith(s: string, minSpaces: nat): Outcome<DebuggerAction>
  {
    match Tokens(s, 0)
    case LexError(_) => Rejected
    case Lexemes(ts) =>
      match ParseCommandWith(ts, minSpaces)
      case None => Rejected
      case Some(c) => Execute(c)
  }

  /** parse_Input as generated. */
  function ParseInputAsWritten(s: string): Outcome<DebuggerAction>
  {
    ParseInputWith(s, 1)
  }

  /** parse_Input with the corrected Space rule. */
  function ParseInput(s: string): Outcome<DebuggerAction>
  {
    ParseInputWith(s, 0)
  }

  /** parse_Number: the whole input is one Number, read as an i32. */
  function ParseNumber(s: string): Outcome<int>
  {
    match Tokens(s, 0)
    case LexError(_) => Rejected
    case Lexemes(ts) => if |ts| == 1 && IsNumber(ts[0]) then NumberValue(ts[0]) else Rejected
  }

  /** The tokens of a command, with one "\\t" Space before "breakpoint". */
  function PrintCommand(c: Command): seq<Token>
  {
    match c
    case RunInput => [Token(RunTok, "run")]
    case ResetInput => [Token(ResetTok, "reset")]
    case StepInput => [Token(StepTok, "step")]
    case WatchInput(e) => [Token(WatchTok, "watch")] + PrintExpression(e)
    case UnwatchInput(e) => [Token(UnwatchTok, "unwatch")] + PrintExpression(e)
    case SetBreakInput(e) => [Token(SetTok, "set"), Token(TabTok, "\\t"), Token(BreakpointTok, "breakpoint")] + PrintExpression(e)
    case UnsetBreakInput(e) => [Token(UnsetTok, "unset"), Token(TabTok, "\\t"), Token(BreakpointTok, "breakpoint")] + PrintExpression(e)
    case EchoInput(e) => PrintExpression(e)
  }

  /** Every expression in the command is well formed. */
  predicate CommandWellFormed(c: Command)
  {
    c.RunInput? || c.ResetInput? || c.StepInput? || WellFormed(c.value)
  }

  /** A printed Factor starts with a number or "(". */
  lemma {:induction false} FactorStarts(e: Expr)
    requires WellFormed(e)
    ensures PrintFactor(e) != [] && (IsNumber(PrintFactor(e)[0]) || PrintFactor(e)[0].kind == LParenTok)
    decreases e
  {
    if e.Binary? && !Additive(e.op) {
      FactorStarts(e.left);
    }
  }

  /** A printed Expression starts with a number or "(". */
  lemma {:induction false} ExpressionStarts(e: Expr)
    requires WellFormed(e)
    ensures PrintExpression(e) != [] && (IsNumber(PrintExpression(e)[0]) || PrintExpression(e)[0].kind == LParenTok)
    decreases e
  {
    if e.Binary? && Additive(e.op) {
      ExpressionStarts(e.left);
    } else {
      FactorStarts(e);
    }
  }

  /** A printed breakpoint command parses back to itself, under either Space rule. */
  lemma BreakpointRoundTrip(c: Command, minSpaces: nat)
    requires (c.SetBreakInput? || c.UnsetBreakInput?) && WellFormed(c.value) && minSpaces <= 1
    ensures ParseCommandWith(PrintCommand(c), minSpaces) == Some(c)
  {
    var e := c.value;
    PrintParse(e);
    ExpressionStarts(e);
    var ts := PrintCommand(c);
    assert ts[1..][1..] == ts[2..] && ts[2..][0].kind == BreakpointTok;
    assert LeadingSpaces(ts[2..]) == 0;
    assert LeadingSpaces(ts[1..]) == 1;
    assert ts[3..] == PrintExpression(e);
  }

  /** Every printed command parses back to itself, under either Space rule. */
  lemma CommandRoundTrip(c: Command, minSpaces: nat)
    requires CommandWellFormed(c) && minSpaces <= 1
    ensures ParseCommandWith(PrintCommand(c), minSpaces) == Some(c)
  {
    if c.SetBreakInput? || c.UnsetBreakInput? {
      BreakpointRoundTrip(c, minSpaces);
    } else if !(c.RunInput? || c.ResetInput? || c.StepInput?) {
      var e := c.value;
      PrintParse(e);
      ExpressionStarts(e);
      if !c.EchoInput? {
        assert PrintCommand(c)[1..] == PrintExpression(e);
      }
    }
  }

  /** A word that spells a terminal lexes, alone, to that one token. */
  lemma LexWord(w: string, consumed: nat)
    requires w != [] && !IsWhitespace(w[0]) && KindOf(w).Some?
    ensures Tokens(w, consumed) == Lexemes([Token(KindOf(w).value, w)])
  {
    assert w + [] == w;
    TokensEmpty(consumed + |w|);
    TokensWord(w, [], consumed);
  }

  /** parse_Number of a single literal is the value of that literal, read in its base. */
  lemma ParseNumberWord(w: string)
    requires IsDecimal(w) || IsHex(w)
    ensures ParseNumber(w) == if IsDecimal(w) then FromStr(w) else FromHex(w)
  {
    LexWord(w, 0);
  }

  /** parse_Number accepts "12", with the value 12. */
  lemma NumberDecimalExample()
    ensures ParseNumber("12") == Ok(12)
  {
    ParseNumberWord("12");
    ShortDigits('1', '2', 10);
  }

  /** parse_Number accepts "-02", with the value -2. */
  lemma NumberNegativeExample()
    ensures ParseNumber("-02") == Ok(-2)
  {
    ParseNumberWord("-02");
    assert "-02"[1..] == "02";
    ShortDigits('0', '2', 10);
  }

  /** parse_Number accepts "0x12", with the value 18. */
  lemma NumberHexExample()
    ensures ParseNumber("0x12") == Ok(18)
  {
    ParseNumberWord("0x12");
    assert "0x12"[2..] == "12";
    ShortDigits('1', '2', 16);
    assert !IsDecimal("0x12") && IsHex("0x12");
    assert HexValue("0x12") == 18;
  }

  /** "run" alone is the Run action. */
  lemma RunExample()
    ensures ParseInput("run") == Ok(Run) && ParseInputAsWritten("run") == Ok(Run)
  {
    LexWord("run", 0);
  }

  /** The tokens of "9 - 4 - 3" group to the left. */
  lemma EchoParseExample()
    ensures ParseCommand([Token(DecimalTok, "9"), Token(MinusTok, "-"), Token(DecimalTok, "4"),
                          Token(MinusTok, "-"), Token(DecimalTok, "3")])
      == Some(EchoInput(Binary(Sub, Binary(Sub, Number(Token(DecimalTok, "9")), Number(Token(DecimalTok, "4"))),
                               Number(Token(DecimalTok, "3")))))
  {
    AdditiveLeftAssociative(Token(DecimalTok, "9"), Token(DecimalTok, "4"), Token(DecimalTok, "3"), Sub, Sub);
  }

  /** (9 - 4) - 3 echoes "2". */
  lemma EchoValueExample()
    ensures Execute(EchoInput(Binary(Sub, Binary(Sub, Number(Token(DecimalTok, "9")), Number(Token(DecimalTok, "4"))),
                                     Number(Token(DecimalTok, "3"))))) == Ok(Echo("2"))
  {
    ShortDigits('9', '0', 10);
    ShortDigits('4', '0', 10);
    ShortDigits('3', '0', 10);
    assert NumberValue(Token(DecimalTok, "9")) == Ok(9);
    assert NumberValue(Token(DecimalTok, "4")) == Ok(4);
    assert NumberValue(Token(DecimalTok, "3")) == Ok(3);
    assert Render(2) == "2";
  }

  /** "watch -1" watches address 0xFFFF: the value is cut to sixteen bits. */
  lemma WatchExample()
    ensures ParseCommand([Token(WatchTok, "watch"), Token(DecimalTok, "-1")]) == Some(WatchInput(Number(Token(DecimalTok, "-1"))))
    ensures Execute(WatchInput(Number(Token(DecimalTok, "-1")))) == Ok(WatchPoint(0xFFFF))
  {
    var t := Token(DecimalTok, "-1");
    PrintNumber(t);
    PrintParse(Number(t));
    assert [Token(WatchTok, "watch"), t][1..] == [t];
    assert "-1"[1..] == "1";
    ShortDigits('1', '0', 10);
  }

  /** Division by zero in an expression panics. */
  lemma DivideByZeroExample()
    ensures Execute(EchoInput(Binary(Div, Number(Token(DecimalTok, "1")), Number(Token(DecimalTok, "0"))))) == Panic
  {
  }

  /** A breakpoint command whose "breakpoint" follows "set" or "unset" directly. */
  predicate BareBreakpoint(ts: seq<Token>)
  {
    |ts| >= 2 && (ts[0].kind == SetTok || ts[0].kind == UnsetTok) && ts[1].kind == BreakpointTok
  }

  /** With Space+, "breakpoint" directly after "set" or "unset" is a syntax error. */
  lemma BareBreakpointAsWritten(ts: seq<Token>)
    requires BareBreakpoint(ts)
    ensures ParseCommandAsWritten(ts) == None
  {
    assert ts[1..][0] == ts[1];
    assert LeadingSpaces(ts[1..]) == 0;
  }

  /** With Space*, "breakpoint" directly after "set" or "unset" is followed by the value. */
  lemma BareBreakpointCorrected(ts: seq<Token>)
    requires BareBreakpoint(ts)
    ensures ParseCommand(ts) == match ParseValue(ts[2..])
      case None => None
      case Some(e) => Some(if ts[0].kind == SetTok then SetBreakInput(e) else UnsetBreakInput(e))
  {
    assert ts[1..][0] == ts[1];
    assert LeadingSpaces(ts[1..]) == 0;
  }

  /**
   * As generated, "set" and "unset" reach "breakpoint" only across a Space
   * token, and the matcher never yields " ": an input whose tokens begin
   * "set breakpoint" or "unset breakpoint", such as "set breakpoint 1", is
   * rejected.
   */
  lemma SetBreakpointAsWritten(s: string)
    requires Tokens(s, 0).Lexemes? && BareBreakpoint(Tokens(s, 0).tokens)
    ensures ParseInputAsWritten(s) == Rejected
  {
    BareBreakpointAsWritten(Tokens(s, 0).tokens);
  }

  /** As generated, a breakpoint command parses only when a "\\t" token follows "set" or "unset". */
  lemma AsWrittenNeedsTab(s: string)
    requires ParseInputAsWritten(s).Ok?
    requires ParseInputAsWritten(s).value.SetBreakPoint? || ParseInputAsWritten(s).value.UnsetBreakPoint?
    ensures Tokens(s, 0).Lexemes? && |Tokens(s, 0).tokens| >= 2 && Tokens(s, 0).tokens[1].kind == TabTok
  {
    var ts := Tokens(s, 0).tokens;
    var c := ParseCommandAsWritten(ts).value;
    assert c.SetBreakInput? || c.UnsetBreakInput?;
    assert ts[1..][0] == ts[1];
  }

  /**
   * With Space* the same inputs parse: "set" or "unset" directly followed
   * by "breakpoint" and an expression gives the breakpoint action.
   */
  lemma SetBreakpointAccepted(s: string, e: Expr)
    requires WellFormed(e)
    requires Tokens(s, 0).Lexemes? && BareBreakpoint(Tokens(s, 0).tokens)
    requires Tokens(s, 0).tokens[2..] == PrintExpression(e)
    ensures ParseInput(s) == Execute(if Tokens(s, 0).tokens[0].kind == SetTok then SetBreakInput(e) else UnsetBreakInput(e))
  {
    var ts := Tokens(s, 0).tokens;
    BareBreakpointCorrected(ts);
    ExpressionStarts(e);
    PrintParse(e);
  }
}
