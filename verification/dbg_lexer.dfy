/**
 * The lexer generated for the debugger command language
 * (src/debugger/dbglanguage.rs, module __intern_token).
 *
 * __tokenize runs a DFA over the characters of its input and returns the
 * longest prefix that spells a terminal, with the terminal's index.
 * __Matcher skips leading whitespace before each call and hands the parser
 * one located token at a time. Text is a sequence of characters and the
 * offsets count characters, which are the byte offsets of the source for
 * ASCII input.
 */
module DbgLexer {
  import opened Options

  /** Terminal indices, in the order the generated parser numbers them. */
  const SpaceTok: nat := 0
  const PercentTok: nat := 1
  const LParenTok: nat := 2
  const RParenTok: nat := 3
  const StarTok: nat := 4
  const PlusTok: nat := 5
  const MinusTok: nat := 6
  const SlashTok: nat := 7
  const TabTok: nat := 8
  const BreakpointTok: nat := 9
  const ResetTok: nat := 10
  const RunTok: nat := 11
  const SetTok: nat := 12
  const StepTok: nat := 13
  const UnsetTok: nat := 14
  const UnwatchTok: nat := 15
  const WatchTok: nat := 16
  const DecimalTok: nat := 17
  const HexTok: nat := 18

  /** The spelling of each fixed terminal; "\\t" is a backslash followed by `t`. */
  function Literal(k: nat): string
    requires k <= WatchTok
  {
    match k
    case 0 => " "
    case 1 => "%"
    case 2 => "("
    case 3 => ")"
    case 4 => "*"
    case 5 => "+"
    case 6 => "-"
    case 7 => "/"
    case 8 => "\\t"
    case 9 => "breakpoint"
    case 10 => "reset"
    case 11 => "run"
    case 12 => "set"
    case 13 => "step"
    case 14 => "unset"
    case 15 => "unwatch"
    case _ => "watch"
  }

  predicate IsDigit(c: char) { '0' <= c <= '9' }

  predicate IsHexDigit(c: char) { IsDigit(c) || 'a' <= c <= 'f' || 'A' <= c <= 'F' }

  predicate AllDigits(s: string) { forall i :: 0 <= i < |s| ==> IsDigit(s[i]) }

  predicate AllHexDigits(s: string) { forall i :: 0 <= i < |s| ==> IsHexDigit(s[i]) }

  /** The regular expression -?[0-9]+. */
  predicate IsDecimal(s: string)
  {
    |s| >= 1 && if s[0] == '-' then |s| >= 2 && AllDigits(s[1..]) else AllDigits(s)
  }

  /** The regular expression 0(x|X)[0-9a-fA-F]+. */
  predicate IsHex(s: string)
  {
    |s| >= 3 && s[0] == '0' && (s[1] == 'x' || s[1] == 'X') && AllHexDigits(s[2..])
  }

  /** No fixed terminal is spelled like a number: none starts with a digit, and "-" is too short. */
  lemma LiteralsNotNumbers(k: nat)
    requires k <= WatchTok
    ensures |Literal(k)| >= 1 && !IsDigit(Literal(k)[0])
    ensures !IsDecimal(Literal(k)) && !IsHex(Literal(k))
  {
  }

  /** The terminal a single character spells, if any. */
  function OperatorKind(c: char): Option<nat>
  {
    if c == ' ' then Some(SpaceTok)
    else if c == '%' then Some(PercentTok)
    else if c == '(' then Some(LParenTok)
    else if c == ')' then Some(RParenTok)
    else if c == '*' then Some(StarTok)
    else if c == '+' then Some(PlusTok)
    else if c == '-' then Some(MinusTok)
    else if c == '/' then Some(SlashTok)
    else None
  }

  /**
   * The terminal a whole string spells, if any: a decimal literal, a
   * hexadecimal literal, or one of the fixed spellings (looked up by length).
   */
  function KindOf(s: string): Option<nat>
  {
    if IsDecimal(s) then Some(DecimalTok)
    else if IsHex(s) then Some(HexTok)
    else match |s|
      case 1 => OperatorKind(s[0])
      case 2 => if s == "\\t" then Some(TabTok) else None
      case 3 => if s == "run" then Some(RunTok) else if s == "set" then Some(SetTok) else None
      case 4 => if s == "step" then Some(StepTok) else None
      case 5 =>
        if s == "reset" then Some(ResetTok)
        else if s == "unset" then Some(UnsetTok)
        else if s == "watch" then Some(WatchTok)
        else None
      case 7 => if s == "unwatch" then Some(UnwatchTok) else None
      case 10 => if s == "breakpoint" then Some(BreakpointTok) else None
      case _ => None
  }

  /** Each fixed terminal is recognised as itself: the spellings are distinct. */
  lemma LiteralKind(k: nat)
    requires k <= WatchTok
    ensures KindOf(Literal(k)) == Some(k)
  {
  }

  /** A string recognised as a fixed terminal is that terminal's spelling. */
  lemma FixedSpelling(p: string)
    requires KindOf(p).Some? && !IsDecimal(p) && !IsHex(p)
    ensures KindOf(p).value <= WatchTok && p == Literal(KindOf(p).value)
  {
  }

  /** Matches `c` against one expected character. */
  function On(c: char, expected: char, next: nat): Option<nat>
  {
    if c == expected then Some(next) else None
  }

  /**
   * The transitions of __tokenize: the state entered from state `q` on
   * character `c`, or None where the generated code returns its current
   * match.
   */
  function Delta(q: nat, c: char): Option<nat>
  {
    match q
    case 0 =>
      if c == ' ' then Some(1) else if c == '%' then Some(2) else if c == '(' then Some(3)
      else if c == ')' then Some(4) else if c == '*' then Some(5) else if c == '+' then Some(6)
      else if c == '-' then Some(7) else if c == '/' then Some(8) else if c == '0' then Some(9)
      else if '1' <= c <= '9' then Some(10) else if c == '\\' then Some(11)
      else if c == 'b' then Some(12) else if c == 'r' then Some(13) else if c == 's' then Some(14)
      else if c == 'u' then Some(15) else if c == 'w' then Some(16) else None
    case 7 => if IsDigit(c) then Some(10) else None
    case 9 => if IsDigit(c) then Some(10) else if c == 'X' || c == 'x' then Some(18) else None
    case 10 => if IsDigit(c) then Some(10) else None
    case 11 => On(c, 't', 19)
    case 12 => On(c, 'r', 20)
    case 13 => if c == 'e' then Some(21) else On(c, 'u', 22)
    case 14 => if c == 'e' then Some(23) else On(c, 't', 24)
    case 15 => On(c, 'n', 25)
    case 16 => On(c, 'a', 26)
    case 18 => if IsHexDigit(c) then Some(27) else None
    case 20 => On(c, 'e', 28)
    case 21 => On(c, 's', 29)
    case 22 => On(c, 'n', 30)
    case 23 => On(c, 't', 31)
    case 24 => On(c, 'e', 32)
    case 25 => if c == 's' then Some(33) else On(c, 'w', 34)
    case 26 => On(c, 't', 35)
    case 27 => if IsHexDigit(c) then Some(27) else None
    case 28 => On(c, 'a', 36)
    case 29 => On(c, 'e', 37)
    case 32 => On(c, 'p', 38)
    case 33 => On(c, 'e', 39)
    case 34 => On(c, 'a', 40)
    case 35 => On(c, 'c', 41)
    case 36 => On(c, 'k', 42)
    case 37 => On(c, 't', 43)
    case 39 => On(c, 't', 44)
    case 40 => On(c, 't', 45)
    case 41 => On(c, 'h', 46)
    case 42 => On(c, 'p', 47)
    case 45 => On(c, 'c', 48)
    case 47 => On(c, 'o', 49)
    case 48 => On(c, 'h', 50)
    case 49 => On(c, 'i', 51)
    case 51 => On(c, 'n', 52)
    case 52 => On(c, 't', 53)
    case _ => None
  }

  /**
   * The match recorded on entering state `q`: every transition into an
   * accepting state stores the same terminal, so the kind is a function of
   * the state entered.
   */
  function Accept(q: nat): Option<nat>
  {
    match q
    case 1 => Some(SpaceTok)
    case 2 => Some(PercentTok)
    case 3 => Some(LParenTok)
    case 4 => Some(RParenTok)
    case 5 => Some(StarTok)
    case 6 => Some(PlusTok)
    case 7 => Some(MinusTok)
    case 8 => Some(SlashTok)
    case 9 => Some(DecimalTok)
    case 10 => Some(DecimalTok)
    case 19 => Some(TabTok)
    case 27 => Some(HexTok)
    case 30 => Some(RunTok)
    case 31 => Some(SetTok)
    case 38 => Some(StepTok)
    case 43 => Some(ResetTok)
    case 44 => Some(UnsetTok)
    case 46 => Some(WatchTok)
    case 50 => Some(UnwatchTok)
    case 53 => Some(BreakpointTok)
    case _ => None
  }

  /** The state the DFA reaches from `q` after reading all of `s`, or None once it is stuck. */
  function Walk(q: nat, s: string): Option<nat>
    decreases |s|
  {
    if s == [] then Some(q)
    else match Delta(q, s[0])
      case None => None
      case Some(q') => Walk(q', s[1..])
  }

  /** Reading one more character extends the walk by one transition. */
  lemma {:induction false} WalkSnoc(q: nat, s: string, c: char)
    ensures Walk(q, s + [c]) == match Walk(q, s) case None => None case Some(p) => Delta(p, c)
    decreases |s|
  {
    if s == [] {
      assert s + [c] == [c];
      assert [c][1..] == [];
    } else {
      assert (s + [c])[0] == s[0];
      assert (s + [c])[1..] == s[1..] + [c];
      match Delta(q, s[0]) {
        case None =>
        case Some(q') => WalkSnoc(q', s[1..], c);
      }
    }
  }

  /** A decimal literal is none of the fixed terminals. */
  lemma DecimalKind(p: string)
    requires IsDecimal(p)
    ensures KindOf(p) == Some(DecimalTok)
  {
  }

  /** A hexadecimal literal is neither a fixed terminal nor a decimal literal. */
  lemma HexKind(p: string)
    requires IsHex(p)
    ensures KindOf(p) == Some(HexTok)
  {
    assert !IsDigit(p[1]);
  }

  /**
   * The keyword and operator states form a trie: each is entered from one
   * parent state on one character. None for the start state and for the
   * looping number states 10, 18 and 27.
   */
  function Parent(q: nat): (r: Option<(nat, char)>)
    ensures r.Some? ==> r.value.0 < q
  {
    match q
    case 1 => Some((0, ' '))
    case 2 => Some((0, '%'))
    case 3 => Some((0, '('))
    case 4 => Some((0, ')'))
    case 5 => Some((0, '*'))
    case 6 => Some((0, '+'))
    case 7 => Some((0, '-'))
    case 8 => Some((0, '/'))
    case 9 => Some((0, '0'))
    case 11 => Some((0, '\\'))
    case 12 => Some((0, 'b'))
    case 13 => Some((0, 'r'))
    case 14 => Some((0, 's'))
    case 15 => Some((0, 'u'))
    case 16 => Some((0, 'w'))
    case 19 => Some((11, 't'))
    case 20 => Some((12, 'r'))
    case 21 => Some((13, 'e'))
    case 22 => Some((13, 'u'))
    case 23 => Some((14, 'e'))
    case 24 => Some((14, 't'))
    case 25 => Some((15, 'n'))
    case 26 => Some((16, 'a'))
    case 28 => Some((20, 'e'))
    case 29 => Some((21, 's'))
    case 30 => Some((22, 'n'))
    case 31 => Some((23, 't'))
    case 32 => Some((24, 'e'))
    case 33 => Some((25, 's'))
    case 34 => Some((25, 'w'))
    case 35 => Some((26, 't'))
    case 36 => Some((28, 'a'))
    case 37 => Some((29, 'e'))
    case 38 => Some((32, 'p'))
    case 39 => Some((33, 'e'))
    case 40 => Some((34, 'a'))
    case 41 => Some((35, 'c'))
    case 42 => Some((36, 'k'))
    case 43 => Some((37, 't'))
    case 44 => Some((39, 't'))
    case 45 => Some((40, 't'))
    case 46 => Some((41, 'h'))
    case 47 => Some((42, 'p'))
    case 48 => Some((45, 'c'))
    case 49 => Some((47, 'o'))
    case 50 => Some((48, 'h'))
    case 51 => Some((49, 'i'))
    case 52 => Some((51, 'n'))
    case 53 => Some((52, 't'))
    case _ => None
  }

  /** The start state and the states entered from a parent. */
  predicate InTrie(q: nat)
  {
    q == 0 || Parent(q).Some?
  }

  /** The one string that leads from the start state to each trie state. */
  function Word(q: nat): string
  {
    match q
    case 1 => " "
    case 2 => "%"
    case 3 => "("
    case 4 => ")"
    case 5 => "*"
    case 6 => "+"
    case 7 => "-"
    case 8 => "/"
    case 9 => "0"
    case 11 => "\\"
    case 12 => "b"
    case 13 => "r"
    case 14 => "s"
    case 15 => "u"
    case 16 => "w"
    case 19 => "\\t"
    case 20 => "br"
    case 21 => "re"
    case 22 => "ru"
    case 23 => "se"
    case 24 => "st"
    case 25 => "un"
    case 26 => "wa"
    case 28 => "bre"
    case 29 => "res"
    case 30 => "run"
    case 31 => "set"
    case 32 => "ste"
    case 33 => "uns"
    case 34 => "unw"
    case 35 => "wat"
    case 36 => "brea"
    case 37 => "rese"
    case 38 => "step"
    case 39 => "unse"
    case 40 => "unwa"
    case 41 => "watc"
    case 42 => "break"
    case 43 => "reset"
    case 44 => "unset"
    case 45 => "unwat"
    case 46 => "watch"
    case 47 => "breakp"
    case 48 => "unwatc"
    case 49 => "breakpo"
    case 50 => "unwatch"
    case 51 => "breakpoi"
    case 52 => "breakpoin"
    case 53 => "breakpoint"
    case _ => ""
  }

  /** What the DFA has read when it is in state `q`. */
  predicate Means(q: nat, p: string)
  {
    match q
    case 10 => IsDecimal(p) && p != "0"
    case 18 => p == "0x" || p == "0X"
    case 27 => IsHex(p)
    case _ => InTrie(q) && Word(q) == p
  }

  /** Every transition into a trie state comes from that state's parent. */
  lemma DeltaParent(q: nat, c: char)
    requires Delta(q, c).Some? && Delta(q, c).value !in {10, 18, 27}
    ensures Parent(Delta(q, c).value) == Some((q, c))
  {
    if q == 0 {
      DeltaParentRoot(q, c);
    } else if q <= 20 {
      DeltaParentNear(q, c);
    } else if q <= 35 {
      DeltaParentMiddle(q, c);
    } else if q <= 44 {
      DeltaParentFar(q, c);
    } else {
      DeltaParentLast(q, c);
    }
  }

  lemma DeltaParentRoot(q: nat, c: char)
    requires q == 0 && Delta(q, c).Some? && Delta(q, c).value !in {10, 18, 27}
    ensures Parent(Delta(q, c).value) == Some((q, c))
  {
  }

  lemma DeltaParentNear(q: nat, c: char)
    requires 1 <= q <= 20 && Delta(q, c).Some? && Delta(q, c).value !in {10, 18, 27}
    ensures Parent(Delta(q, c).value) == Some((q, c))
  {
  }

  lemma DeltaParentMiddle(q: nat, c: char)
    requires 21 <= q <= 35 && Delta(q, c).Some? && Delta(q, c).value !in {10, 18, 27}
    ensures Parent(Delta(q, c).value) == Some((q, c))
  {
  }

  lemma DeltaParentFar(q: nat, c: char)
    requires 36 <= q <= 44 && Delta(q, c).Some? && Delta(q, c).value !in {10, 18, 27}
    ensures Parent(Delta(q, c).value) == Some((q, c))
  {
  }

  lemma DeltaParentLast(q: nat, c: char)
    requires 45 <= q && Delta(q, c).Some? && Delta(q, c).value !in {10, 18, 27}
    ensures Parent(Delta(q, c).value) == Some((q, c))
  {
  }

  /** Each trie state is entered from its parent on its character. */
  lemma ParentDelta(q: nat)
    requires Parent(q).Some?
    ensures Delta(Parent(q).value.0, Parent(q).value.1) == Some(q)
  {
    if q <= 20 {
      ParentDeltaNear(q);
    } else if q <= 35 {
      ParentDeltaMiddle(q);
    } else if q <= 44 {
      ParentDeltaFar(q);
    } else {
      ParentDeltaLast(q);
    }
  }

  lemma ParentDeltaNear(q: nat)
    requires 1 <= q <= 20 && Parent(q).Some?
    ensures Delta(Parent(q).value.0, Parent(q).value.1) == Some(q)
  {
  }

  lemma ParentDeltaMiddle(q: nat)
    requires 21 <= q <= 35 && Parent(q).Some?
    ensures Delta(Parent(q).value.0, Parent(q).value.1) == Some(q)
  {
  }

  lemma ParentDeltaFar(q: nat)
    requires 36 <= q <= 44 && Parent(q).Some?
    ensures Delta(Parent(q).value.0, Parent(q).value.1) == Some(q)
  {
  }

  lemma ParentDeltaLast(q: nat)
    requires 45 <= q && Parent(q).Some?
    ensures Delta(Parent(q).value.0, Parent(q).value.1) == Some(q)
  {
  }

  /** A transition into a trie state extends its word by one character. */
  lemma StepFixed(q: nat, p: string, c: char)
    requires Means(q, p) && Delta(q, c).Some? && Delta(q, c).value !in {10, 18, 27}
    ensures Means(Delta(q, c).value, p + [c])
  {
    DeltaParent(q, c);
    WordStep(Delta(q, c).value);
  }

  /** A transition into one of the number states keeps its meaning. */
  lemma StepNumber(q: nat, p: string, c: char)
    requires Means(q, p) && Delta(q, c).Some? && Delta(q, c).value in {10, 18, 27}
    ensures Means(Delta(q, c).value, p + [c])
  {
    if q == 10 {
      StepDecimal(p, c);
    } else if q == 18 || q == 27 {
      StepHex(q, p, c);
    } else if q == 0 {
      assert p + [c] == [c];
    } else {
      NumberSources(q, c);
      assert (p + [c])[1..] == [c];
    }
  }

  /** Besides the start state, only "-" and "0" lead into a number state. */
  lemma NumberSources(q: nat, c: char)
    requires q !in {0, 10, 18, 27} && Delta(q, c).Some? && Delta(q, c).value in {10, 18, 27}
    ensures q == 7 || q == 9
  {
  }

  /** Another digit of a decimal number. */
  lemma StepDecimal(p: string, c: char)
    requires Means(10, p) && Delta(10, c).Some?
    ensures Means(10, p + [c])
  {
    var s := p + [c];
    if p[0] == '-' {
      assert s[1..] == p[1..] + [c];
    }
  }

  /** A hexadecimal digit after "0x", "0X" or more hexadecimal digits. */
  lemma StepHex(q: nat, p: string, c: char)
    requires q in {18, 27} && Means(q, p) && Delta(q, c).Some?
    ensures Delta(q, c) == Some(27) && Means(27, p + [c])
  {
    var s := p + [c];
    if q == 18 {
      assert s[2..] == [c];
    } else {
      assert s[2..] == p[2..] + [c];
    }
  }

  /** Whatever state the DFA reaches, it has read exactly a string that state stands for. */
  lemma {:induction false} WalkMeans(p: string)
    requires Walk(0, p).Some?
    ensures Means(Walk(0, p).value, p)
    decreases |p|
  {
    if p != [] {
      var init := p[..|p| - 1];
      var c := p[|p| - 1];
      assert init + [c] == p;
      WalkSnoc(0, init, c);
      var q := Walk(0, init).value;
      WalkMeans(init);
      if Delta(q, c).value in {10, 18, 27} {
        StepNumber(q, init, c);
      } else {
        StepFixed(q, init, c);
      }
    }
  }

  /** The DFA reaches each trie state by reading that state's word. */
  lemma {:induction false} WalkWord(q: nat)
    requires InTrie(q)
    ensures Walk(0, Word(q)) == Some(q)
    decreases q
  {
    if q != 0 {
      var (r, c) := Parent(q).value;
      ParentDelta(q);
      WordStep(q);
      WalkWord(r);
      WalkSnoc(0, Word(r), c);
    }
  }

  /** The trie state at which each fixed terminal is recognised. */
  function AcceptState(k: nat): nat
    requires k <= WatchTok
  {
    match k
    case 0 => 1
    case 1 => 2
    case 2 => 3
    case 3 => 4
    case 4 => 5
    case 5 => 6
    case 6 => 7
    case 7 => 8
    case 8 => 19
    case 9 => 53
    case 10 => 43
    case 11 => 30
    case 12 => 31
    case 13 => 38
    case 14 => 44
    case 15 => 50
    case _ => 46
  }

  /** One trie edge extends the parent's word by the edge's character. */
  lemma WordStep(q: nat)
    requires Parent(q).Some?
    ensures InTrie(Parent(q).value.0) && Word(q) == Word(Parent(q).value.0) + [Parent(q).value.1]
  {
    if q <= 16 {
      WordStepRoot(q);
    } else if q <= 30 {
      WordStepSecond(q);
    } else if q <= 42 {
      WordStepThird(q);
    } else if q <= 48 {
      WordStepFourth(q);
    } else {
      WordStepFifth(q);
    }
  }

  lemma WordStepRoot(q: nat)
    requires Parent(q).Some? && 1 <= q <= 16
    ensures InTrie(Parent(q).value.0) && Word(q) == Word(Parent(q).value.0) + [Parent(q).value.1]
  {
    match q
    case 1 => assert "" + [' '] == " ";
    case 2 => assert "" + ['%'] == "%";
    case 3 => assert "" + ['('] == "(";
    case 4 => assert "" + [')'] == ")";
    case 5 => assert "" + ['*'] == "*";
    case 6 => assert "" + ['+'] == "+";
    case 7 => assert "" + ['-'] == "-";
    case 8 => assert "" + ['/'] == "/";
    case 9 => assert "" + ['0'] == "0";
    case 11 => assert "" + ['\\'] == "\\";
    case 12 => assert "" + ['b'] == "b";
    case 13 => assert "" + ['r'] == "r";
    case 14 => assert "" + ['s'] == "s";
    case 15 => assert "" + ['u'] == "u";
    case 16 => assert "" + ['w'] == "w";
  }

  lemma WordStepSecond(q: nat)
    requires Parent(q).Some? && 17 <= q <= 30
    ensures InTrie(Parent(q).value.0) && Word(q) == Word(Parent(q).value.0) + [Parent(q).value.1]
  {
    match q
    case 19 => assert "\\" + ['t'] == "\\t";
    case 20 => assert "b" + ['r'] == "br";
    case 21 => assert "r" + ['e'] == "re";
    case 22 => assert "r" + ['u'] == "ru";
    case 23 => assert "s" + ['e'] == "se";
    case 24 => assert "s" + ['t'] == "st";
    case 25 => assert "u" + ['n'] == "un";
    case 26 => assert "w" + ['a'] == "wa";
    case 28 => assert "br" + ['e'] == "bre";
    case 29 => assert "re" + ['s'] == "res";
    case 30 => assert "ru" + ['n'] == "run";
  }

  lemma WordStepThird(q: nat)
    requires Parent(q).Some? && 31 <= q <= 42
    ensures InTrie(Parent(q).value.0) && Word(q) == Word(Parent(q).value.0) + [Parent(q).value.1]
  {
    match q
    case 31 => assert "se" + ['t'] == "set";
    case 32 => assert "st" + ['e'] == "ste";
    case 33 => assert "un" + ['s'] == "uns";
    case 34 => assert "un" + ['w'] == "unw";
    case 35 => assert "wa" + ['t'] == "wat";
    case 36 => assert "bre" + ['a'] == "brea";
    case 37 => assert "res" + ['e'] == "rese";
    case 38 => assert "ste" + ['p'] == "step";
    case 39 => assert "uns" + ['e'] == "unse";
    case 40 => assert "unw" + ['a'] == "unwa";
    case 41 => assert "wat" + ['c'] == "watc";
    case 42 => assert "brea" + ['k'] == "break";
  }

  lemma WordStepFourth(q: nat)
    requires Parent(q).Some? && 43 <= q <= 48
    ensures InTrie(Parent(q).value.0) && Word(q) == Word(Parent(q).value.0) + [Parent(q).value.1]
  {
    match q
    case 43 => assert "rese" + ['t'] == "reset";
    case 44 => assert "unse" + ['t'] == "unset";
    case 45 => assert "unwa" + ['t'] == "unwat";
    case 46 => assert "watc" + ['h'] == "watch";
    case 47 => assert "break" + ['p'] == "breakp";
    case 48 => assert "unwat" + ['c'] == "unwatc";
  }

  lemma WordStepFifth(q: nat)
    requires Parent(q).Some? && 49 <= q <= 53
    ensures InTrie(Parent(q).value.0) && Word(q) == Word(Parent(q).value.0) + [Parent(q).value.1]
  {
    match q
    case 49 => assert "breakp" + ['o'] == "breakpo";
    case 50 => assert "unwatc" + ['h'] == "unwatch";
    case 51 => assert "breakpo" + ['i'] == "breakpoi";
    case 52 => assert "breakpoi" + ['n'] == "breakpoin";
    case 53 => assert "breakpoin" + ['t'] == "breakpoint";
  }

  /** Each fixed terminal's state records that terminal. */
  lemma AcceptStateRecords(k: nat)
    requires k <= WatchTok
    ensures Accept(AcceptState(k)) == Some(k)
  {
  }

  /** The state of each fixed terminal is spelled by that terminal and records it. */
  lemma AcceptStateSpelling(k: nat)
    requires k <= WatchTok
    ensures InTrie(AcceptState(k)) && Word(AcceptState(k)) == Literal(k) && Accept(AcceptState(k)) == Some(k)
  {
    AcceptStateRecords(k);
  }

  /** The accepting trie states other than "0" are exactly the states of the fixed terminals. */
  lemma AcceptingTrieState(q: nat)
    requires q !in {9, 10, 18, 27} && Accept(q).Some?
    ensures Accept(q).value <= WatchTok && q == AcceptState(Accept(q).value)
  {
  }

  /** A string the DFA accepts spells the terminal the DFA records for it. */
  lemma AcceptMeans(q: nat, p: string)
    requires Means(q, p) && Accept(q).Some?
    ensures KindOf(p) == Accept(q)
  {
    if q == 10 {
      DecimalKind(p);
    } else if q == 27 {
      HexKind(p);
    } else if q == 9 {
      assert p == [] + ['0'];
      DecimalKind(p);
    } else {
      AcceptingTrieState(q);
      AcceptStateSpelling(Accept(q).value);
      LiteralKind(Accept(q).value);
    }
  }

  lemma {:induction false} WalkDigits(s: string)
    requires AllDigits(s)
    ensures Walk(10, s) == Some(10)
    decreases |s|
  {
    if s != [] {
      WalkDigits(s[1..]);
    }
  }

  lemma {:induction false} WalkHexDigits(s: string)
    requires AllHexDigits(s)
    ensures Walk(27, s) == Some(27)
    decreases |s|
  {
    if s != [] {
      WalkHexDigits(s[1..]);
    }
  }

  /** Every string that spells a terminal leads the DFA to a state that records that terminal. */
  lemma KindWalks(p: string)
    requires KindOf(p).Some?
    ensures Walk(0, p).Some? && Accept(Walk(0, p).value) == KindOf(p)
  {
    if IsDecimal(p) {
      if p[0] == '-' {
        assert Walk(0, p) == Walk(7, p[1..]);
        assert Walk(7, p[1..]) == Walk(10, p[2..]);
        WalkDigits(p[2..]);
      } else if p[0] == '0' {
        if |p| > 1 {
          assert Walk(9, p[1..]) == Walk(10, p[2..]);
          WalkDigits(p[2..]);
        }
      } else {
        WalkDigits(p[1..]);
      }
    } else if IsHex(p) {
      assert Walk(0, p) == Walk(9, p[1..]);
      assert Walk(9, p[1..]) == Walk(18, p[2..]);
      assert Walk(18, p[2..]) == Walk(27, p[3..]);
      WalkHexDigits(p[3..]);
    } else {
      FixedSpelling(p);
      AcceptStateSpelling(KindOf(p).value);
      WalkWord(AcceptState(KindOf(p).value));
    }
  }

  /** The DFA records a match exactly for the prefixes that spell a terminal. */
  lemma WalkKind(p: string)
    requires Walk(0, p).Some?
    ensures Accept(Walk(0, p).value) == KindOf(p)
  {
    if KindOf(p).Some? {
      KindWalks(p);
    } else if Accept(Walk(0, p).value).Some? {
      WalkMeans(p);
      AcceptMeans(Walk(0, p).value, p);
    }
  }

  /** Once the DFA is stuck it stays stuck. */
  lemma {:induction false} StuckStays(text: string, i: nat, m: nat)
    requires i < m <= |text| && Walk(0, text[..i]).Some?
    requires Delta(Walk(0, text[..i]).value, text[i]).None?
    ensures Walk(0, text[..m]).None?
    decreases m
  {
    assert text[..m] == text[..m - 1] + [text[m - 1]];
    WalkSnoc(0, text[..m - 1], text[m - 1]);
    if m - 1 > i {
      StuckStays(text, i, m - 1);
    }
  }

  /** The terminal spelled by each non-empty prefix of `text`: entry i is that of text[..i + 1]. */
  function Classify(text: string): (ks: seq<Option<nat>>)
    ensures |ks| == |text|
    decreases |text|
  {
    if text == [] then [] else Classify(text[..|text| - 1]) + [KindOf(text)]
  }

  lemma {:induction false} ClassifyAt(text: string, i: nat)
    requires i < |text|
    ensures Classify(text)[i] == KindOf(text[..i + 1])
    decreases |text|
  {
    var init := text[..|text| - 1];
    if i < |text| - 1 {
      ClassifyAt(init, i);
      assert init[..i + 1] == text[..i + 1];
    } else {
      assert text[..i + 1] == text;
    }
  }

  /**
   * The last match among the first `n` entries of a classification, as
   * (terminal, length): the longest of those prefixes that spells a terminal.
   */
  function LastMatch(ks: seq<Option<nat>>, n: nat): (r: Option<(nat, nat)>)
    requires n <= |ks|
    ensures r.Some? ==> 1 <= r.value.1 <= n && ks[r.value.1 - 1] == Some(r.value.0)
  {
    if n == 0 then None
    else match ks[n - 1]
      case Some(k) => Some((k, n))
      case None => LastMatch(ks, n - 1)
  }

  /** The last match is the last entry that matches: none after it, and none at all when there is no match. */
  lemma {:induction false} LastMatchIsLast(ks: seq<Option<nat>>, n: nat)
    requires n <= |ks|
    ensures LastMatch(ks, n).Some? ==> forall m :: LastMatch(ks, n).value.1 <= m < n ==> ks[m].None?
    ensures LastMatch(ks, n).None? <==> forall m :: 0 <= m < n ==> ks[m].None?
    decreases n
  {
    if n > 0 && ks[n - 1].None? {
      LastMatchIsLast(ks, n - 1);
    }
  }

  /** The longest prefix of `text` that spells a terminal, as (terminal, length). */
  function Longest(text: string): Option<(nat, nat)>
  {
    LastMatch(Classify(text), |text|)
  }

  /** Entries past the point where nothing more can match do not change the last match. */
  lemma {:induction false} LastMatchSkip(ks: seq<Option<nat>>, i: nat, n: nat)
    requires i <= n <= |ks|
    requires forall m :: i <= m < n ==> ks[m].None?
    ensures LastMatch(ks, n) == LastMatch(ks, i)
    decreases n
  {
    if n > i {
      LastMatchSkip(ks, i, n - 1);
    }
  }

  /** Once the DFA has no transition, no longer prefix spells a terminal. */
  lemma Stuck(text: string, i: nat, q: nat)
    requires i < |text| && Walk(0, text[..i]) == Some(q) && Delta(q, text[i]).None?
    ensures forall m :: i <= m < |text| ==> Classify(text)[m].None?
  {
    assert text[..i + 1] == text[..i] + [text[i]];
    WalkSnoc(0, text[..i], text[i]);
    forall m | i <= m < |text|
      ensures Classify(text)[m].None?
    {
      StuckStays(text, i, m + 1);
      ClassifyAt(text, m);
      if KindOf(text[..m + 1]).Some? {
        KindWalks(text[..m + 1]);
      }
    }
  }

  /** One transition of the DFA: the state it enters records what the longer prefix spells. */
  lemma Advance(text: string, i: nat, q: nat, next: nat)
    requires i < |text| && Walk(0, text[..i]) == Some(q) && Delta(q, text[i]) == Some(next)
    ensures Walk(0, text[..i + 1]) == Some(next) && Classify(text)[i] == Accept(next)
  {
    var p := text[..i + 1];
    assert p == text[..i] + [text[i]];
    WalkSnoc(0, text[..i], text[i]);
    assert Walk(0, p) == Some(next);
    WalkKind(p);
    ClassifyAt(text, i);
  }

  /**
   * __tokenize: walk the DFA over the characters, remembering the match
   * recorded by the last accepting state entered, and return it when the
   * input ends or no transition applies.
   */
  method Tokenize(text: string) returns (m: Option<(nat, nat)>)
    ensures m == Longest(text)
  {
    ghost var ks := Classify(text);
    var currentMatch: Option<(nat, nat)> := None;
    var currentState: nat := 0;
    var i: nat := 0;
    while i < |text|
      invariant i <= |text| && Walk(0, text[..i]) == Some(currentState)
      invariant currentMatch == LastMatch(ks, i)
      decreases |text| - i
    {
      var ch := text[i];
      match Delta(currentState, ch) {
        case None =>
          Stuck(text, i, currentState);
          LastMatchSkip(ks, i, |text|);
          return currentMatch;
        case Some(next) =>
          Advance(text, i, currentState, next);
          if Accept(next).Some? {
            currentMatch := Some((Accept(next).value, i + 1));
          }
          currentState := next;
          i := i + 1;
      }
    }
    return currentMatch;
  }

  /** No prefix of `s` longer than `len` characters spells a terminal. */
  predicate NoLongerMatch(s: string, len: nat)
  {
    forall m :: len < m <= |s| ==> KindOf(s[..m]).None?
  }

  /**
   * The longest-match contract of __tokenize in terms of the token
   * languages: the prefix returned spells the terminal returned, and no
   * longer prefix spells any; None means no prefix does.
   */
  lemma LongestMatch(text: string)
    ensures Longest(text).Some? ==>
      var (k, len) := Longest(text).value;
      && 1 <= len <= |text| && KindOf(text[..len]) == Some(k)
      && NoLongerMatch(text, len)
    ensures Longest(text).None? <==> NoLongerMatch(text, 0)
  {
    var ks := Classify(text);
    LastMatchIsLast(ks, |text|);
    forall m | 1 <= m <= |text|
      ensures ks[m - 1] == KindOf(text[..m])
    {
      ClassifyAt(text, m - 1);
    }
  }

  /** A string that starts "0x" without a hexadecimal digit after it spells no terminal. */
  lemma ZeroXNoKind(p: string)
    requires |p| >= 2 && p[0] == '0' && p[1] == 'x' && (|p| >= 3 ==> !IsHexDigit(p[2]))
    ensures KindOf(p).None?
  {
    assert !IsDigit(p[1]);
  }

  /** "0x" not followed by a hexadecimal digit lexes as the decimal "0" of length one. */
  lemma ZeroXIsDecimalZero(rest: string)
    requires rest == [] || !IsHexDigit(rest[0])
    ensures Longest("0x" + rest) == Some((DecimalTok, 1))
  {
    var text := "0x" + rest;
    var ks := Classify(text);
    assert text[..1] == "0";
    DecimalKind("0");
    ClassifyAt(text, 0);
    forall m | 1 <= m < |text|
      ensures ks[m].None?
    {
      var p := text[..m + 1];
      assert p[0] == '0' && p[1] == 'x';
      if m >= 2 {
        assert p[2] == rest[0];
      }
      ZeroXNoKind(p);
      ClassifyAt(text, m);
    }
    LastMatchSkip(ks, 1, |text|);
  }

  /** A minus sign followed by a digit starts a negative decimal literal, never the minus operator. */
  lemma MinusDigitIsDecimal(text: string)
    requires |text| >= 2 && text[0] == '-' && IsDigit(text[1])
    ensures Longest(text).Some? && Longest(text).value.0 == DecimalTok && Longest(text).value.1 >= 2
  {
    var ks := Classify(text);
    var p := text[..2];
    assert p[1..] == [text[1]];
    assert IsDecimal(p);
    DecimalKind(p);
    ClassifyAt(text, 1);
    LastMatchIsLast(ks, |text|);
    var len := Longest(text).value.1;
    ClassifyAt(text, len - 1);
    MinusKind(text[..len]);
  }

  /** A string that starts with a minus sign and spells a terminal longer than "-" is a decimal literal. */
  lemma MinusKind(q: string)
    requires |q| >= 2 && q[0] == '-' && KindOf(q).Some?
    ensures KindOf(q) == Some(DecimalTok)
  {
  }

  /** The Unicode White_Space characters that str::trim_left removes. */
  predicate IsWhitespace(c: char)
  {
    ('\U{9}' <= c <= '\U{D}') || c == ' ' || c == '\U{85}' || c == '\U{A0}' || c == '\U{1680}'
    || ('\U{2000}' <= c <= '\U{200A}') || c == '\U{2028}' || c == '\U{2029}' || c == '\U{202F}'
    || c == '\U{205F}' || c == '\U{3000}'
  }

  /** str::trim_left: the text with its leading whitespace removed. */
  function TrimStart(s: string): (t: string)
    ensures |t| <= |s|
    decreases |s|
  {
    if s != [] && IsWhitespace(s[0]) then TrimStart(s[1..]) else s
  }

  /** Trimming keeps a suffix that does not start with whitespace and drops only whitespace. */
  lemma {:induction false} TrimStartSpec(s: string)
    ensures TrimStart(s) == s[|s| - |TrimStart(s)|..]
    ensures TrimStart(s) == [] || !IsWhitespace(TrimStart(s)[0])
    ensures forall i :: 0 <= i < |s| - |TrimStart(s)| ==> IsWhitespace(s[i])
    decreases |s|
  {
    if s != [] && IsWhitespace(s[0]) {
      TrimStartSpec(s[1..]);
      var t := TrimStart(s);
      assert s[1..][|s| - 1 - |t|..] == s[|s| - |t|..];
      forall i | 0 <= i < |s| - |t|
        ensures IsWhitespace(s[i])
      {
        if i > 0 {
          assert s[i] == s[1..][i - 1];
        }
      }
    }
  }

  /** The text of a token and its terminal. */
  datatype Token = Token(kind: nat, text: string)

  /** An item of the matcher: a token with its start and end offsets, or the InvalidToken error. */
  datatype Lexed = Located(start: nat, token: Token, end: nat) | InvalidToken(location: nat)

  /** What one call of __Matcher::next returns, and the matcher's text and offset after it. */
  datatype MatchStep = MatchStep(item: Option<Lexed>, text: string, consumed: nat)

  /** __Matcher::next on a matcher holding `text`, `consumed` characters into its input. */
  function NextSpec(text: string, consumed: nat): MatchStep
  {
    var trimmed := TrimStart(text);
    var start := consumed + (|text| - |trimmed|);
    if trimmed == [] then MatchStep(None, trimmed, start)
    else match Longest(trimmed)
      case Some((kind, len)) =>
        MatchStep(Some(Located(start, Token(kind, trimmed[..len]), start + len)), trimmed[len..], start + len)
      case None => MatchStep(Some(InvalidToken(start)), text, consumed)
  }

  /** Where the matcher's next item starts: the first offset past the whitespace. */
  function NextStart(input: string, consumed: nat): nat
    requires consumed <= |input|
  {
    consumed + (|input| - consumed - |TrimStart(input[consumed..])|)
  }

  /** Trimming the rest of the input skips exactly the whitespace before the next item. */
  lemma TrimmedRest(input: string, consumed: nat)
    requires consumed <= |input|
    ensures var start := NextStart(input, consumed);
      && consumed <= start <= |input| && TrimStart(input[consumed..]) == input[start..]
      && (forall i :: consumed <= i < start ==> IsWhitespace(input[i]))
      && (start < |input| ==> !IsWhitespace(input[start]))
  {
    var text := input[consumed..];
    var start := NextStart(input, consumed);
    TrimStartSpec(text);
    assert TrimStart(text) == input[start..];
    forall i | consumed <= i < start
      ensures IsWhitespace(input[i])
    {
      assert input[i] == text[i - consumed];
    }
  }

  /** The matcher ends exactly when only whitespace is left, and then consumes all of it. */
  lemma NextEnd(input: string, consumed: nat)
    requires consumed <= |input|
    ensures var r := NextSpec(input[consumed..], consumed);
      && (r.item.None? <==> forall i :: consumed <= i < |input| ==> IsWhitespace(input[i]))
      && (r.item.None? ==> r.consumed == |input| && r.text == [])
  {
    TrimmedRest(input, consumed);
  }

  /** The whitespace-trimmed rest of the input is the input from the next item's start. */
  lemma TrimmedSlice(input: string, consumed: nat)
    requires consumed <= |input|
    ensures TrimStart(input[consumed..]) == input[NextStart(input, consumed)..]
  {
    TrimmedRest(input, consumed);
  }

  /**
   * A located token starts at the first offset past the whitespace, is the
   * slice [start, end) of the input, is the longest prefix of the input
   * from there that spells a terminal, is never the " " terminal, and moves
   * the matcher to its end.
   */
  lemma NextLocated(input: string, consumed: nat, start: nat, token: Token, end: nat, rest: string)
    requires consumed <= |input|
    requires NextSpec(input[consumed..], consumed) == MatchStep(Some(Located(start, token, end)), rest, end)
    ensures start == NextStart(input, consumed) && start < end <= |input|
    ensures Longest(input[start..]) == Some((token.kind, end - start)) && token.kind != SpaceTok
    ensures token.text == input[start..end] && rest == input[end..]
  {
    var trimmed := TrimStart(input[consumed..]);
    assert token.text == trimmed[..end - start] && rest == trimmed[end - start..];
    TrimmedSlice(input, consumed);
    assert start == NextStart(input, consumed);
    NextShrinks(input[consumed..], consumed);
    SliceSplit(input, start, end);
  }

  /** Slicing the input from `start` and then at `end - start` is slicing it at `start` and `end`. */
  lemma SliceSplit(input: string, start: nat, end: nat)
    requires start <= end <= |input|
    ensures input[start..][..end - start] == input[start..end] && input[start..][end - start..] == input[end..]
  {
  }

  /**
   * InvalidToken names the first offset past the whitespace, where no prefix
   * of the rest of the input spells a terminal, and leaves the matcher where
   * it was.
   */
  lemma NextInvalid(input: string, consumed: nat)
    requires consumed <= |input|
    requires NextSpec(input[consumed..], consumed).item.Some?
    requires NextSpec(input[consumed..], consumed).item.value.InvalidToken?
    ensures var r := NextSpec(input[consumed..], consumed);
      var location := r.item.value.location;
      && location == NextStart(input, consumed) < |input|
      && r.consumed == consumed && r.text == input[consumed..]
      && !IsWhitespace(input[location])
      && Longest(input[location..]).None?
  {
    TrimmedRest(input, consumed);
  }

  /** __Matcher: the text not yet consumed and the offset at which it starts. */
  class Matcher {
    var text: string
    var consumed: nat

    /** __Matcher::new. */
    constructor (s: string)
      ensures text == s && consumed == 0
    {
      text := s;
      consumed := 0;
    }

    /** __Matcher::next. */
    method Next() returns (item: Option<Lexed>)
      modifies this
      ensures MatchStep(item, text, consumed) == NextSpec(old(text), old(consumed))
    {
      var trimmed := TrimStart(text);
      var whitespace := |text| - |trimmed|;
      var startOffset := consumed + whitespace;
      if trimmed == [] {
        text := trimmed;
        consumed := startOffset;
        return None;
      }
      var m := Tokenize(trimmed);
      match m {
        case Some((index, length)) =>
          var result := trimmed[..length];
          var remaining := trimmed[length..];
          var endOffset := startOffset + length;
          text := remaining;
          consumed := endOffset;
          item := Some(Located(startOffset, Token(index, result), endOffset));
        case None =>
          item := Some(InvalidToken(startOffset));
      }
    }
  }

  /**
   * The tokens the matcher yields over `text`, starting `consumed`
   * characters into the input, up to its end or its first InvalidToken.
   */
  function Tokens(text: string, consumed: nat): (r: Result)
    ensures r.Lexemes? ==> forall i :: 0 <= i < |r.tokens| ==> r.tokens[i].kind != SpaceTok
    decreases |text|
  {
    var step := NextSpec(text, consumed);
    match step.item
    case None => Lexemes([])
    case Some(InvalidToken(location)) => LexError(location)
    case Some(Located(start, token, end)) =>
      NextShrinks(text, consumed);
      match Tokens(step.text, step.consumed)
      case Lexemes(rest) => Lexemes([token] + rest)
      case LexError(location) => LexError(location)
  }

  /** The token list of a whole input, or the offset of the token that could not be read. */
  datatype Result = Lexemes(tokens: seq<Token>) | LexError(location: nat)

  /** A string that starts with a non-blank character does not spell the " " terminal. */
  lemma NotSpaceKind(p: string)
    requires |p| >= 1 && !IsWhitespace(p[0])
    ensures KindOf(p) != Some(SpaceTok)
  {
    if KindOf(p) == Some(SpaceTok) {
      FixedSpelling(p);
    }
  }

  /** A located token consumes at least one character, and it is never the " " terminal. */
  lemma NextShrinks(text: string, consumed: nat)
    requires NextSpec(text, consumed).item.Some? && NextSpec(text, consumed).item.value.Located?
    ensures |NextSpec(text, consumed).text| < |text|
    ensures NextSpec(text, consumed).item.value.token.kind != SpaceTok
  {
    var trimmed := TrimStart(text);
    var len := Longest(trimmed).value.1;
    TrimStartSpec(text);
    ClassifyAt(trimmed, len - 1);
    NotSpaceKind(trimmed[..len]);
  }

  /** No transition of the DFA leads back to its start state. */
  lemma DeltaNotStart(q: nat, c: char)
    ensures Delta(q, c) != Some(0)
  {
  }

  /** Past the start state, no state has a transition on whitespace. */
  lemma WhitespaceStuck(q: nat, c: char)
    requires q != 0 && IsWhitespace(c)
    ensures Delta(q, c).None?
  {
  }

  /** Reading a non-empty string never ends in the start state. */
  lemma {:induction false} WalkLeavesStart(q: nat, s: string)
    requires s != [] && Walk(q, s).Some?
    ensures Walk(q, s).value != 0
    decreases |s|
  {
    DeltaNotStart(q, s[0]);
    if |s| > 1 {
      WalkLeavesStart(Delta(q, s[0]).value, s[1..]);
    }
  }

  /** The DFA cannot read the first character of `rest` after `w`. */
  predicate Ends(w: string, rest: string)
  {
    rest == [] || Walk(0, w + [rest[0]]).None?
  }

  /** A terminal followed by whitespace cannot be extended. */
  lemma BlankEnds(w: string, rest: string)
    requires KindOf(w).Some? && rest != [] && IsWhitespace(rest[0])
    ensures Ends(w, rest)
  {
    KindWalks(w);
    WalkSnoc(0, w, rest[0]);
    WalkLeavesStart(0, w);
    WhitespaceStuck(Walk(0, w).value, rest[0]);
  }

  /** A string that spells a terminal and cannot be extended is the longest match at the head of the text. */
  lemma LongestWord(w: string, rest: string)
    requires KindOf(w).Some? && Ends(w, rest)
    ensures Longest(w + rest) == Some((KindOf(w).value, |w|))
  {
    var text := w + rest;
    var ks := Classify(text);
    assert text[..|w|] == w;
    KindWalks(w);
    ClassifyAt(text, |w| - 1);
    assert LastMatch(ks, |w|) == Some((KindOf(w).value, |w|));
    if rest != [] {
      WalkSnoc(0, w, rest[0]);
      Stuck(text, |w|, Walk(0, w).value);
      LastMatchSkip(ks, |w|, |text|);
    }
  }

  /** The matcher's step on a terminal that starts the text and cannot be extended. */
  lemma NextWord(w: string, rest: string, consumed: nat)
    requires KindOf(w).Some? && !IsWhitespace(w[0]) && Ends(w, rest)
    ensures NextSpec(w + rest, consumed)
      == MatchStep(Some(Located(consumed, Token(KindOf(w).value, w), consumed + |w|)), rest, consumed + |w|)
  {
    var text := w + rest;
    LongestWord(w, rest);
    assert TrimStart(text) == text;
    assert text[..|w|] == w && text[|w|..] == rest;
  }

  /** The matcher reads a terminal that starts the text and cannot be extended as one token. */
  lemma TokensWord(w: string, rest: string, consumed: nat)
    requires KindOf(w).Some? && !IsWhitespace(w[0]) && Ends(w, rest)
    ensures Tokens(w + rest, consumed) == match Tokens(rest, consumed + |w|)
      case Lexemes(ts) => Lexemes([Token(KindOf(w).value, w)] + ts)
      case LexError(location) => LexError(location)
  {
    NextWord(w, rest, consumed);
    TokensLocated(w + rest, consumed, consumed, Token(KindOf(w).value, w), consumed + |w|, rest);
  }

  /** After a located token the token list continues with the tokens of the rest of the text. */
  lemma TokensLocated(text: string, consumed: nat, start: nat, token: Token, end: nat, rest: string)
    requires NextSpec(text, consumed) == MatchStep(Some(Located(start, token, end)), rest, end)
    ensures Tokens(text, consumed) == match Tokens(rest, end)
      case Lexemes(ts) => Lexemes([token] + ts)
      case LexError(location) => LexError(location)
  {
  }

  /** Trimming skips a leading whitespace character. */
  lemma NextBlank(c: char, rest: string, consumed: nat)
    requires IsWhitespace(c)
    ensures TrimStart([c] + rest) == TrimStart(rest)
    ensures NextSpec([c] + rest, consumed).item == NextSpec(rest, consumed + 1).item
    ensures NextSpec([c] + rest, consumed).item.Some? && NextSpec([c] + rest, consumed).item.value.Located? ==>
      NextSpec([c] + rest, consumed).text == NextSpec(rest, consumed + 1).text
      && NextSpec([c] + rest, consumed).consumed == NextSpec(rest, consumed + 1).consumed
  {
    assert ([c] + rest)[1..] == rest;
  }

  /** The matcher skips a leading whitespace character. */
  lemma TokensBlank(c: char, rest: string, consumed: nat)
    requires IsWhitespace(c)
    ensures Tokens([c] + rest, consumed) == Tokens(rest, consumed + 1)
  {
    NextBlank(c, rest, consumed);
  }

  /** The empty text has no tokens. */
  lemma TokensEmpty(consumed: nat)
    ensures Tokens([], consumed) == Lexemes([])
  {
    assert NextSpec([], consumed).item == None;
  }
}
