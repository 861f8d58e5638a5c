/**
 * Turning a keyword and the tokens after it into a statement. The tokens are
 * those the scanner produces for the rest of the line; expressions are
 * accepted or refused by the expression reader, which is supplied from outside.
 */
module StatementParser {
  import opened Wrappers
  import opened Text
  import opened Expressions
  import opened Statements

  /** A jump target token: non-empty, made of digits and signs only (so "+-" passes). */
  predicate IsNumberToken(t: string) {
    |t| > 0 && forall i :: 0 <= i < |t| ==> IsDigit(t[i]) || t[i] == '+' || t[i] == '-'
  }

  lemma NumberTokenExamples()
    ensures IsNumberToken("40") && IsNumberToken("-1") && IsNumberToken("+-")
    ensures !IsNumberToken("") && !IsNumberToken("4a") && !IsNumberToken("x")
  {
    assert "4a"[1] == 'a';
    assert "x"[0] == 'x';
  }

  predicate IsThen(t: string) {
    Upper(t) == "THEN"
  }

  predicate IsComparatorToken(t: string) {
    t == "<" || t == ">" || t == "="
  }

  /** The position of the first THEN, compared case-insensitively, or the length when there is none. */
  function IndexOfThen(toks: seq<string>): (i: nat)
    ensures i <= |toks|
    ensures i < |toks| ==> IsThen(toks[i])
    ensures forall j :: 0 <= j < i ==> !IsThen(toks[j])
  {
    if toks == [] then 0
    else if IsThen(toks[0]) then 0
    else 1 + IndexOfThen(toks[1..])
  }

  /** The position of the first "<", ">" or "=" token, or the length when there is none. */
  function IndexOfComparator(toks: seq<string>): (i: nat)
    ensures i <= |toks|
    ensures i < |toks| ==> IsComparatorToken(toks[i])
    ensures forall j :: 0 <= j < i ==> !IsComparatorToken(toks[j])
  {
    if toks == [] then 0
    else if IsComparatorToken(toks[0]) then 0
    else 1 + IndexOfComparator(toks[1..])
  }

  /**
   * The comparator starting at position i: "<" followed by ">" is "<>", "<" or
   * ">" followed by "=" is "<=" or ">=", and a lone token (and "=" always) stands for itself.
   */
  function ComparatorAt(toks: seq<string>, i: nat): (op: string)
    requires i < |toks| && IsComparatorToken(toks[i])
    ensures op in {"=", "<", ">", "<=", ">=", "<>"}
    ensures toks[i] == "=" ==> op == "="
    ensures op == "<>" <==> toks[i] == "<" && i + 1 < |toks| && toks[i + 1] == ">"
    ensures op == "<=" <==> toks[i] == "<" && i + 1 < |toks| && toks[i + 1] == "="
    ensures op == ">=" <==> toks[i] == ">" && i + 1 < |toks| && toks[i + 1] == "="
    ensures |op| == 1 <==> op == toks[i]
  {
    var t := toks[i];
    if i + 1 < |toks| && t == "<" && toks[i + 1] == ">" then "<>"
    else if i + 1 < |toks| && t == "<" && toks[i + 1] == "=" then "<="
    else if i + 1 < |toks| && t == ">" && toks[i + 1] == "=" then ">="
    else t
  }

  /**
   * IF <lhs> <comparator> <rhs> THEN <line>. The condition is every token
   * before the first THEN; the target is the token right after it.
   */
  function ParseIf(toks: seq<string>, syn: Syntax): (r: Result<Stmt>)
    ensures r.Ok? ==> r.value.If? && r.value.op in {"=", "<", ">", "<=", ">=", "<>"}
    ensures r.Ok? ==> r.value.lhs.tokens != [] && r.value.rhs.tokens != []
    ensures r.Ok? ==> IndexOfThen(toks) + 1 < |toks|
  {
    var t := IndexOfThen(toks);
    if t == |toks| || t + 1 == |toks| then
      Err(SyntaxError)
    else if !IsNumberToken(toks[t + 1]) then
      Err(SyntaxError)
    else
      match syn.toInteger(toks[t + 1])
      case Err(m) => Err(m)
      case Ok(target) =>
        var cond := toks[..t];
        var c := IndexOfComparator(cond);
        if c == |cond| then
          Err(SyntaxError)
        else
          var op := ComparatorAt(cond, c);
          var rhsStart := c + |op|;
          if rhsStart > |cond| - 1 || c == 0 then
            Err(SyntaxError)
          else (
            match syn.read(cond[..c])
            case Fail(m) => Err(m)
            case Pass => (
              match syn.read(cond[rhsStart..])
              case Fail(m) => Err(m)
              case Pass => Ok(If(Expr(cond[..c]), op, Expr(cond[rhsStart..]), target))))
  }

  /** The grammar of each statement keyword; the keyword is already upper-cased. */
  function ParseStatement(keyword: string, toks: seq<string>, syn: Syntax): (r: Result<Stmt>)
    ensures r.Ok? ==> Keyword(r.value) == keyword
    ensures keyword !in {"REM", "LET", "PRINT", "INPUT", "END", "GOTO", "IF"} ==> r == Err(SyntaxError)
  {
    if keyword == "REM" then
      Ok(Rem(toks))
    else if keyword == "LET" then
      if |toks| < 2 || toks[1] != "=" then Err(SyntaxError)
      else (
        match syn.read(toks[2..])
        case Fail(m) => Err(m)
        case Pass => Ok(Let(toks[0], Expr(toks[2..]))))
    else if keyword == "PRINT" then (
      match syn.read(toks)
      case Fail(m) => Err(m)
      case Pass => Ok(Print(Expr(toks))))
    else if keyword == "INPUT" then
      if toks == [] then Err(SyntaxError) else Ok(Input(toks[0]))
    else if keyword == "END" then
      Ok(End)
    else if keyword == "GOTO" then
      if toks == [] || !IsNumberToken(toks[0]) then Err(SyntaxError)
      else (
        match syn.toInteger(toks[0])
        case Err(m) => Err(m)
        case Ok(target) => Ok(Goto(target)))
    else if keyword == "IF" then
      ParseIf(toks, syn)
    else
      Err(SyntaxError)
  }

  /** A stored line's statement: no tokens is an empty REM, otherwise the first token is the keyword. */
  function ParseRemainder(toks: seq<string>, syn: Syntax): (r: Result<Stmt>)
    ensures toks == [] ==> r == Ok(Rem([]))
    ensures toks != [] && r.Ok? ==> Keyword(r.value) == Upper(toks[0])
  {
    if toks == [] then Ok(Rem([])) else ParseStatement(Upper(toks[0]), toks[1..], syn)
  }

  /**
   * The first scan of the IF branch: take tokens until one reads THEN. `found`
   * tells whether the last token taken was THEN; `cond` holds the ones before it.
   */
  method CollectCondition(toks: seq<string>) returns (cond: seq<string>, found: bool)
    ensures found <==> IndexOfThen(toks) < |toks|
    ensures found ==> cond == toks[..IndexOfThen(toks)]
  {
    cond := [];
    var k := 0;
    var tok := "";
    while k < |toks|
      invariant k <= |toks| && cond == toks[..k]
      invariant forall j :: 0 <= j < k ==> !IsThen(toks[j])
      invariant tok == if k == 0 then "" else toks[k - 1]
    {
      tok := toks[k];
      if IsThen(tok) {
        break;
      }
      cond := cond + [tok];
      k := k + 1;
    }
    assert Upper("") == "";
    found := IsThen(tok);
    assert found ==> k == IndexOfThen(toks);
  }

  /**
   * The second scan of the IF branch: the first comparator token and the
   * comparator it forms with the token after it; opIndex is -1 when there is none.
   */
  method FindComparator(cond: seq<string>) returns (opIndex: int, op: string)
    ensures opIndex == -1 <==> IndexOfComparator(cond) == |cond|
    ensures opIndex != -1 ==> opIndex == IndexOfComparator(cond) && op == ComparatorAt(cond, opIndex)
  {
    opIndex, op := -1, "";
    var i := 0;
    while i < |cond|
      invariant i <= |cond| && opIndex == -1
      invariant forall j :: 0 <= j < i ==> !IsComparatorToken(cond[j])
    {
      var t := cond[i];
      if IsComparatorToken(t) {
        opIndex := i;
        op := t;
        if i + 1 < |cond| {
          if t == "<" && cond[i + 1] == ">" {
            op := "<>";
          } else if (t == "<" || t == ">") && cond[i + 1] == "=" {
            op := op + "=";
            assert op == "<=" || op == ">=";
          }
        }
        break;
      }
      i := i + 1;
    }
  }

  /** The IF branch as the source runs it: the condition, the target, then the comparator. */
  method ParseIfStatement(toks: seq<string>, syn: Syntax) returns (r: Result<Stmt>)
    ensures r == ParseIf(toks, syn)
  {
    var cond, found := CollectCondition(toks);
    if !found {
      return Err(SyntaxError);
    }
    var k := |cond|;
    if k + 1 >= |toks| {
      return Err(SyntaxError);
    }
    var targetTok := toks[k + 1];
    if !IsNumberToken(targetTok) {
      return Err(SyntaxError);
    }
    var converted := syn.toInteger(targetTok);
    if converted.Err? {
      return Err(converted.error);
    }
    var target := converted.value;
    var opIndex, op := FindComparator(cond);
    if opIndex == -1 {
      return Err(SyntaxError);
    }
    var rhsStart := opIndex + 1;
    if |op| == 2 {
      rhsStart := opIndex + 2;
    }
    if rhsStart > |cond| - 1 || opIndex == 0 {
      return Err(SyntaxError);
    }
    var lhsToks, rhsToks := cond[..opIndex], cond[rhsStart..];
    var lhsRead := syn.read(lhsToks);
    if lhsRead.Fail? {
      return Err(lhsRead.error);
    }
    var rhsRead := syn.read(rhsToks);
    if rhsRead.Fail? {
      return Err(rhsRead.error);
    }
    r := Ok(If(Expr(lhsToks), op, Expr(rhsToks), target));
  }

  /** The keyword dispatch of the source, statement by statement. */
  method ParseStatementWithKeyword(keyword: string, toks: seq<string>, syn: Syntax) returns (r: Result<Stmt>)
    ensures r == ParseStatement(keyword, toks, syn)
  {
    if keyword == "REM" {
      return Ok(Rem(toks));
    }
    if keyword == "LET" {
      if |toks| == 0 {
        return Err(SyntaxError);
      }
      var name := toks[0];
      if |toks| < 2 || toks[1] != "=" {
        return Err(SyntaxError);
      }
      var exp := syn.read(toks[2..]);
      if exp.Fail? {
        return Err(exp.error);
      }
      return Ok(Let(name, Expr(toks[2..])));
    }
    if keyword == "PRINT" {
      var exp := syn.read(toks);
      if exp.Fail? {
        return Err(exp.error);
      }
      return Ok(Print(Expr(toks)));
    }
    if keyword == "INPUT" {
      if |toks| == 0 {
        return Err(SyntaxError);
      }
      return Ok(Input(toks[0]));
    }
    if keyword == "END" {
      return Ok(End);
    }
    if keyword == "GOTO" {
      if |toks| == 0 {
        return Err(SyntaxError);
      }
      var ln := toks[0];
      if !IsNumberToken(ln) {
        return Err(SyntaxError);
      }
      var target := syn.toInteger(ln);
      if target.Err? {
        return Err(target.error);
      }
      return Ok(Goto(target.value));
    }
    if keyword == "IF" {
      r := ParseIfStatement(toks, syn);
      return;
    }
    r := Err(SyntaxError);
  }

  /** The source's reading of a stored line's text after its number. */
  method ParseStatementFromRemainder(toks: seq<string>, syn: Syntax) returns (r: Result<Stmt>)
    ensures r == ParseRemainder(toks, syn)
  {
    if |toks| == 0 {
      return Ok(Rem([]));
    }
    r := ParseStatementWithKeyword(Upper(toks[0]), toks[1..], syn);
  }

  /** The tokens a comparator is written with. */
  function OpTokens(op: string): seq<string> {
    if op == "<>" then ["<", ">"]
    else if op == "<=" then ["<", "="]
    else if op == ">=" then [">", "="]
    else [op]
  }

  lemma IndexOfThenIs(toks: seq<string>, i: nat)
    requires i < |toks| && IsThen(toks[i])
    requires forall j :: 0 <= j < i ==> !IsThen(toks[j])
    ensures IndexOfThen(toks) == i
  {
  }

  lemma IndexOfComparatorIs(toks: seq<string>, i: nat)
    requires i < |toks| && IsComparatorToken(toks[i])
    requires forall j :: 0 <= j < i ==> !IsComparatorToken(toks[j])
    ensures IndexOfComparator(toks) == i
  {
  }

  /**
   * What a successful IF parse read: the tokens before the first THEN are the
   * left side, the comparator's own tokens and the right side, in that order;
   * both sides are non-empty and accepted by the expression reader, the left side holds no
   * comparator token, and the target is the converted token after THEN.
   */
  lemma ParseIfSplits(toks: seq<string>, syn: Syntax)
    requires ParseIf(toks, syn).Ok?
    ensures var s := ParseIf(toks, syn).value;
      && s.If? && s.op in {"=", "<", ">", "<=", ">=", "<>"}
      && s.lhs.tokens != [] && s.rhs.tokens != []
      && syn.read(s.lhs.tokens) == Pass && syn.read(s.rhs.tokens) == Pass
      && (forall j :: 0 <= j < |s.lhs.tokens| ==> !IsComparatorToken(s.lhs.tokens[j]))
      && var t := |s.lhs.tokens| + |OpTokens(s.op)| + |s.rhs.tokens|;
      && t + 1 < |toks| && IsThen(toks[t]) && (forall j :: 0 <= j < t ==> !IsThen(toks[j]))
      && toks[..t] == s.lhs.tokens + OpTokens(s.op) + s.rhs.tokens
      && IsNumberToken(toks[t + 1]) && syn.toInteger(toks[t + 1]) == Ok(s.target)
  {
    var t := IndexOfThen(toks);
    var cond := toks[..t];
    var c := IndexOfComparator(cond);
    var op := ComparatorAt(cond, c);
    var rhsStart := c + |op|;
    assert 0 < c < |cond| && rhsStart < |cond|;
    assert syn.read(cond[..c]) == Pass && syn.read(cond[rhsStart..]) == Pass;
    assert ParseIf(toks, syn).value == If(Expr(cond[..c]), op, Expr(cond[rhsStart..]), syn.toInteger(toks[t + 1]).value);
    assert cond[c..rhsStart] == OpTokens(op);
    assert cond == cond[..c] + cond[c..rhsStart] + cond[rhsStart..];
  }

  /**
   * Reading back a written IF: the left side, the comparator's tokens, the right
   * side, THEN and a target parse to exactly that statement, provided the sides
   * are accepted by the expression reader, the left side holds no comparator token, neither side
   * holds THEN, and the right side does not start with a token the comparator
   * would absorb. Tokens after the target are ignored.
   */
  lemma ParseIfRoundTrip(lhs: seq<string>, op: string, rhs: seq<string>, thenTok: string, targetTok: string,
                         rest: seq<string>, syn: Syntax, target: int)
    requires lhs != [] && rhs != [] && op in {"=", "<", ">", "<=", ">=", "<>"}
    requires forall j :: 0 <= j < |lhs| ==> !IsComparatorToken(lhs[j]) && !IsThen(lhs[j])
    requires forall j :: 0 <= j < |rhs| ==> !IsThen(rhs[j])
    requires op == "<" ==> rhs[0] != ">" && rhs[0] != "="
    requires op == ">" ==> rhs[0] != "="
    requires syn.read(lhs) == Pass && syn.read(rhs) == Pass
    requires IsThen(thenTok) && IsNumberToken(targetTok) && syn.toInteger(targetTok) == Ok(target)
    ensures ParseIf(lhs + OpTokens(op) + rhs + [thenTok, targetTok] + rest, syn)
            == Ok(If(Expr(lhs), op, Expr(rhs), target))
  {
    var cond := lhs + OpTokens(op) + rhs;
    ConditionSplits(lhs, op, rhs);
    ThenFollowsCondition(cond, thenTok, targetTok, rest);
    assert lhs + OpTokens(op) + rhs + [thenTok, targetTok] + rest == cond + [thenTok, targetTok] + rest;
  }

  /** A condition written without THEN is read up to the THEN that follows it. */
  lemma ThenFollowsCondition(cond: seq<string>, thenTok: string, targetTok: string, rest: seq<string>)
    requires forall j :: 0 <= j < |cond| ==> !IsThen(cond[j])
    requires IsThen(thenTok)
    ensures var toks := cond + [thenTok, targetTok] + rest;
      IndexOfThen(toks) == |cond| && toks[..|cond|] == cond && toks[|cond| + 1] == targetTok
  {
    var toks := cond + [thenTok, targetTok] + rest;
    forall j | 0 <= j < |cond| ensures !IsThen(toks[j]) {
      assert toks[j] == cond[j];
    }
    assert toks[|cond|] == thenTok;
    IndexOfThenIs(toks, |cond|);
    assert toks[..|cond|] == cond;
  }

  /** A written condition is split back into its left side, comparator and right side. */
  lemma ConditionSplits(lhs: seq<string>, op: string, rhs: seq<string>)
    requires lhs != [] && rhs != [] && op in {"=", "<", ">", "<=", ">=", "<>"}
    requires forall j :: 0 <= j < |lhs| ==> !IsComparatorToken(lhs[j]) && !IsThen(lhs[j])
    requires forall j :: 0 <= j < |rhs| ==> !IsThen(rhs[j])
    requires op == "<" ==> rhs[0] != ">" && rhs[0] != "="
    requires op == ">" ==> rhs[0] != "="
    ensures var cond := lhs + OpTokens(op) + rhs;
      (forall j :: 0 <= j < |cond| ==> !IsThen(cond[j]))
      && IndexOfComparator(cond) == |lhs| && ComparatorAt(cond, |lhs|) == op
      && cond[..|lhs|] == lhs && cond[|lhs| + |op|..] == rhs
  {
    var cond := lhs + OpTokens(op) + rhs;
    assert Upper("<") == "<" && Upper(">") == ">" && Upper("=") == "=";
    forall j | 0 <= j < |cond| ensures !IsThen(cond[j]) {
      if j < |lhs| {
        assert cond[j] == lhs[j];
      } else if j < |lhs| + |OpTokens(op)| {
        assert cond[j] == OpTokens(op)[j - |lhs|];
      } else {
        assert cond[j] == rhs[j - |lhs| - |OpTokens(op)|];
      }
    }
    forall j | 0 <= j < |lhs| ensures !IsComparatorToken(cond[j]) {
      assert cond[j] == lhs[j];
    }
    assert cond[|lhs|] == OpTokens(op)[0];
    IndexOfComparatorIs(cond, |lhs|);
    if |OpTokens(op)| == 2 {
      assert cond[|lhs| + 1] == OpTokens(op)[1];
    } else {
      assert cond[|lhs| + 1] == rhs[0];
    }
    assert ComparatorAt(cond, |lhs|) == op;
    assert cond[..|lhs|] == lhs;
    assert cond[|lhs| + |OpTokens(op)|..] == rhs;
  }

  /**
   * The ways an IF can fail with SYNTAX ERROR once its target is read: no
   * comparator before THEN, a comparator in first position (empty left side),
   * or nothing after the comparator (empty right side).
   */
  lemma ParseIfMissingSide(toks: seq<string>, syn: Syntax)
    requires IndexOfThen(toks) + 1 < |toks| && IsNumberToken(toks[IndexOfThen(toks) + 1])
    requires syn.toInteger(toks[IndexOfThen(toks) + 1]).Ok?
    requires var cond := toks[..IndexOfThen(toks)];
      var c := IndexOfComparator(cond);
      c == |cond| || c == 0 || c + |ComparatorAt(cond, c)| == |cond|
    ensures ParseIf(toks, syn) == Err(SyntaxError)
  {
  }

  /** A target after THEN that is not a number token is a syntax error; one that does not convert raises the converter's error. */
  lemma ParseIfTargetErrors(toks: seq<string>, syn: Syntax)
    requires IndexOfThen(toks) + 1 < |toks|
    ensures var target := toks[IndexOfThen(toks) + 1];
      && (!IsNumberToken(target) ==> ParseIf(toks, syn) == Err(SyntaxError))
      && (IsNumberToken(target) && syn.toInteger(target).Err? ==> ParseIf(toks, syn) == Err(syn.toInteger(target).error))
  {
  }

  /** Without a THEN, or with nothing after the first THEN, IF is a syntax error. */
  lemma ParseIfNeedsThenAndTarget(toks: seq<string>, syn: Syntax)
    requires forall j :: 0 <= j < |toks| - 1 ==> !IsThen(toks[j])
    ensures ParseIf(toks, syn) == Err(SyntaxError)
  {
  }

  /**
   * The other statements: LET needs a name and "=" before an expression the
   * reader accepts, PRINT such an expression, INPUT a name, GOTO a number
   * token that converts; END and REM always parse; an unknown keyword never does.
   */
  lemma SimpleStatementGrammar(toks: seq<string>, syn: Syntax)
    ensures ParseStatement("LET", toks, syn).Ok? <==> |toks| >= 2 && toks[1] == "=" && syn.read(toks[2..]) == Pass
    ensures ParseStatement("LET", toks, syn).Ok? ==> ParseStatement("LET", toks, syn).value == Let(toks[0], Expr(toks[2..]))
    ensures ParseStatement("LET", toks, syn).Err? ==>
      ParseStatement("LET", toks, syn).error == if |toks| < 2 || toks[1] != "=" then SyntaxError else syn.read(toks[2..]).error
    ensures ParseStatement("PRINT", toks, syn) ==
      if syn.read(toks) == Pass then Ok(Print(Expr(toks))) else Err(syn.read(toks).error)
    ensures ParseStatement("INPUT", toks, syn) == if toks == [] then Err(SyntaxError) else Ok(Input(toks[0]))
    ensures ParseStatement("GOTO", toks, syn).Ok? <==>
      toks != [] && IsNumberToken(toks[0]) && syn.toInteger(toks[0]).Ok?
    ensures ParseStatement("GOTO", toks, syn).Ok? ==> ParseStatement("GOTO", toks, syn).value == Goto(syn.toInteger(toks[0]).value)
    ensures toks == [] || !IsNumberToken(toks[0]) ==> ParseStatement("GOTO", toks, syn) == Err(SyntaxError)
    ensures toks != [] && IsNumberToken(toks[0]) && syn.toInteger(toks[0]).Err? ==>
      ParseStatement("GOTO", toks, syn) == Err(syn.toInteger(toks[0]).error)
    ensures ParseStatement("END", toks, syn) == Ok(End)
    ensures ParseStatement("REM", toks, syn) == Ok(Rem(toks))
    ensures ParseStatement("RUN", toks, syn) == Err(SyntaxError)
  {
  }
}
