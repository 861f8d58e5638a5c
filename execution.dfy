/**
 * Executing one statement against the variable store, the pending replies to
 * INPUT, the printed values and the request slot of the program image.
 */
module Execution {
  import opened Wrappers
  import opened Text
  import opened Expressions
  import opened Statements
  import opened ProgramImage
  import opened NumberInput

  /** Words that may not be used as variable names, compared after upper-casing. */
  const ReservedKeywords: set<string> :=
    {"REM", "LET", "PRINT", "INPUT", "END", "GOTO", "IF", "THEN", "RUN", "LIST", "CLEAR", "QUIT", "HELP"}

  predicate IsReservedKeyword(name: string) {
    Upper(name) in ReservedKeywords
  }

  /** The six comparators an IF statement can execute. */
  const Comparators: set<string> := {"=", "<", ">", "<=", ">=", "<>"}

  /** What the interpreter session holds besides the program: variables, replies still to be read, values printed. */
  datatype State = State(vars: Vars, input: seq<string>, output: seq<int>)

  /** The result of one execution: the new state, the request slot, and the error raised, if any. */
  datatype Effect = Effect(st: State, request: int, failure: Option<string>)

  /** The comparison an IF statement performs, or None for a comparator it does not know. */
  function Compare(op: string, lv: int, rv: int): (r: Option<bool>)
    ensures r.Some? <==> op in Comparators
  {
    if op == "=" then Some(lv == rv)
    else if op == "<" then Some(lv < rv)
    else if op == ">" then Some(lv > rv)
    else if op == "<=" then Some(lv <= rv)
    else if op == ">=" then Some(lv >= rv)
    else if op == "<>" then Some(lv != rv)
    else None
  }

  /** The comparators are consistent with one another: each is a negation, a swap or a union of "=" and "<". */
  lemma CompareRelations(lv: int, rv: int)
    ensures Compare("<>", lv, rv).value == !Compare("=", lv, rv).value
    ensures Compare(">", lv, rv) == Compare("<", rv, lv)
    ensures Compare(">=", lv, rv).value == !Compare("<", lv, rv).value
    ensures Compare("<=", lv, rv).value == (Compare("<", lv, rv).value || Compare("=", lv, rv).value)
    ensures Compare("=", lv, rv) == Compare("=", rv, lv)
    ensures Compare("=", lv, rv) == Some(lv == rv) && Compare("<", lv, rv) == Some(lv < rv)
  {
  }

  /**
   * The meaning of executing statement s with the request slot holding
   * `request`. Only END, GOTO and a true IF write the slot.
   */
  function Exec(s: Stmt, st: State, request: int, ev: Evaluator): (r: Effect)
    ensures r.request != request ==> s.End? || s.Goto? || s.If?
    ensures r.failure.Some? ==> r.request == request && r.st.vars == st.vars && r.st.output == st.output
    ensures r.st.output != st.output ==> s.Print? && r.failure.None? && st.output < r.st.output
    ensures r.st.input != st.input ==> s.Input?
    ensures st.vars.Keys <= r.st.vars.Keys
  {
    match s
    case Rem(_) => Effect(st, request, None)
    case Let(name, e) =>
      if IsReservedKeyword(name) then Effect(st, request, Some(SyntaxError))
      else (
        match ev(e, st.vars)
        case Err(m) => Effect(st, request, Some(m))
        case Ok(v) => Effect(st.(vars := st.vars[name := v]), request, None))
    case Print(e) => (
      match ev(e, st.vars)
      case Err(m) => Effect(st, request, Some(m))
      case Ok(v) => Effect(st.(output := st.output + [v]), request, None))
    case Input(name) =>
      if IsReservedKeyword(name) then Effect(st, request, Some(SyntaxError))
      else
        var (value, rest) := ReadValue(st.input);
        if value.Some? then Effect(st.(vars := st.vars[name := value.value], input := rest), request, None)
        else Effect(st.(input := rest), request, Some(InvalidNumber))
    case End => Effect(st, EndRequest, None)
    case Goto(target) => Effect(st, target, None)
    case If(lhs, op, rhs, target) =>
      match ev(lhs, st.vars)
      case Err(m) => Effect(st, request, Some(m))
      case Ok(lv) =>
        match ev(rhs, st.vars)
        case Err(m) => Effect(st, request, Some(m))
        case Ok(rv) =>
          match Compare(op, lv, rv)
          case None => Effect(st, request, Some(SyntaxError))
          case Some(cond) => Effect(st, if cond then target else request, None)
  }

  /**
   * The execute methods of the statement classes: they change the state value
   * they are given and, for END, GOTO and IF, the request slot of the program.
   */
  method Execute(s: Stmt, st: State, prog: Program, ev: Evaluator) returns (st': State, failure: Option<string>)
    requires prog.Valid()
    modifies prog
    ensures prog.Valid()
    ensures prog.sourceLines == old(prog.sourceLines) && prog.parsedStmts == old(prog.parsedStmts)
    ensures Exec(s, st, old(prog.nextLineRequest), ev) == Effect(st', prog.nextLineRequest, failure)
  {
    st', failure := st, None;
    match s {
      case Rem(_) =>
      case Let(name, e) =>
        if IsReservedKeyword(name) {
          return st, Some(SyntaxError);
        }
        var v := ev(e, st.vars);
        if v.Err? {
          return st, Some(v.error);
        }
        st' := st.(vars := st.vars[name := v.value]);
      case Print(e) =>
        var v := ev(e, st.vars);
        if v.Err? {
          return st, Some(v.error);
        }
        st' := st.(output := st.output + [v.value]);
      case Input(name) =>
        if IsReservedKeyword(name) {
          return st, Some(SyntaxError);
        }
        var value, rest := ReadInteger(st.input);
        if value.None? {
          return st.(input := rest), Some(InvalidNumber);
        }
        st' := st.(vars := st.vars[name := value.value], input := rest);
      case End =>
        prog.RequestEnd();
      case Goto(target) =>
        prog.RequestNextLine(target);
      case If(lhs, op, rhs, target) =>
        var lv := ev(lhs, st.vars);
        if lv.Err? {
          return st, Some(lv.error);
        }
        var rv := ev(rhs, st.vars);
        if rv.Err? {
          return st, Some(rv.error);
        }
        var cond := false;
        if op == "=" { cond := lv.value == rv.value; }
        else if op == "<" { cond := lv.value < rv.value; }
        else if op == ">" { cond := lv.value > rv.value; }
        else if op == "<=" { cond := lv.value <= rv.value; }
        else if op == ">=" { cond := lv.value >= rv.value; }
        else if op == "<>" { cond := lv.value != rv.value; }
        else { return st, Some(SyntaxError); }
        if cond {
          prog.RequestNextLine(target);
        }
    }
  }

  /** LET with a reserved name raises SYNTAX ERROR before evaluating anything, whatever the case of the name. */
  lemma LetRejectsReserved(name: string, e: Expr, st: State, request: int, ev: Evaluator)
    requires IsReservedKeyword(name)
    ensures Exec(Let(name, e), st, request, ev) == Effect(st, request, Some(SyntaxError))
  {
  }

  /** Any spelling of a keyword that differs from it only in the case of its letters is reserved too. */
  lemma ReservedIgnoresCase(name: string, k: string)
    requires k in ReservedKeywords && |name| == |k|
    requires forall i :: 0 <= i < |name| ==> UpperChar(name[i]) == UpperChar(k[i])
    ensures IsReservedKeyword(name)
  {
    assert Upper(k) == k;
    assert Upper(name) == Upper(k);
  }

  /** For instance "let" and "Then" are reserved, and "x" is not. */
  lemma ReservedExamples()
    ensures IsReservedKeyword("let") && IsReservedKeyword("Then") && !IsReservedKeyword("x")
  {
    assert Upper("let") == "LET";
    assert Upper("Then") == "THEN";
    assert Upper("x") == "X";
  }

  /**
   * LET binds its name to the value of its expression and nothing else:
   * afterwards the name reads back that value, every other variable keeps its
   * value, and neither the printed values nor the request slot change.
   */
  lemma LetBinds(name: string, e: Expr, st: State, request: int, ev: Evaluator, v: int)
    requires !IsReservedKeyword(name) && ev(e, st.vars) == Ok(v)
    ensures var r := Exec(Let(name, e), st, request, ev);
      && r.failure == None && r.request == request
      && name in r.st.vars && r.st.vars[name] == v
      && (forall x :: x != name ==> (x in r.st.vars <==> x in st.vars))
      && (forall x :: x != name && x in st.vars ==> r.st.vars[x] == st.vars[x])
      && r.st.output == st.output && r.st.input == st.input
  {
  }

  /** An evaluation error in LET leaves everything as it was and is reported. */
  lemma LetEvalError(name: string, e: Expr, st: State, request: int, ev: Evaluator)
    requires !IsReservedKeyword(name) && ev(e, st.vars).Err?
    ensures Exec(Let(name, e), st, request, ev) == Effect(st, request, Some(ev(e, st.vars).error))
  {
  }

  /** REM changes nothing at all, whatever its comment. */
  lemma RemIsNoOp(comment: seq<string>, st: State, request: int, ev: Evaluator)
    ensures Exec(Rem(comment), st, request, ev) == Effect(st, request, None)
  {
  }

  /** PRINT emits exactly one value, that of its expression, and changes neither the variables nor the request slot. */
  lemma PrintEmitsOne(e: Expr, st: State, request: int, ev: Evaluator)
    requires ev(e, st.vars).Ok?
    ensures var r := Exec(Print(e), st, request, ev);
      r.st == st.(output := st.output + [ev(e, st.vars).value]) && r.request == request && r.failure == None
  {
  }

  /** GOTO always writes its target to the slot and END always writes -1; neither touches the state. */
  lemma GotoAndEndRequest(target: int, st: State, request: int, ev: Evaluator)
    ensures Exec(Goto(target), st, request, ev) == Effect(st, target, None)
    ensures Exec(End, st, request, ev) == Effect(st, EndRequest, None)
  {
  }

  /**
   * IF with both sides evaluated and a known comparator requests a jump to its
   * target exactly when the comparison holds, and otherwise leaves the slot as it was.
   */
  lemma IfJumpsWhenTrue(lhs: Expr, op: string, rhs: Expr, target: int, st: State, request: int, ev: Evaluator, lv: int, rv: int)
    requires ev(lhs, st.vars) == Ok(lv) && ev(rhs, st.vars) == Ok(rv)
    requires op in Comparators
    ensures var r := Exec(If(lhs, op, rhs, target), st, request, ev);
      r.failure == None && r.st == st
      && (Compare(op, lv, rv).value ==> r.request == target)
      && (!Compare(op, lv, rv).value ==> r.request == request)
  {
  }

  /**
   * IF evaluates its left side first, then its right side, whatever the
   * comparator: the first evaluation error is raised and nothing changes.
   */
  lemma IfEvaluatesLeftFirst(lhs: Expr, op: string, rhs: Expr, target: int, st: State, request: int, ev: Evaluator)
    requires ev(lhs, st.vars).Err? || ev(rhs, st.vars).Err?
    ensures var r := Exec(If(lhs, op, rhs, target), st, request, ev);
      r.st == st && r.request == request
      && r.failure == Some(if ev(lhs, st.vars).Err? then ev(lhs, st.vars).error else ev(rhs, st.vars).error)
  {
  }

  /** A comparator outside the six raises SYNTAX ERROR, but only once both sides have evaluated. */
  lemma IfUnknownComparator(lhs: Expr, op: string, rhs: Expr, target: int, st: State, request: int, ev: Evaluator)
    requires op !in Comparators
    ensures var r := Exec(If(lhs, op, rhs, target), st, request, ev);
      r.st == st && r.request == request
      && r.failure == Some(
        if ev(lhs, st.vars).Err? then ev(lhs, st.vars).error
        else if ev(rhs, st.vars).Err? then ev(rhs, st.vars).error
        else SyntaxError)
  {
  }

  /**
   * INPUT binds its name only when a reply converts: the first reply whose
   * trimmed text converts gives the value and the replies before it are
   * discarded; with no such reply it raises INVALID NUMBER and binds nothing.
   */
  /** INPUT with a reserved name raises SYNTAX ERROR before reading any reply. */
  lemma InputRejectsReserved(name: string, st: State, request: int, ev: Evaluator)
    requires IsReservedKeyword(name)
    ensures Exec(Input(name), st, request, ev) == Effect(st, request, Some(SyntaxError))
  {
  }

  lemma InputReadsFirstValidReply(name: string, st: State, request: int, ev: Evaluator, k: nat)
    requires !IsReservedKeyword(name) && k < |st.input|
    requires forall j :: 0 <= j < k ==> ParseIntegerSpec(Trimmed(st.input[j])).None?
    requires ParseIntegerSpec(Trimmed(st.input[k])).Some?
    ensures var r := Exec(Input(name), st, request, ev);
      && r.failure == None && r.request == request
      && r.st == st.(vars := st.vars[name := ParseIntegerSpec(Trimmed(st.input[k])).value], input := st.input[k + 1..])
  {
    ReadValueFirstValid(st.input, k);
  }

  lemma {:induction false} InputWithoutValidReply(name: string, st: State, request: int, ev: Evaluator)
    requires !IsReservedKeyword(name)
    requires forall j :: 0 <= j < |st.input| ==> ParseIntegerSpec(Trimmed(st.input[j])).None?
    ensures Exec(Input(name), st, request, ev) == Effect(st.(input := []), request, Some(InvalidNumber))
    decreases |st.input|
  {
    if st.input != [] {
      var st1 := st.(input := st.input[1..]);
      forall j | 0 <= j < |st1.input| ensures ParseIntegerSpec(Trimmed(st1.input[j])).None? {
        assert st1.input[j] == st.input[j + 1];
      }
      InputWithoutValidReply(name, st1, request, ev);
    }
  }
}
