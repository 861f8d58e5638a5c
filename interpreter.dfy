/**
 * The interpreter's driver: storing or removing a numbered line, executing a
 * statement typed without a line number, and the RUN loop over the program image.
 */
module Interpreter {
  import opened Wrappers
  import opened Text
  import opened Expressions
  import opened Statements
  import opened ProgramImage
  import opened NumberInput
  import opened Execution
  import opened StatementParser

  /** The tables of the program image, which a run reads but never changes. */
  datatype Image = Image(parsed: map<int, Stmt>, lines: set<int>)

  /** How a run ended: past the last line or at END, at an error, or with its step budget spent. */
  datatype Stop = Halted | Failed(message: string) | OutOfFuel

  datatype RunOutcome = RunOutcome(st: State, request: int, stop: Stop)

  /**
   * The RUN loop from line pc with the request slot holding `request`, for at
   * most `fuel` turns. A turn on a line with a parsed statement empties the
   * slot and executes it; an error ends the run there. Then a pending request
   * is taken: -1 halts and any other value becomes the next line. With no
   * request the run moves to the first stored line above pc. It halts when pc is -1.
   */
  function Run(img: Image, pc: int, request: int, st: State, ev: Evaluator, fuel: nat): (r: RunOutcome)
    ensures st.output <= r.st.output
    ensures st.vars.Keys <= r.st.vars.Keys
    decreases fuel
  {
    if pc == NoLine then
      RunOutcome(st, request, Halted)
    else if fuel == 0 then
      RunOutcome(st, request, OutOfFuel)
    else
      var e := if pc in img.parsed then Exec(img.parsed[pc], st, NoRequest, ev) else Effect(st, request, None);
      if e.failure.Some? then
        RunOutcome(e.st, e.request, Failed(e.failure.value))
      else if e.request != NoRequest then
        if e.request == EndRequest then RunOutcome(e.st, NoRequest, Halted)
        else Run(img, e.request, NoRequest, e.st, ev, fuel - 1)
      else
        Run(img, NextKey(img.lines, pc), NoRequest, e.st, ev, fuel - 1)
  }

  /** The RUN loop as the source writes it, over the program object and its request slot. */
  method RunProgram(prog: Program, st0: State, ev: Evaluator, startLine: int, fuel: nat) returns (st: State, stop: Stop)
    requires prog.Valid()
    modifies prog
    ensures prog.Valid()
    ensures prog.sourceLines == old(prog.sourceLines) && prog.parsedStmts == old(prog.parsedStmts)
    ensures Run(Image(old(prog.parsedStmts), old(prog.sourceLines.Keys)), startLine, old(prog.nextLineRequest), st0, ev, fuel)
            == RunOutcome(st, prog.nextLineRequest, stop)
  {
    ghost var img := Image(prog.parsedStmts, prog.sourceLines.Keys);
    ghost var goal := Run(img, startLine, prog.nextLineRequest, st0, ev, fuel);
    var pc := startLine;
    var budget := fuel;
    st := st0;
    while pc != NoLine
      invariant prog.Valid()
      invariant prog.parsedStmts == img.parsed && prog.sourceLines.Keys == img.lines
      invariant prog.sourceLines == old(prog.sourceLines)
      invariant Run(img, pc, prog.nextLineRequest, st, ev, budget) == goal
      decreases budget
    {
      if budget == 0 {
        return st, OutOfFuel;
      }
      var stmt := prog.GetParsedStatement(pc);
      if stmt.Some? {
        var discarded := prog.ConsumeRequest();
        var failure;
        st, failure := Execute(stmt.value, st, prog, ev);
        if failure.Some? {
          return st, Failed(failure.value);
        }
      }
      if prog.HasRequest() {
        var req := prog.ConsumeRequest();
        if req == EndRequest {
          return st, Halted;
        }
        pc := req;
      } else {
        pc := prog.GetNextLineNumber(pc);
      }
      budget := budget - 1;
    }
    stop := Halted;
  }

  /** RUN: the loop started at the first stored line. */
  method RunCommand(prog: Program, st0: State, ev: Evaluator, fuel: nat) returns (st: State, stop: Stop)
    requires prog.Valid()
    modifies prog
    ensures prog.Valid()
    ensures prog.sourceLines == old(prog.sourceLines) && prog.parsedStmts == old(prog.parsedStmts)
    ensures var img := Image(old(prog.parsedStmts), old(prog.sourceLines.Keys));
      Run(img, FirstKey(img.lines), old(prog.nextLineRequest), st0, ev, fuel) == RunOutcome(st, prog.nextLineRequest, stop)
  {
    var start := prog.GetFirstLineNumber();
    st, stop := RunProgram(prog, st0, ev, start, fuel);
  }

  /**
   * A line typed with a number: a blank remainder removes that line; otherwise
   * the text is stored first and then parsed, so a parse error leaves the text
   * stored without a statement and is reported.
   */
  method StoreProgramLine(prog: Program, lineNumber: int, line: string, rest: seq<string>, syn: Syntax)
    returns (failure: Option<string>)
    requires prog.Valid()
    modifies prog
    ensures prog.Valid() && prog.nextLineRequest == old(prog.nextLineRequest)
    ensures rest == [] ==>
      && prog.sourceLines == old(prog.sourceLines) - {lineNumber}
      && prog.parsedStmts == old(prog.parsedStmts) - {lineNumber}
      && failure == None
    ensures rest != [] ==>
      && prog.sourceLines == old(prog.sourceLines)[lineNumber := line]
      && var p := ParseRemainder(rest, syn);
      && (p.Ok? ==> prog.parsedStmts == old(prog.parsedStmts)[lineNumber := p.value] && failure == None)
      && (p.Err? ==> prog.parsedStmts == old(prog.parsedStmts) - {lineNumber} && failure == Some(p.error))
  {
    if rest == [] {
      prog.RemoveSourceLine(lineNumber);
      return None;
    }
    prog.AddSourceLine(lineNumber, line);
    var stmt := ParseStatementFromRemainder(rest, syn);
    if stmt.Err? {
      return Some(stmt.error);
    }
    var attached := prog.SetParsedStatement(lineNumber, stmt.value);
    failure := None;
  }

  /** The statement keywords that run at once when typed without a line number. */
  const ImmediateKeywords: set<string> := {"LET", "PRINT", "INPUT", "END", "GOTO", "IF"}

  /**
   * A statement typed without a line number is parsed and executed once. What
   * END, GOTO or a true IF write to the request slot stays there afterwards.
   */
  method ExecuteImmediate(prog: Program, st0: State, keyword: string, rest: seq<string>, syn: Syntax, ev: Evaluator)
    returns (st: State, failure: Option<string>)
    requires prog.Valid() && keyword in ImmediateKeywords
    modifies prog
    ensures prog.Valid()
    ensures prog.sourceLines == old(prog.sourceLines) && prog.parsedStmts == old(prog.parsedStmts)
    ensures var p := ParseStatement(keyword, rest, syn);
      && (p.Err? ==> st == st0 && failure == Some(p.error) && prog.nextLineRequest == old(prog.nextLineRequest))
      && (p.Ok? ==> Exec(p.value, st0, old(prog.nextLineRequest), ev) == Effect(st, prog.nextLineRequest, failure))
  {
    var stmt := ParseStatementWithKeyword(keyword, rest, syn);
    if stmt.Err? {
      return st0, Some(stmt.error);
    }
    st, failure := Execute(stmt.value, st0, prog, ev);
  }

  /** More steps never change a run that already ended within its budget. */
  lemma {:induction false} RunFuelMonotone(img: Image, pc: int, request: int, st: State, ev: Evaluator, fuel: nat, more: nat)
    requires Run(img, pc, request, st, ev, fuel).stop != OutOfFuel
    ensures Run(img, pc, request, st, ev, fuel + more) == Run(img, pc, request, st, ev, fuel)
    decreases fuel
  {
    if pc != NoLine && fuel > 0 {
      var e := if pc in img.parsed then Exec(img.parsed[pc], st, NoRequest, ev) else Effect(st, request, None);
      if e.failure.None? && e.request != EndRequest {
        var next := if e.request != NoRequest then e.request else NextKey(img.lines, pc);
        RunFuelMonotone(img, next, NoRequest, e.st, ev, fuel - 1, more);
      }
    }
  }

  /** Once a run has taken a turn, the request slot is empty when it stops. */
  lemma {:induction false} RunEmptiesSlot(img: Image, pc: int, request: int, st: State, ev: Evaluator, fuel: nat)
    requires pc != NoLine && fuel > 0
    ensures Run(img, pc, request, st, ev, fuel).request == NoRequest
    decreases fuel
  {
    var e := if pc in img.parsed then Exec(img.parsed[pc], st, NoRequest, ev) else Effect(st, request, None);
    if e.failure.Some? {
      assert pc in img.parsed;
      ExecFailureKeepsRequest(img.parsed[pc], st, NoRequest, ev);
    } else if e.request != NoRequest && e.request != EndRequest {
      if e.request != NoLine && fuel > 1 {
        RunEmptiesSlot(img, e.request, NoRequest, e.st, ev, fuel - 1);
      }
    } else if e.request == NoRequest {
      var next := NextKey(img.lines, pc);
      if next != NoLine && fuel > 1 {
        RunEmptiesSlot(img, next, NoRequest, e.st, ev, fuel - 1);
      }
    }
  }

  /** A statement that raises an error has not written the request slot. */
  lemma ExecFailureKeepsRequest(s: Stmt, st: State, request: int, ev: Evaluator)
    requires Exec(s, st, request, ev).failure.Some?
    ensures Exec(s, st, request, ev).request == request
  {
  }

  /** END halts the run at once, with the state it found and an empty slot. */
  lemma EndHalts(img: Image, pc: int, request: int, st: State, ev: Evaluator, fuel: nat)
    requires pc != NoLine && pc in img.parsed && img.parsed[pc] == End
    ensures Run(img, pc, request, st, ev, fuel + 1) == RunOutcome(st, NoRequest, Halted)
  {
  }

  /** An error stops the run on the line that raised it, without moving on. */
  lemma ErrorStopsRun(img: Image, pc: int, request: int, st: State, ev: Evaluator, fuel: nat)
    requires pc != NoLine && pc in img.parsed
    requires Exec(img.parsed[pc], st, NoRequest, ev).failure.Some?
    ensures var e := Exec(img.parsed[pc], st, NoRequest, ev);
      Run(img, pc, request, st, ev, fuel + 1) == RunOutcome(e.st, NoRequest, Failed(e.failure.value))
  {
    ExecFailureKeepsRequest(img.parsed[pc], st, NoRequest, ev);
  }

  /**
   * A jump to a line with no parsed statement does not fail: the run goes on at
   * the first stored line above the target, whether or not the target is stored.
   */
  lemma GotoAbsentLineFallsThrough(img: Image, pc: int, target: int, request: int, st: State, ev: Evaluator, fuel: nat)
    requires pc != NoLine && pc in img.parsed && img.parsed[pc] == Goto(target)
    requires target != NoLine && target != NoRequest && target !in img.parsed
    ensures Run(img, pc, request, st, ev, fuel + 2) == Run(img, NextKey(img.lines, target), NoRequest, st, ev, fuel)
  {
    assert Run(img, pc, request, st, ev, fuel + 2) == Run(img, target, NoRequest, st, ev, fuel + 1);
  }

  /**
   * A jump to -2 writes the value that means "no request", so the run simply
   * moves to the next line, as if the GOTO had not been there.
   */
  lemma GotoMinusTwoIsNoJump(img: Image, pc: int, request: int, st: State, ev: Evaluator, fuel: nat)
    requires pc != NoLine && pc in img.parsed && img.parsed[pc] == Goto(NoRequest)
    ensures Run(img, pc, request, st, ev, fuel + 1) == Run(img, NextKey(img.lines, pc), NoRequest, st, ev, fuel)
  {
  }

  /** A jump to -1 writes the value that means END, so the run halts. */
  lemma GotoMinusOneIsEnd(img: Image, pc: int, request: int, st: State, ev: Evaluator, fuel: nat)
    requires pc != NoLine && pc in img.parsed && img.parsed[pc] == Goto(EndRequest)
    ensures Run(img, pc, request, st, ev, fuel + 1) == RunOutcome(st, NoRequest, Halted)
  {
  }

  /**
   * A request left in the slot (by a GOTO, IF or END typed without a line
   * number) is honoured by the next RUN when its first line has no statement:
   * the run jumps there, or halts for -1.
   */
  lemma StaleRequestRedirectsRun(img: Image, pc: int, request: int, st: State, ev: Evaluator, fuel: nat)
    requires pc != NoLine && pc !in img.parsed && request != NoRequest
    ensures Run(img, pc, request, st, ev, fuel + 1) ==
      if request == EndRequest then RunOutcome(st, NoRequest, Halted)
      else Run(img, request, NoRequest, st, ev, fuel)
  {
  }

  /** After the highest stored line the run halts unless that line's statement asked for a jump. */
  lemma LastLineEndsRun(img: Image, pc: int, request: int, st: State, ev: Evaluator, fuel: nat)
    requires pc != NoLine && pc in img.parsed
    requires forall j :: j in img.lines ==> j <= pc
    requires var e := Exec(img.parsed[pc], st, NoRequest, ev); e.failure.None? && e.request == NoRequest
    ensures Run(img, pc, request, st, ev, fuel + 1) ==
      RunOutcome(Exec(img.parsed[pc], st, NoRequest, ev).st, NoRequest, Halted)
  {
  }

  /**
   * The run of 10 LET X = 1, 20 PRINT X, 30 END prints 1 and halts, for any
   * evaluator that gives the constant 1 and reads X from the store.
   */
  lemma RunLetPrintEnd(one: Expr, x: Expr, ev: Evaluator, vars: Vars, input: seq<string>)
    requires forall v :: ev(one, v) == Ok(1)
    requires forall v :: "X" in v ==> ev(x, v) == Ok(v["X"])
    ensures var img := Image(map[10 := Let("X", one), 20 := Print(x), 30 := End], {10, 20, 30});
      Run(img, FirstKey(img.lines), NoRequest, State(vars, input, []), ev, 3)
      == RunOutcome(State(vars["X" := 1], input, [1]), NoRequest, Halted)
  {
    var img := Image(map[10 := Let("X", one), 20 := Print(x), 30 := End], {10, 20, 30});
    assert FirstKey(img.lines) == 10;
    assert !IsReservedKeyword("X") by {
      assert Upper("X") == "X";
    }
    assert 20 in Above(img.lines, 10);
    assert NextKey(img.lines, 10) == 20;
    assert NextKey(img.lines, 20) == 30;
    var st1 := State(vars["X" := 1], input, []);
    assert Run(img, 10, NoRequest, State(vars, input, []), ev, 3) == Run(img, 20, NoRequest, st1, ev, 2);
    assert Run(img, 20, NoRequest, st1, ev, 2) == Run(img, 30, NoRequest, st1.(output := [1]), ev, 1);
  }

  /**
   * The run of 10 LET X = 5, 20 IF X > 3 THEN 40, 30 PRINT 0, 40 PRINT 1 prints
   * only 1: the true IF jumps over line 30, and the run halts after line 40.
   */
  lemma RunIfSkipsLine(five: Expr, x: Expr, three: Expr, zero: Expr, one: Expr, ev: Evaluator, vars: Vars)
    requires forall v :: ev(five, v) == Ok(5) && ev(three, v) == Ok(3) && ev(zero, v) == Ok(0) && ev(one, v) == Ok(1)
    requires forall v :: "X" in v ==> ev(x, v) == Ok(v["X"])
    ensures var img := Image(map[10 := Let("X", five), 20 := If(x, ">", three, 40), 30 := Print(zero), 40 := Print(one)],
                             {10, 20, 30, 40});
      Run(img, FirstKey(img.lines), NoRequest, State(vars, [], []), ev, 3)
      == RunOutcome(State(vars["X" := 5], [], [1]), NoRequest, Halted)
  {
    var img := Image(map[10 := Let("X", five), 20 := If(x, ">", three, 40), 30 := Print(zero), 40 := Print(one)],
                     {10, 20, 30, 40});
    assert FirstKey(img.lines) == 10;
    assert !IsReservedKeyword("X") by {
      assert Upper("X") == "X";
    }
    assert 20 in Above(img.lines, 10);
    assert NextKey(img.lines, 10) == 20;
    assert NextKey(img.lines, 40) == NoLine;
    var st1 := State(vars["X" := 5], [], []);
    assert Run(img, 10, NoRequest, State(vars, [], []), ev, 3) == Run(img, 20, NoRequest, st1, ev, 2);
    assert Exec(If(x, ">", three, 40), st1, NoRequest, ev) == Effect(st1, 40, None);
    assert Run(img, 20, NoRequest, st1, ev, 2) == Run(img, 40, NoRequest, st1, ev, 1);
  }
}
