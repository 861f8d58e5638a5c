/**
 * The program image: source text and parsed statement per line number, kept in
 * two ordered tables, and the one-shot request slot through which statements
 * tell the run loop to jump or stop.
 */
module ProgramImage {
  import opened Wrappers
  import opened Statements

  /** Values of the request slot: no request, END, or any other value as a jump target. */
  const NoRequest := -2
  const EndRequest := -1

  /** What the traversal functions return when there is no such line. */
  const NoLine := -1

  const LineNumberError := "LINE NUMBER ERROR"

  predicate IsLeast(m: int, s: set<int>) {
    m in s && forall j :: j in s ==> m <= j
  }

  lemma {:induction false} LeastExists(s: set<int>)
    requires s != {}
    ensures exists m :: IsLeast(m, s)
  {
    assert exists y :: y in s by {
      if forall y :: y !in s {
        assert false;
      }
    }
    var x :| x in s;
    if s == {x} {
      assert IsLeast(x, s);
    } else {
      var rest := s - {x};
      LeastExists(rest);
      var m :| IsLeast(m, rest);
      forall j | j in s
        ensures j == x || j in rest
      {
      }
      if x < m {
        assert IsLeast(x, s);
      } else {
        assert IsLeast(m, s);
      }
    }
  }

  /** The least element of a non-empty set of line numbers. */
  function Least(s: set<int>): (m: int)
    requires s != {}
    ensures IsLeast(m, s)
  {
    LeastExists(s);
    var m :| IsLeast(m, s);
    m
  }

  /** The stored line numbers strictly above n. */
  function Above(keys: set<int>, n: int): set<int> {
    set j | j in keys && j > n
  }

  /** The first line of an ordered table: its least key, or NoLine when it is empty. */
  function FirstKey(keys: set<int>): (k: int)
    ensures keys == {} ==> k == NoLine
    ensures keys != {} ==> IsLeast(k, keys)
  {
    if keys == {} then NoLine else Least(keys)
  }

  /**
   * The upper bound of n in an ordered table: the least key strictly above n
   * (n itself need not be a key), or NoLine when no key lies above n.
   */
  function NextKey(keys: set<int>, n: int): (k: int)
    ensures (forall j :: j in keys ==> j <= n) ==> k == NoLine
    ensures (exists j :: j in keys && j > n) ==> k in keys && k > n && IsLeast(k, Above(keys, n))
  {
    var above := Above(keys, n);
    assert forall j :: j in keys && j > n ==> j in above;
    if above == {} then
      NoLine
    else
      var k := Least(above);
      assert k in keys && k > n;
      k
  }

  class Program {
    var sourceLines: map<int, string>
    var parsedStmts: map<int, Stmt>
    var nextLineRequest: int

    /** Every parsed statement belongs to a stored source line. */
    ghost predicate Valid()
      reads this
    {
      parsedStmts.Keys <= sourceLines.Keys
    }

    constructor ()
      ensures Valid()
      ensures sourceLines == map[] && parsedStmts == map[] && nextLineRequest == NoRequest
    {
      sourceLines := map[];
      parsedStmts := map[];
      nextLineRequest := NoRequest;
    }

    method Clear()
      modifies this
      ensures Valid()
      ensures sourceLines == map[] && parsedStmts == map[] && nextLineRequest == NoRequest
    {
      parsedStmts := map[];
      sourceLines := map[];
      nextLineRequest := NoRequest;
    }

    /** Inserts or replaces the text of a line and drops any statement parsed for it before. */
    method AddSourceLine(lineNumber: int, line: string)
      requires Valid()
      modifies this
      ensures Valid()
      ensures sourceLines == old(sourceLines)[lineNumber := line]
      ensures parsedStmts == old(parsedStmts) - {lineNumber}
      ensures nextLineRequest == old(nextLineRequest)
    {
      sourceLines := sourceLines[lineNumber := line];
      if lineNumber in parsedStmts {
        parsedStmts := parsedStmts - {lineNumber};
      }
    }

    /** Deletes the text and the statement of a line; an absent line is left alone. */
    method RemoveSourceLine(lineNumber: int)
      requires Valid()
      modifies this
      ensures Valid()
      ensures sourceLines == old(sourceLines) - {lineNumber}
      ensures parsedStmts == old(parsedStmts) - {lineNumber}
      ensures lineNumber !in old(sourceLines) ==> sourceLines == old(sourceLines) && parsedStmts == old(parsedStmts)
      ensures nextLineRequest == old(nextLineRequest)
    {
      sourceLines := sourceLines - {lineNumber};
      if lineNumber in parsedStmts {
        parsedStmts := parsedStmts - {lineNumber};
      }
    }

    function GetSourceLine(lineNumber: int): (text: string)
      reads this
      ensures lineNumber in sourceLines ==> text == sourceLines[lineNumber]
      ensures lineNumber !in sourceLines ==> text == ""
    {
      if lineNumber in sourceLines then sourceLines[lineNumber] else ""
    }

    /**
     * Attaches a statement to a stored line, replacing the one it had. A line
     * without source text raises LINE NUMBER ERROR and nothing changes.
     */
    method SetParsedStatement(lineNumber: int, stmt: Stmt) returns (r: Outcome)
      requires Valid()
      modifies this
      ensures Valid()
      ensures r.Fail? <==> lineNumber !in old(sourceLines)
      ensures r.Fail? ==> r.error == LineNumberError && parsedStmts == old(parsedStmts)
      ensures r.Pass? ==> parsedStmts == old(parsedStmts)[lineNumber := stmt]
      ensures sourceLines == old(sourceLines) && nextLineRequest == old(nextLineRequest)
    {
      if lineNumber !in sourceLines {
        return Fail(LineNumberError);
      }
      parsedStmts := parsedStmts[lineNumber := stmt];
      r := Pass;
    }

    function GetParsedStatement(lineNumber: int): (r: Option<Stmt>)
      reads this
      ensures r.Some? <==> lineNumber in parsedStmts
      ensures r.Some? ==> r.value == parsedStmts[lineNumber]
    {
      if lineNumber in parsedStmts then Some(parsedStmts[lineNumber]) else None
    }

    function GetFirstLineNumber(): (k: int)
      reads this
      ensures sourceLines == map[] ==> k == NoLine
      ensures sourceLines != map[] ==> k in sourceLines && forall j :: j in sourceLines ==> k <= j
    {
      FirstKey(sourceLines.Keys)
    }

    function GetNextLineNumber(lineNumber: int): (k: int)
      reads this
      ensures (forall j :: j in sourceLines ==> j <= lineNumber) ==> k == NoLine
      ensures (exists j :: j in sourceLines && j > lineNumber) ==>
        k in sourceLines && k > lineNumber && forall j :: j in sourceLines && j > lineNumber ==> k <= j
    {
      var k := NextKey(sourceLines.Keys, lineNumber);
      assert forall j :: j in sourceLines && j > lineNumber ==> j in Above(sourceLines.Keys, lineNumber);
      k
    }

    method RequestNextLine(lineNumber: int)
      modifies this
      ensures nextLineRequest == lineNumber
      ensures sourceLines == old(sourceLines) && parsedStmts == old(parsedStmts)
    {
      nextLineRequest := lineNumber;
    }

    method RequestEnd()
      modifies this
      ensures nextLineRequest == EndRequest
      ensures sourceLines == old(sourceLines) && parsedStmts == old(parsedStmts)
    {
      nextLineRequest := EndRequest;
    }

    predicate HasRequest()
      reads this
    {
      nextLineRequest != NoRequest
    }

    /** Returns the pending request and empties the slot. */
    method ConsumeRequest() returns (v: int)
      modifies this
      ensures v == old(nextLineRequest) && nextLineRequest == NoRequest
      ensures sourceLines == old(sourceLines) && parsedStmts == old(parsedStmts)
    {
      v := nextLineRequest;
      nextLineRequest := NoRequest;
    }
  }
}
