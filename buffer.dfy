/** The editor buffer as a sequence of lines, 1-based (line, column)
    positions, one-step movement backward and forward over them, and the
    slice of text between two positions. */
module Buffer {
  import opened Wrappers
  import opened Text

  type Lines = seq<string>

  datatype Pos = Pos(line: int, col: int)

  /** Line-major order on positions. */
  predicate Before(p: Pos, q: Pos) {
    p.line < q.line || (p.line == q.line && p.col < q.col)
  }

  /** A position on a character of its line. */
  predicate InsideLine(buf: Lines, p: Pos) {
    1 <= p.line <= |buf| && 1 <= p.col <= |buf[p.line - 1]|
  }

  /** `previousSourceLocation`: one column back, or the end of the previous
      line from a first column; `None` only at the start of the buffer. */
  function PreviousLocation(buf: Lines, line: int, col: int): (r: Option<Pos>)
    requires 1 <= line <= |buf|
    ensures r.None? <==> line == 1 && col <= 1
    ensures r.Some? ==> Before(r.value, Pos(line, col))
    ensures r.Some? ==> 1 <= r.value.line <= |buf| && 0 <= r.value.col
    ensures col > 1 ==> r == Some(Pos(line, col - 1))
    ensures col <= 1 && line > 1 ==> r == Some(Pos(line - 1, |buf[line - 2]|))
  {
    if col > 1 then Some(Pos(line, col - 1))
    else if line == 1 then None
    else Some(Pos(line - 1, |buf[line - 2]|))
  }

  /** `nextSourceLocation`: one column on while before the end of the line,
      else the first column of the next line; `None` at the end of the last
      line. */
  function NextLocation(buf: Lines, line: int, col: int): (r: Option<Pos>)
    requires 1 <= line <= |buf|
    ensures r.None? <==> line == |buf| && col >= |buf[line - 1]|
    ensures r.Some? ==> Before(Pos(line, col), r.value)
    ensures r.Some? ==> 1 <= r.value.line <= |buf| && (col >= 0 ==> 1 <= r.value.col)
    ensures col < |buf[line - 1]| ==> r == Some(Pos(line, col + 1))
    ensures col >= |buf[line - 1]| && line < |buf| ==> r == Some(Pos(line + 1, 1))
  {
    if col < |buf[line - 1]| then Some(Pos(line, col + 1))
    else if line == |buf| then None
    else Some(Pos(line + 1, 1))
  }

  /** Stepping back undoes a step forward from any character of a line. */
  lemma PreviousAfterNext(buf: Lines, p: Pos)
    requires InsideLine(buf, p)
    ensures match NextLocation(buf, p.line, p.col)
            case None => true
            case Some(q) => PreviousLocation(buf, q.line, q.col) == Some(p)
  {
  }

  /** Stepping forward undoes a step back from a character or a first column. */
  lemma NextAfterPrevious(buf: Lines, p: Pos)
    requires InsideLine(buf, p) || (1 <= p.line <= |buf| && p.col == 1)
    ensures match PreviousLocation(buf, p.line, p.col)
            case None => true
            case Some(q) => 1 <= q.line <= |buf| && NextLocation(buf, q.line, q.col) == Some(p)
  {
  }

  /** `getBufferContent`: lines `startLine..endLine`, the first cut before
      `startCol` and the last cut after `endCol` (both 1-based, inclusive),
      interior lines verbatim. */
  function BufferContent(buf: Lines, startLine: int, startCol: int, endLine: int, endCol: int): (r: Lines)
    requires 1 <= startLine <= endLine <= |buf| && 1 <= startCol && 0 <= endCol
    ensures |r| == endLine - startLine + 1
    ensures startLine == endLine ==> r[0] == PySlice(buf[startLine - 1], startCol - 1, endCol)
    ensures startLine < endLine ==>
              && r[0] == PySlice(buf[startLine - 1], startCol - 1, |buf[startLine - 1]|)
              && r[|r| - 1] == PySlice(buf[endLine - 1], 0, endCol)
    ensures forall i :: 0 < i < |r| - 1 ==> r[i] == buf[startLine - 1 + i]
  {
    if startLine == endLine then
      [PySlice(buf[startLine - 1], startCol - 1, endCol)]
    else
      [PySlice(buf[startLine - 1], startCol - 1, |buf[startLine - 1]|)]
      + buf[startLine..endLine - 1]
      + [PySlice(buf[endLine - 1], 0, endCol)]
  }

  /** The plugin's procedure: take a fresh slice of the buffer, then
      overwrite its first and last elements. */
  method GetBufferContent(buf: Lines, startLine: int, startCol: int, endLine: int, endCol: int)
    returns (resultLines: Lines)
    requires 1 <= startLine <= endLine <= |buf| && 1 <= startCol && 0 <= endCol
    ensures resultLines == BufferContent(buf, startLine, startCol, endLine, endCol)
  {
    resultLines := buf[startLine - 1..endLine];
    if startLine == endLine {
      resultLines := resultLines[0 := PySlice(resultLines[0], startCol - 1, endCol)];
    } else {
      resultLines := resultLines[0 := PySlice(resultLines[0], startCol - 1, |resultLines[0]|)];
      var last := |resultLines| - 1;
      resultLines := resultLines[last := PySlice(resultLines[last], 0, endCol)];
    }
    ghost var spec := BufferContent(buf, startLine, startCol, endLine, endCol);
    assert forall i :: 0 <= i < |spec| ==> resultLines[i] == spec[i];
  }
}
