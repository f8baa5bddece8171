/**
 * What readLine and readLines compute from the characters that remain after the cursor.
 * Both methods of StringInputStream scan those characters one at a time; the functions here
 * give the result of a whole scan, and the lemmas relate the two methods to each other.
 */
module Lines {

  /** The two characters readLine and readLines treat as line terminators. */
  predicate IsTerminator(c: char)
  {
    c == '\n' || c == '\r'
  }

  predicate NoTerminator(s: seq<char>)
  {
    forall i :: 0 <= i < |s| ==> !IsTerminator(s[i])
  }

  /** PHP's empty() applied to a string: true for "" and also, by PHP's rules, for "0". */
  predicate PhpEmpty(s: seq<char>)
  {
    s == "" || s == "0"
  }

  /** The text a readLine call returns and how many characters it advanced the cursor by. */
  datatype LineScan = LineScan(line: seq<char>, consumed: nat)

  /**
   * readLine returns right after scanning s[k] when that character was the limit-th one
   * scanned (only for a positive limit), or when it is a terminator.
   */
  predicate StopsAt(s: seq<char>, limit: int, k: nat)
    requires k < |s|
  {
    (limit > 0 && k + 1 >= limit) || IsTerminator(s[k])
  }

  /** The rest of a readLine scan that has passed s[..k] without stopping. */
  function ScanFrom(s: seq<char>, limit: int, k: nat): (r: LineScan)
    requires k <= |s|
    requires limit > 0 ==> k < limit
    requires forall j :: 0 <= j < k ==> !StopsAt(s, limit, j)
    ensures k <= |r.line| <= |s| && r.line == s[..|r.line|]
    ensures limit > 0 ==> |r.line| < limit
    ensures forall j :: 0 <= j < |r.line| ==> !StopsAt(s, limit, j)
    ensures |r.line| == |s| ==> r.consumed == |s|
    ensures |r.line| < |s| ==> r.consumed == |r.line| + 1 && StopsAt(s, limit, |r.line|)
    decreases |s| - k
  {
    if k == |s| then LineScan(s, |s|)
    else if StopsAt(s, limit, k) then LineScan(s[..k], k + 1)
    else ScanFrom(s, limit, k + 1)
  }

  /**
   * readLine(limit) over the remaining characters s: the line is the longest terminator-free
   * prefix of s that is shorter than a positive limit; the scan consumes that prefix plus the
   * character that stopped it (a terminator, or the limit-th character, which is dropped), or
   * all of s when nothing stopped it.
   */
  function ScanLine(s: seq<char>, limit: int): (r: LineScan)
    ensures r.consumed <= |s| && |r.line| <= |s|
    ensures r.line == s[..|r.line|] && NoTerminator(r.line)
    ensures limit > 0 ==> |r.line| < limit
    ensures |r.line| == |s| ==> r.consumed == |s|
    ensures |r.line| < |s| ==> r.consumed == |r.line| + 1
    ensures |r.line| < |s| ==> IsTerminator(s[|r.line|]) || (limit > 0 && r.consumed == limit)
  {
    var r := ScanFrom(s, limit, 0);
    assert forall i :: 0 <= i < |r.line| ==> r.line[i] == s[i] && !StopsAt(s, limit, i);
    r
  }

  /** Without a limit, readLine returns the text before the first terminator and consumes that terminator too. */
  lemma ScanLineStopsAtTerminator(line: seq<char>, t: char, rest: seq<char>)
    requires NoTerminator(line) && IsTerminator(t)
    ensures ScanLine(line + [t] + rest, 0) == LineScan(line, |line| + 1)
  {
    var s := line + [t] + rest;
    var r := ScanLine(s, 0);
    assert s[..|line|] == line && IsTerminator(s[|line|]);
    assert forall i :: 0 <= i < |r.line| ==> r.line[i] == s[i];
    assert forall i :: 0 <= i < |line| ==> s[i] == line[i];
    if |r.line| != |line| {
      assert false;
    }
  }

  /** Without a limit, readLine on terminator-free text returns all of it. */
  lemma ScanLineWithoutTerminator(line: seq<char>)
    requires NoTerminator(line)
    ensures ScanLine(line, 0) == LineScan(line, |line|)
  {
    var r := ScanLine(line, 0);
    assert forall i :: 0 <= i < |r.line| ==> r.line[i] == line[i];
    if |r.line| < |line| {
      assert false;
    }
  }

  /** One more character after the pieces f: a terminator opens a new piece, anything else extends the last. */
  function Extend(f: seq<seq<char>>, c: char): seq<seq<char>>
    requires |f| >= 1
  {
    if IsTerminator(c) then f + [[]]
    else f[..|f| - 1] + [f[|f| - 1] + [c]]
  }

  /**
   * The pieces the terminators of s cut it into, in order: one more piece than s has
   * terminators, the last one possibly empty. Built from the end, as readLines' loop builds it.
   */
  function Fragments(s: seq<char>): (r: seq<seq<char>>)
    ensures |r| >= 1
    ensures forall i :: 0 <= i < |r| ==> NoTerminator(r[i])
  {
    if s == [] then [[]]
    else Extend(Fragments(s[..|s| - 1]), s[|s| - 1])
  }

  /** The terminators of s, in order: what Fragments drops. */
  function Terminators(s: seq<char>): (t: seq<char>)
    ensures forall i :: 0 <= i < |t| ==> IsTerminator(t[i])
    ensures |Fragments(s)| == |t| + 1
  {
    if s == [] then []
    else
      var t := Terminators(s[..|s| - 1]);
      if IsTerminator(s[|s| - 1]) then t + [s[|s| - 1]] else t
  }

  /** Fragments and Terminators of a text with one character appended. */
  lemma Snoc(p: seq<char>, c: char)
    ensures Fragments(p + [c]) == Extend(Fragments(p), c)
    ensures Terminators(p + [c]) == if IsTerminator(c) then Terminators(p) + [c] else Terminators(p)
  {
    assert (p + [c])[..|p|] == p;
  }

  /** The pieces with the given separators put back between them. */
  function Join(pieces: seq<seq<char>>, separators: seq<char>): seq<char>
    requires |pieces| == |separators| + 1
  {
    if separators == [] then pieces[0]
    else Join(pieces[..|pieces| - 1], separators[..|separators| - 1])
         + [separators[|separators| - 1]] + pieces[|pieces| - 1]
  }

  /** Extending the pieces by one character extends their join by that character. */
  lemma JoinExtend(f: seq<seq<char>>, t: seq<char>, c: char)
    requires |f| == |t| + 1
    ensures |Extend(f, c)| == |if IsTerminator(c) then t + [c] else t| + 1
    ensures Join(Extend(f, c), if IsTerminator(c) then t + [c] else t) == Join(f, t) + [c]
  {
    if IsTerminator(c) {
      var g, u := f + [[]], t + [c];
      assert g[..|g| - 1] == f && u[..|u| - 1] == t;
      assert Join(g, u) == Join(f, t) + [c] + [];
    } else {
      var g := f[..|f| - 1] + [f[|f| - 1] + [c]];
      if t == [] {
        assert Join(g, t) == g[0] == f[0] + [c];
      } else {
        assert g[..|g| - 1] == f[..|f| - 1];
        assert Join(g, t) == Join(f[..|f| - 1], t[..|t| - 1]) + [t[|t| - 1]] + (f[|f| - 1] + [c]);
      }
    }
  }

  /** Splitting loses nothing but the terminators: putting them back gives the input again. */
  lemma {:induction false} JoinFragments(s: seq<char>)
    ensures Join(Fragments(s), Terminators(s)) == s
  {
    if s != [] {
      var s', c := s[..|s| - 1], s[|s| - 1];
      JoinFragments(s');
      assert s == s' + [c];
      Snoc(s', c);
      JoinExtend(Fragments(s'), Terminators(s'), c);
    }
  }

  /** What readLines returns for the remaining characters s. */
  function ReadLinesOf(s: seq<char>): (lines: seq<seq<char>>)
    ensures forall i :: 0 <= i < |lines| ==> NoTerminator(lines[i])
    ensures |lines| == |Terminators(s)| || |lines| == |Terminators(s)| + 1
  {
    var f := Fragments(s);
    f[..|f| - 1] + (if PhpEmpty(f[|f| - 1]) then [] else [f[|f| - 1]])
  }

  /** One more character read: a terminator closes the current piece, anything else extends it. */
  lemma FragmentsStep(s: seq<char>, k: nat)
    requires k < |s|
    ensures var f := Fragments(s[..k]);
            Fragments(s[..k + 1]) == if IsTerminator(s[k]) then f + [[]]
                                     else f[..|f| - 1] + [f[|f| - 1] + [s[k]]]
  {
    assert s[..k + 1] == s[..k] + [s[k]];
    Snoc(s[..k], s[k]);
  }

  /** readLines' result from the pieces its loop has collected and the text after the last terminator. */
  lemma ReadLinesOfPieces(s: seq<char>, found: seq<seq<char>>, last: seq<char>)
    requires found + [last] == Fragments(s)
    ensures ReadLinesOf(s) == found + (if PhpEmpty(last) then [] else [last])
  {
    var f := found + [last];
    assert f[..|f| - 1] == found;
  }

  /** What successive readLine() calls without a limit return until the characters s are used up. */
  function RepeatedLines(s: seq<char>): seq<seq<char>>
    decreases |s|
  {
    if s == [] then []
    else
      var sc := ScanLine(s, 0);
      [sc.line] + RepeatedLines(s[sc.consumed..])
  }

  /** All pieces but the last, then the last one unless it is empty. */
  function DropEmptyLast(f: seq<seq<char>>): seq<seq<char>>
    requires |f| >= 1
  {
    f[..|f| - 1] + (if f[|f| - 1] == [] then [] else [f[|f| - 1]])
  }

  /** A terminator-free text is a single piece. */
  lemma {:induction false} FragmentsOfLine(line: seq<char>)
    requires NoTerminator(line)
    ensures Fragments(line) == [line]
  {
    if line != [] {
      var l' := line[..|line| - 1];
      FragmentsOfLine(l');
      assert l' + [line[|line| - 1]] == line;
      Snoc(l', line[|line| - 1]);
    }
  }

  /** A terminator ends the first piece; the pieces after it are those of the text that follows. */
  lemma {:induction false} FragmentsAfterTerminator(line: seq<char>, t: char, rest: seq<char>)
    requires NoTerminator(line) && IsTerminator(t)
    ensures Fragments(line + [t] + rest) == [line] + Fragments(rest)
    decreases |rest|
  {
    if rest == [] {
      FragmentsOfLine(line);
      Snoc(line, t);
      assert line + [t] + rest == line + [t];
    } else {
      var r', c := rest[..|rest| - 1], rest[|rest| - 1];
      FragmentsAfterTerminator(line, t, r');
      assert rest == r' + [c];
      assert line + [t] + rest == (line + [t] + r') + [c];
      Snoc(line + [t] + r', c);
      Snoc(r', c);
      ExtendCons(line, Fragments(r'), c);
    }
  }

  /** Extending a list of pieces leaves its first piece alone when there are more. */
  lemma ExtendCons(line: seq<char>, f: seq<seq<char>>, c: char)
    requires |f| >= 1
    ensures Extend([line] + f, c) == [line] + Extend(f, c)
  {
    var g := [line] + f;
    assert g[..|g| - 1] == [line] + f[..|f| - 1];
  }

  /**
   * Repeated readLine() calls return every piece of s, the last one only when it is not
   * empty: a text that ends with a terminator yields no extra empty line.
   */
  lemma {:induction false} RepeatedLinesAreFragments(s: seq<char>)
    ensures RepeatedLines(s) == DropEmptyLast(Fragments(s))
    decreases |s|
  {
    if s != [] {
      var sc := ScanLine(s, 0);
      var rest := s[sc.consumed..];
      assert RepeatedLines(s) == [sc.line] + RepeatedLines(rest);
      if |sc.line| == |s| {
        assert sc.line == s && rest == [];
        FragmentsOfLine(s);
        assert DropEmptyLast([s]) == [s];
      } else {
        RepeatedLinesAreFragments(rest);
        LineThenFragments(s, sc.line, rest);
      }
    }
  }

  /** The step of the induction above: a line cut off by a terminator comes first in both lists. */
  lemma LineThenFragments(s: seq<char>, line: seq<char>, rest: seq<char>)
    requires NoTerminator(line) && |line| < |s| && IsTerminator(s[|line|])
    requires s[..|line|] == line && rest == s[|line| + 1..]
    ensures DropEmptyLast(Fragments(s)) == [line] + DropEmptyLast(Fragments(rest))
  {
    var t := s[|line|];
    assert s == line + [t] + rest by {
      assert s == s[..|line|] + [t] + s[|line| + 1..];
    }
    FragmentsAfterTerminator(line, t, rest);
    DropEmptyLastCons(line, Fragments(rest));
  }

  lemma DropEmptyLastCons(line: seq<char>, f: seq<seq<char>>)
    requires |f| >= 1
    ensures DropEmptyLast([line] + f) == [line] + DropEmptyLast(f)
  {
    var g := [line] + f;
    assert g[..|g| - 1] == [line] + f[..|f| - 1];
  }

  /**
   * readLines() returns exactly what repeated readLine() calls return, except when the text
   * after the last terminator is "0": PHP's empty() holds of it, so readLines drops it.
   */
  lemma ReadLinesMatchesRepeatedReadLine(s: seq<char>)
    ensures var f := Fragments(s);
            ReadLinesOf(s) == RepeatedLines(s) <==> f[|f| - 1] != "0"
  {
    RepeatedLinesAreFragments(s);
    var f := Fragments(s);
    assert f[|f| - 1] != "0" ==> PhpEmpty(f[|f| - 1]) == (f[|f| - 1] == []);
    if f[|f| - 1] == "0" {
      assert |ReadLinesOf(s)| == |f| - 1;
      assert |RepeatedLines(s)| == |f|;
    }
  }
}
