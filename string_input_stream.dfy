/** An input stream over an in-memory character buffer, read through a cursor. */
module StringStreams {
  import opened Wrappers
  import opened SeekOrigins
  import opened Lines

  /** The two IOExceptions seek throws, each carrying the offending offset. */
  datatype SeekError = BeforeStart(offset: int) | AfterEnd(offset: int)

  /**
   * Where seek(offset, origin) moves a cursor at pos on a stream whose cached length is
   * length, or the exception it throws instead. The valid positions are 0 to length - 1
   * (the last index, not one past it), and an origin string that none of the three
   * constants matches leaves the cursor where it is.
   */
  function SeekTarget(pos: int, length: int, offset: int, origin: string): (r: Result<int, SeekError>)
    ensures r.Err? ==> r.error.offset == offset
    ensures OriginOf(origin).None? ==> r == Ok(pos)
    ensures OriginOf(origin).Some? && r.Ok? ==> 0 <= r.value <= length - 1
    ensures OriginOf(origin) == Some(Start) ==>
              && (r.Ok? <==> 0 <= offset <= length - 1)
              && (r.Ok? ==> r.value == offset)
              && (r == Err(BeforeStart(offset)) <==> offset < 0)
    ensures OriginOf(origin) == Some(End) ==>
              && (r.Ok? <==> -(length - 1) <= offset <= 0)
              && (r.Ok? ==> r.value == length - 1 + offset)
              && (r == Err(AfterEnd(offset)) <==> offset > 0)
    ensures OriginOf(origin) == Some(Current) ==>
              && (r.Ok? <==> 0 <= pos + offset <= length - 1)
              && (r.Ok? ==> r.value == pos + offset)
              && (r == Err(AfterEnd(offset)) <==> pos + offset > length - 1)
  {
    match OriginOf(origin)
    case None => Ok(pos)
    case Some(Start) =>
      if offset < 0 then Err(BeforeStart(offset))
      else if offset > length - 1 then Err(AfterEnd(offset))
      else Ok(offset)
    case Some(End) =>
      if offset > 0 then Err(AfterEnd(offset))
      else if offset < -(length - 1) then Err(BeforeStart(offset))
      else Ok(length - 1 + offset)
    case Some(Current) =>
      if pos + offset > length - 1 then Err(AfterEnd(offset))
      else if pos + offset < 0 then Err(BeforeStart(offset))
      else Ok(pos + offset)
  }

  /** The buffer's substring(start, count): count characters from start, or as many as remain. */
  function Substring(s: seq<char>, start: nat, count: nat): (r: seq<char>)
    requires start <= |s|
    ensures |r| == if start + count <= |s| then count else |s| - start
    ensures forall i :: 0 <= i < |r| ==> r[i] == s[start + i]
  {
    s[start..if start + count <= |s| then start + count else |s|]
  }

  /** Two reads in a row return adjacent pieces: together, what one read of both counts returns. */
  lemma ReadsAreContiguous(s: seq<char>, start: nat, n: nat, m: nat)
    requires start + n <= |s|
    ensures Substring(s, start, n) + Substring(s, start + n, m) == Substring(s, start, n + m)
  {
    var a, b, c := Substring(s, start, n), Substring(s, start + n, m), Substring(s, start, n + m);
    assert |a + b| == |c|;
    forall i | 0 <= i < |c| ensures (a + b)[i] == c[i] {
      if i >= n {
        assert (a + b)[i] == b[i - n];
      }
    }
  }

  /** The count argument of read and readLine: PHP compares null > 0 as false, like 0. */
  function Limit(n: Option<int>): int
  {
    if n.Some? then n.value else 0
  }

  class StringInputStream {
    /** The character buffer, shared with a push-back stream built on it. */
    var source: seq<char>
    /** The index of the next character to read. */
    var pos: int
    /** The buffer's length at construction; no later operation updates it. */
    var length: int

    ghost predicate Valid()
      reads this
    {
      0 <= pos && 0 <= length <= |source|
    }

    /** A new stream has its cursor at 0 and caches the buffer's length. */
    constructor (source: seq<char>)
      ensures Valid()
      ensures this.source == source && pos == 0 && length == |source|
    {
      this.source := source;
      pos := 0;
      length := |source|;
    }

    /**
     * getIterator: the characters from the cursor on, in order; producing them does not move
     * the cursor. Once the cursor is past the end of the buffer there are none.
     */
    function Iterate(): (cs: seq<char>)
      reads this
      requires Valid()
      ensures |cs| == if pos <= |source| then |source| - pos else 0
      ensures forall i :: 0 <= i < |cs| ==> cs[i] == source[pos + i]
    {
      if pos <= |source| then source[pos..] else []
    }

    /** A string stream supports random access. */
    method Seekable() returns (b: bool)
      ensures b
    {
      b := true;
    }

    /** The cursor position; changes nothing. */
    method Tell() returns (p: int)
      ensures p == pos
    {
      p := pos;
    }

    /**
     * Moves the cursor as SeekTarget says, or throws without moving it. An unknown origin
     * string matches no case of the switch and leaves the cursor where it is.
     */
    method Seek(offset: int, origin: string) returns (r: Outcome<SeekError>)
      requires Valid()
      modifies this`pos
      ensures Valid()
      ensures match SeekTarget(old(pos), length, offset, origin)
              case Ok(p) => r == Pass && pos == p
              case Err(e) => r == Fail(e) && pos == old(pos)
    {
      r := Pass;
      if origin == "start" {
        if offset < 0 {
          return Fail(BeforeStart(offset));
        }
        if offset > length - 1 {
          return Fail(AfterEnd(offset));
        }
        pos := offset;
      } else if origin == "end" {
        if offset > 0 {
          return Fail(AfterEnd(offset));
        }
        if offset < -(length - 1) {
          return Fail(BeforeStart(offset));
        }
        pos := length - 1 + offset;
      } else if origin == "current" {
        if pos + offset > length - 1 {
          return Fail(AfterEnd(offset));
        }
        if pos + offset < 0 {
          return Fail(BeforeStart(offset));
        }
        pos := pos + offset;
      }
    }

    /** Whether the cursor is still before the cached length; changes nothing. */
    method IsReadable() returns (b: bool)
      ensures b <==> pos < length
    {
      b := pos < length;
    }

    /**
     * read(n): null once the cursor has reached the cached length. A positive n returns the
     * next n characters (fewer if the buffer ends first) and advances the cursor by n even
     * past the end; a missing or non-positive n returns the whole rest of the buffer and puts
     * the cursor on the last index, not past it.
     */
    method Read(n: Option<int>) returns (r: Option<string>)
      requires Valid()
      modifies this`pos
      ensures Valid()
      ensures old(pos) >= length ==> r == None && pos == old(pos)
      ensures old(pos) < length && Limit(n) > 0 ==>
                r == Some(Substring(source, old(pos), Limit(n))) && pos == old(pos) + Limit(n)
      ensures old(pos) < length && Limit(n) <= 0 ==>
                r == Some(source[old(pos)..]) && pos == length - 1
    {
      if pos >= length {
        return None;
      }
      if n.Some? && n.value > 0 {
        r := Some(Substring(source, pos, n.value));
        pos := pos + n.value;
      } else {
        r := Some(source[pos..]);
        pos := length - 1;
      }
    }

    /**
     * readLine(n): null once the cursor has reached the cached length; otherwise scans the
     * buffer from the cursor one character at a time, advancing the cursor by one for each,
     * and returns what ScanLine says.
     */
    method ReadLine(n: Option<int>) returns (r: Option<string>)
      requires Valid()
      modifies this`pos
      ensures Valid()
      ensures old(pos) >= length ==> r == None && pos == old(pos)
      ensures old(pos) < length ==>
                var scan := ScanLine(source[old(pos)..], Limit(n));
                r == Some(scan.line) && pos == old(pos) + scan.consumed
    {
      if pos >= length {
        return None;
      }
      var limit := Limit(n);
      var rest := source[pos..];
      var str: string := "";
      var read := 0;
      while read < |rest|
        invariant 0 <= read <= |rest|
        invariant pos == old(pos) + read
        invariant limit > 0 ==> read < limit
        invariant forall j :: 0 <= j < read ==> !StopsAt(rest, limit, j)
        invariant str == rest[..read]
        invariant ScanFrom(rest, limit, read) == ScanLine(rest, limit)
      {
        var c := rest[read];
        pos := pos + 1;
        read := read + 1;
        if limit > 0 && read >= limit {
          return Some(str);
        }
        if c == '\n' || c == '\r' {
          return Some(str);
        }
        str := str + [c];
      }
      return Some(str);
    }

    /**
     * readLines: null once the cursor has reached the cached length; otherwise consumes the
     * whole rest of the buffer and returns its lines as ReadLinesOf says. The count argument
     * is overwritten before it is read, so it has no effect.
     */
    method ReadLines(lines: int) returns (r: Option<seq<string>>)
      requires Valid()
      modifies this`pos
      ensures Valid()
      ensures old(pos) >= length ==> r == None && pos == old(pos)
      ensures old(pos) < length ==> r == Some(ReadLinesOf(source[old(pos)..])) && pos == |source|
    {
      if pos >= length {
        return None;
      }
      var rest := source[pos..];
      var found: seq<string> := [];
      var str: string := "";
      var read := 0;
      while read < |rest|
        invariant 0 <= read <= |rest|
        invariant pos == old(pos) + read
        invariant found + [str] == Fragments(rest[..read])
      {
        var c := rest[read];
        FragmentsStep(rest, read);
        pos := pos + 1;
        read := read + 1;
        if c == '\n' || c == '\r' {
          found := found + [str];
          str := "";
        } else {
          str := str + [c];
        }
      }
      assert rest[..read] == rest;
      ReadLinesOfPieces(rest, found, str);
      if !PhpEmpty(str) {
        found := found + [str];
      }
      assert rest == source[old(pos)..];
      assert found == ReadLinesOf(rest);
      r := Some(found);
    }
  }
}
