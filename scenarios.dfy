/**
 * The repository's unit tests replayed against the model, plus a few runs that show the
 * quirks of the code as written. Every assertion is checked from the contracts alone.
 */
module Scenarios {
  import opened Wrappers
  import opened Lines
  import opened BaseStreams
  import opened StringStreams
  import opened PushBack
  import opened Pipes

  /** A new stream is open; close() closes it, and closing it again changes nothing. */
  method CloseTwice()
  {
    var st := new BaseStream();
    var closed := st.IsClosed();
    assert !closed;
    st.Close();
    closed := st.IsClosed();
    assert closed;
    st.Close();
    closed := st.IsClosed();
    assert closed;
  }

  method TellAfterRead()
  {
    var sis := new StringInputStream("Test");
    var p := sis.Tell();
    assert p == 0;
    var _ := sis.Read(Some(2));
    p := sis.Tell();
    assert p == 2;
  }

  /** Seeks on "Test": the last index is 3, and index 4 (one past the end) is refused. */
  method SeekOnTest()
  {
    var sis := new StringInputStream("Test");
    var r := sis.Seek(2, "start");
    assert r == Pass && sis.pos == 2;
    r := sis.Seek(1, "current");
    assert r == Pass && sis.pos == 3;
    r := sis.Seek(0, "end");
    assert r == Pass && sis.pos == 3;
    r := sis.Seek(-3, "end");
    assert r == Pass && sis.pos == 0;
    r := sis.Seek(4, "start");
    assert r == Fail(AfterEnd(4)) && sis.pos == 0;
    r := sis.Seek(-1, "current");
    assert r == Fail(BeforeStart(-1)) && sis.pos == 0;
    r := sis.Seek(7, "sideways");
    assert r == Pass && sis.pos == 0;
  }

  method ReadableUntilEnd()
  {
    var sis := new StringInputStream("Test");
    var _ := sis.Seek(2, "start");
    var readable := sis.IsReadable();
    assert readable;
    var _ := sis.Seek(1, "current");
    readable := sis.IsReadable();
    assert readable;
    var _ := sis.Read(Some(1));
    readable := sis.IsReadable();
    assert !readable;
  }

  /** read() without a count leaves the cursor on the last index, so the next read() returns that character again. */
  method ReadRestTwice()
  {
    var sis := new StringInputStream("Test");
    var a := sis.Read(None);
    assert a == Some("Test") && sis.pos == 3;
    var b := sis.Read(None);
    assert b == Some("t") && sis.pos == 3;
  }

  /** Two read(50) calls on a 97-character text return its first 50 characters, then the other 47. */
  method ReadFiftyTwice()
  {
    var head: string := "PHP is a popular general-purpose scripting languag";
    var tail: string := "e that is especially suited to web development.";
    var text := head + tail;
    assert |head| == 50 && |tail| == 47;
    assert text[0..50] == head && text[50..97] == tail;
    var sis := new StringInputStream(text);
    var first := sis.Read(Some(50));
    assert first == Some(head);
    var second := sis.Read(Some(50));
    assert second == Some(tail);
    assert sis.pos == 100;
    ReadsAreContiguous(text, 0, 50, 50);
    assert first.value + second.value == text;
  }

  method ReadLineFooBarBaz()
  {
    var sis := new StringInputStream("Foo\nBar\nBaz");
    var s: string := "Foo\nBar\nBaz";
    assert s[0..] == s == "Foo" + ['\n'] + "Bar\nBaz";
    ScanLineStopsAtTerminator("Foo", '\n', "Bar\nBaz");
    var l1 := sis.ReadLine(None);
    assert l1 == Some("Foo") && sis.pos == 4;
    assert s[4..] == "Bar" + ['\n'] + "Baz";
    ScanLineStopsAtTerminator("Bar", '\n', "Baz");
    var l2 := sis.ReadLine(None);
    assert l2 == Some("Bar") && sis.pos == 8;
    assert s[8..] == "Baz";
    ScanLineWithoutTerminator("Baz");
    var l3 := sis.ReadLine(None);
    assert l3 == Some("Baz") && sis.pos == 11;
    var l4 := sis.ReadLine(None);
    assert l4 == None;
  }

  method ForeachHello()
  {
    var sis := new StringInputStream("Hello");
    assert sis.Iterate() == "Hello";
  }

  /** Three lines separated by terminators, the last one neither empty nor "0". */
  lemma ReadLinesOfThree(a: seq<char>, b: seq<char>, c: seq<char>, t: char, u: char)
    requires NoTerminator(a) && NoTerminator(b) && NoTerminator(c)
    requires IsTerminator(t) && IsTerminator(u) && !PhpEmpty(c)
    ensures ReadLinesOf(a + [t] + b + [u] + c) == [a, b, c]
  {
    assert a + [t] + b + [u] + c == a + [t] + (b + [u] + c);
    FragmentsAfterTerminator(a, t, b + [u] + c);
    FragmentsAfterTerminator(b, u, c);
    FragmentsOfLine(c);
    ReadLinesOfPieces(a + [t] + b + [u] + c, [a, b], c);
  }

  method ReadLinesOfFooBarBaz()
  {
    var s: string := "Foo\nBar\nBaz";
    var sis := new StringInputStream(s);
    assert s[0..] == s;
    var lines := sis.ReadLines(-1);
    assert s == "Foo" + ['\n'] + "Bar" + ['\n'] + "Baz";
    ReadLinesOfThree("Foo", "Bar", "Baz", '\n', '\n');
    assert lines == Some(["Foo", "Bar", "Baz"]);
    assert sis.pos == 11;
  }

  lemma ReversedOlleH()
    ensures Reversed("olleH") == "Hello"
  {
    forall k | 0 <= k < 5 ensures Reversed("olleH")[k] == "Hello"[k] {
      ReversedAt("olleH", k);
    }
  }

  /** Two lines separated by a terminator, the last one "0", which readLines drops. */
  lemma ReadLinesDropsLastZero(a: seq<char>, t: char, z: seq<char>)
    requires NoTerminator(a) && IsTerminator(t) && z == "0"
    ensures ReadLinesOf(a + [t] + z) == [a]
  {
    FragmentsAfterTerminator(a, t, z);
    FragmentsOfLine(z);
    ReadLinesOfPieces(a + [t] + z, [a], z);
  }

  /** On "Foo\n0", readLines() drops the "0": PHP's empty() holds of the string "0". */
  method ReadLinesDropsZero()
  {
    var s: string := "Foo\n0";
    var a := new StringInputStream(s);
    assert s[0..] == s;
    var lines := a.ReadLines(-1);
    assert s == "Foo" + ['\n'] + "0";
    ReadLinesDropsLastZero("Foo", '\n', "0");
    assert lines == Some(["Foo"]);
  }

  /** On the same text, readLine() returns "Foo" and then keeps the "0". */
  method ReadLineKeepsZero()
  {
    var s: string := "Foo\n0";
    assert s == "Foo" + ['\n'] + "0";
    var b := new StringInputStream(s);
    ScanLineStopsAtTerminator("Foo", '\n', "0");
    var first := b.ReadLine(None);
    assert first == Some("Foo") && b.pos == 4 && s[4..] == "0";
    ScanLineWithoutTerminator("0");
    var second := b.ReadLine(None);
    assert second == Some("0");
  }

  /** readLine(2) returns one character: the second one scanned is consumed but dropped. */
  method ReadLineWithLimit()
  {
    var sis := new StringInputStream("Foo");
    var s: string := "Foo";
    assert s[0..] == s && !IsTerminator(s[0]) && !IsTerminator(s[1]);
    var line := sis.ReadLine(Some(2));
    var scan := ScanLine(s, 2);
    assert |scan.line| < 2;
    assert scan.consumed == 2;
    assert scan.line == "F";
    assert line == Some("F") && sis.pos == 2;
  }

  /** unread("olleH") on ", World!" puts "Hello" in front, as the push-back test expects. */
  method UnreadHello()
  {
    var pb := new PushBackStringInputStream(", World!");
    pb.Unread("olleH");
    ReversedOlleH();
    assert pb.stream.source == "Hello, World!";
    var text := pb.stream.Read(Some(999));
    assert Substring("Hello, World!", 0, 999) == "Hello, World!"[0..13] == "Hello, World!";
    assert text == Some("Hello, World!");
  }

  /**
   * unread does not update the cached length: after pushing back five characters, the
   * stream reports itself exhausted while five characters remain unread.
   */
  method UnreadLeavesLengthStale()
  {
    var pb := new PushBackStringInputStream(", World!");
    pb.Unread("olleH");
    ReversedOlleH();
    assert pb.stream.source == "Hello, World!";
    var head := pb.stream.Read(Some(8));
    assert Substring("Hello, World!", 0, 8) == "Hello, World!"[0..8] == "Hello, W";
    assert head == Some("Hello, W");
    var readable := pb.stream.IsReadable();
    assert !readable && |pb.stream.source| - pb.stream.pos == 5;
    var tail := pb.stream.Read(Some(5));
    assert tail == None;
  }

  /** A pipe from "Foo\nBar" moves the line "Foo", then the character 'B'. */
  method PipeLineThenChar()
  {
    var sis := new StringInputStream("Foo\nBar");
    var sink := new OutputSink();
    var pipe := new BufferlessPipe(null, null);
    var r := pipe.ProcessLine();
    assert r == Err(NoInput);
    var _ := pipe.Attach(sis, sink);
    assert sis.source[0..] == "Foo" + ['\n'] + "Bar";
    ScanLineStopsAtTerminator("Foo", '\n', "Bar");
    var line := pipe.ProcessLine();
    assert line == Ok("Foo") && sink.written == "Foo\n";
    var c := pipe.ProcessChar();
    assert c == Ok('B') && sink.written == "Foo\nB";
    var _ := pipe.Detach();
    assert sis.pos == 5 && sink.written == "Foo\nB";
  }
}
