# stk2k/iostream — stream, seek, line and push-back core in Dafny

This project models the in-memory core of the PHP library stk2k/iostream:

- `StringInputStream`: a cursor (`pos`) over a character buffer (`source`) with the buffer's
  length cached at construction (`length`). It has `tell`, `seek` from three origins, `isReadable`,
  `read`, `readLine`, `readLines` and iteration from the cursor.
- `PushBackStringInputStream`: the same stream plus `unread`, which prepends characters to the buffer.
- `BaseStream`: the closed/open lifecycle with an idempotent `close`.
- `BufferlessPipe`: two nullable bindings (an input and an output stream), the attach and detach
  operations, and `processChar`/`processLine`, which move one character or one line across.

Each PHP class becomes a Dafny class with corresponding fields. Methods that update fields have
`modifies` clauses, and their `ensures` clauses give the whole new state. What those methods
compute is specified by pure functions: `SeekTarget`, `Substring`, `ScanLine` (one `readLine`
scan), `Fragments`/`ReadLinesOf` (the `readLines` split) and `Reversed` (the net effect of
`unread`). Lemmas about those functions state what the library promises:

- Splitting loses only the terminators.
- `readLines` agrees with repeated `readLine` calls, except for a last piece "0".
- Successive unreads compose.
- Two reads return adjacent pieces.

The methods in `scenarios.dfy` replay the repository's unit tests against these contracts. They
also show the quirks of the code as written.

Files: `wrappers.dfy` (Option/Result/Outcome), `seek_origin.dfy`, `base_stream.dfy`, `lines.dfy`,
`string_input_stream.dfy`, `push_back.dfy`, `bufferless_pipe.dfy`, `scenarios.dfy`.

The model follows the code as written:

- Positions use an inclusive last index. `seek` accepts positions `0 .. length-1`, and `END` is
  anchored at `length-1`. On "Test", `seek(0, END)` gives 3, not 4.
- `read()` with no count, or with a non-positive one, returns the rest and sets `pos = length-1`.
  The stream is therefore still readable, and the next `read()` returns the last character again.
  `read(n)` with `n > 0` advances `pos` by `n`, even past the end.
- `readLine(n)` consumes the n-th character it scans but does not return it, even when that
  character is not a terminator.
- `readLines` ignores its count. It drops a trailing piece of which PHP's `empty()` holds, and
  that includes the string "0".
- `unread(buf)` puts `reverse(buf)` at index 0 of the whole buffer, not at the cursor. It leaves
  the cached `length` alone. After `unread`, the stream therefore reports itself exhausted
  while the last |buf| characters of the buffer, which lie beyond the cached length, are still unread.
  A single `readLine` or `readLines` call still scans to the end of the buffer, but the next call
  returns null once `pos` reaches the cached length. On "ab\nc" after `unread("xy")`, repeated
  `readLine` gives ["yxab"] while `readLines` gives ["yxab", "c"].
- End of data is signalled by `null` (`None`) from `read`, `readLine` and `readLines`
  (src/string/StringInputStream.php:138, 161, 194), never by an exception. The interface's doc
  comments (src/InputStreamInterface.php:52, 63, 74) promise the EOF character `''` instead.
- The library's doc comments and its code disagree in two more places. The `readLines` comment
  (src/string/StringInputStream.php:183-185, src/InputStreamInterface.php:74-76) implies that a
  non-negative count limits the lines read, but the code ignores the count (line 196).
  The `processChars` and `processLines` comments (src/PipeInterface.php:91-92, 112-113) promise a
  count, but the methods are declared to return `xString` and `xStringArray`.

## Model

| member | source | states |
|---|---|---|
| `SeekOrigins.OriginOf` | src/constants/SeekOrigin.php:8-10 | a seek-origin string selects START, END or CURRENT exactly when it equals that constant; any other string selects none |
| `SeekOrigins.OriginOfName` | src/constants/SeekOrigin.php:8-10 | the three constants are distinct, so each selects its own origin |
| `BaseStreams.BaseStream.constructor` | src/BaseStream.php:9 | a new stream is not closed |
| `BaseStreams.BaseStream.IsClosed` | src/BaseStream.php:14-17 | reports the closed flag and changes nothing |
| `BaseStreams.BaseStream.Close` | src/BaseStream.php:22-26 | afterwards the stream is closed; on a closed stream nothing changes (idempotent, and closed never reverts) |
| `Lines.ScanLine` | src/string/StringInputStream.php:163-179 | a readLine scan returns the longest terminator-free prefix of the rest that is shorter than a positive limit; it consumes that prefix plus the stopping character (a terminator or the limit-th character), or everything at end of data |
| `Lines.ScanLineStopsAtTerminator` | src/string/StringInputStream.php:172-173 | with no limit, the line is the text before the first terminator and the terminator is consumed too |
| `Lines.ScanLineWithoutTerminator` | src/string/StringInputStream.php:179 | with no limit, a terminator-free rest is returned whole and consumed whole |
| `Lines.Fragments` | src/string/StringInputStream.php:199-210 | readLines' loop cuts the rest into at least one piece, none of which contains a terminator |
| `Lines.Terminators` | src/string/StringInputStream.php:203-206 | the terminators met in order, one fewer than the pieces |
| `Lines.JoinFragments` | src/string/StringInputStream.php:199-210 | putting the terminators back between the pieces gives the input again: splitting loses nothing else |
| `Lines.Snoc` | src/string/StringInputStream.php:203-209 | appending one character to the text extends the pieces by that character and adds it to the terminators exactly when it is one |
| `Lines.JoinExtend` | src/string/StringInputStream.php:203-209 | extending the pieces by one character extends their join by that character |
| `Lines.ExtendCons` | src/string/StringInputStream.php:203-209 | once a terminator has closed the first piece, later characters leave it alone |
| `Scenarios.ReadLinesOfThree` | test/string/StringInputStreamTest.php:126-134 | three lines joined by terminators, the last one neither empty nor "0", come back from readLines as exactly those three lines |
| `Scenarios.ReadLinesDropsLastZero` | src/string/StringInputStream.php:211-213 | a last piece "0" is dropped by readLines because PHP's empty() holds of it |
| `Lines.FragmentsStep` | src/string/StringInputStream.php:203-209 | one more character: a terminator closes the current piece, anything else extends it |
| `Lines.FragmentsOfLine` | src/string/StringInputStream.php:207-209 | terminator-free text is a single piece |
| `Lines.FragmentsAfterTerminator` | src/string/StringInputStream.php:203-206 | the piece before the first terminator comes first, followed by the pieces of what follows it |
| `Lines.ReadLinesOf` | src/string/StringInputStream.php:196-214 | readLines' result holds only terminator-free lines, as many as the terminators or one more |
| `Lines.ReadLinesOfPieces` | src/string/StringInputStream.php:211-214 | readLines returns the closed pieces plus the trailing piece unless PHP's empty() holds of it |
| `Lines.RepeatedLinesAreFragments` | src/string/StringInputStream.php:160-179 | repeated readLine() calls without a limit return every piece, the last only when it is non-empty |
| `Lines.LineThenFragments` | src/string/StringInputStream.php:172-173 | a line cut off by a terminator comes first both in readLine's sequence and in the split |
| `Lines.ReadLinesMatchesRepeatedReadLine` | src/string/StringInputStream.php:191-214 | on a stream whose cached length is its buffer's length, readLines() equals repeated readLine() calls exactly when the text after the last terminator is not "0" |
| `StringStreams.SeekTarget` | src/string/StringInputStream.php:84-118 | START succeeds iff 0 <= offset <= length-1 and moves to offset; END iff -(length-1) <= offset <= 0 and moves to length-1+offset; CURRENT iff 0 <= pos+offset <= length-1 and adds offset; each failure is the right one of the two IOExceptions; an unknown origin changes nothing |
| `StringStreams.Substring` | src/string/StringInputStream.php:141 | substring(start, n) returns n characters from start, or as many as remain |
| `StringStreams.ReadsAreContiguous` | src/string/StringInputStream.php:140-143 | two reads in a row return adjacent pieces, which together are one read of both counts |
| `StringStreams.StringInputStream.constructor` | src/string/StringInputStream.php:32-42 | a new stream has pos 0 and caches the buffer's length |
| `StringStreams.StringInputStream.Iterate` | src/string/StringInputStream.php:47-52 | iteration yields exactly the buffer from the cursor on, without moving the cursor |
| `StringStreams.StringInputStream.Seekable` | src/string/StringInputStream.php:59-62 | a string stream supports random access |
| `StringStreams.StringInputStream.Tell` | src/string/StringInputStream.php:69-72 | returns the cursor and changes nothing |
| `StringStreams.StringInputStream.Seek` | src/string/StringInputStream.php:84-118 | moves the cursor to SeekTarget's position, or throws that IOException with the cursor unchanged |
| `StringStreams.StringInputStream.IsReadable` | src/string/StringInputStream.php:125-128 | readable iff the cursor is before the cached length |
| `StringStreams.StringInputStream.Read` | src/string/StringInputStream.php:135-149 | null at the cached length; read(n > 0) returns substring(pos, n) and adds n to pos; otherwise returns the whole rest and sets pos to length-1 |
| `StringStreams.StringInputStream.ReadLine` | src/string/StringInputStream.php:158-180 | null at the cached length; otherwise returns ScanLine's line and advances the cursor by what it consumed |
| `StringStreams.StringInputStream.ReadLines` | src/string/StringInputStream.php:191-215 | null at the cached length; otherwise returns ReadLinesOf(rest) and moves the cursor to the end of the buffer, whatever the count argument |
| `PushBack.Reversed` | src/string/PushBackStringInputStream.php:28-30 | prepending characters one at a time yields them in reverse order, with the same length |
| `PushBack.ReversedAt` | src/string/PushBackStringInputStream.php:28-30 | the k-th pushed-back character read is the k-th from the end of the buffer |
| `PushBack.ReversedTwice` | src/string/PushBackStringInputStream.php:28-30 | unreading a reversed text ("olleH") makes reads return the text itself ("Hello") |
| `PushBack.ReversedConcat` | src/string/PushBackStringInputStream.php:28-30 | reversing a concatenation reverses the parts and swaps their order |
| `PushBack.UnreadsCompose` | src/string/PushBackStringInputStream.php:28-30 | unread(b1) then unread(b2) leaves the same buffer as unread(b1 + b2): the later characters come first |
| `PushBack.UnreadBeforeCursor` | src/string/PushBackStringInputStream.php:29 | pushed-back characters go to index 0, so with pos >= |buffer| reading resumes with already consumed characters |
| `PushBack.PushBackStringInputStream.constructor` | src/string/PushBackStringInputStream.php:16-19 | built exactly as a StringInputStream over the same text |
| `PushBack.PushBackStringInputStream.Unread` | src/string/PushBackStringInputStream.php:26-31 | the buffer becomes reverse(buffer) + old buffer; the cursor and the cached length do not change |
| `Pipes.OutputSink.Write` | src/OutputStreamInterface.php:37 | write appends the text to what the output stream holds |
| `Pipes.OutputSink.WriteLine` | src/OutputStreamInterface.php:48 | writeLine appends the line and a line terminator |
| `Pipes.BufferlessPipe.constructor` | src/pipe/BufferlessPipe.php:29-33 | binds the given input and output, either possibly null |
| `Pipes.BufferlessPipe.Attach` | src/pipe/BufferlessPipe.php:41-46 | binds both streams and returns the same pipe |
| `Pipes.BufferlessPipe.AttachInput` | src/pipe/BufferlessPipe.php:53-57 | replaces the input binding only and returns the same pipe |
| `Pipes.BufferlessPipe.AttachOutput` | src/pipe/BufferlessPipe.php:64-68 | replaces the output binding only and returns the same pipe |
| `Pipes.BufferlessPipe.GetInputStream` | src/pipe/BufferlessPipe.php:73-76 | returns the input binding and changes nothing |
| `Pipes.BufferlessPipe.GetOutputStream` | src/pipe/BufferlessPipe.php:81-84 | returns the output binding and changes nothing |
| `Pipes.BufferlessPipe.Detach` | src/pipe/BufferlessPipe.php:89-94 | clears both bindings; the streams that were bound are left untouched |
| `Pipes.BufferlessPipe.DetachInput` | src/pipe/BufferlessPipe.php:99-103 | clears the input binding only; the stream that was bound is left untouched |
| `Pipes.BufferlessPipe.DetachOutput` | src/pipe/BufferlessPipe.php:108-112 | clears the output binding only; the stream that was bound is left untouched |
| `Pipes.BufferlessPipe.ProcessChar` | src/pipe/BufferlessPipe.php:118-123 | reads one character, writes that same character and returns it. A missing input fails before anything happens. A missing output fails after the input has advanced. At end of data nothing is written |
| `Pipes.BufferlessPipe.ProcessLine` | src/pipe/BufferlessPipe.php:150-155 | reads one line (ScanLine without a limit), writes that same line with writeLine and returns it, with the same failure order as ProcessChar |

## Left out

- src/file/FileInputStream.php and src/file/FileOutputStream.php: their seek, tell, end-of-file and line logic lives in the stk2k/filesystem reader and writer, which is not part of this model.
- `BufferlessPipe.processChars`: not modelled, because it cannot work as written. It calls `toString()` on a falsy character, calls `concat` on a null string, and never writes to the output.
- `BufferlessPipe.processLines`: not modelled, because it cannot work as written. It overwrites its count with an empty array before using it as the loop bound, and it never writes.
- The interfaces and exception classes carry no logic. Exceptions become the `SeekError` and `PipeError` variants of a result.
- `StringInputStream` constructor: only text sources are modelled. The rejection of non-string sources (InvalidArgumentException) is left out, and so is the aliasing of an `xStringBuffer` passed in, which the stream shares with the caller instead of copying.
- `xString`/`xStringBuffer` internals are replaced by `seq<char>`. `getIterator` on a cursor past the end of the buffer is taken to yield nothing, since that behaviour of `substring` is not visible here.
- `PushBackStringInputStream.Unread`: `getSource()` is defined nowhere and `source` is private to the parent class. The model treats the call as in-place access to the stream's buffer, which is what the push-back test relies on.
- `PushBackStringInputStream` extends `StringInputStream` in PHP. Here it holds its `StringInputStream` as the field `stream`, and the inherited operations are called on that field.
- `StringInputStream` inherits the closed flag, but none of its operations reads it. The lifecycle is modelled in `BaseStream` alone.
- `getIterator` is a lazy generator in PHP. The model gives the whole sequence it would yield.
- `Pipes.OutputSink.WriteLine` appends "\n". PHP_EOL depends on the platform, and that is not modelled.
- `Pipes.BufferlessPipe.ProcessChar`: `readChar`, `writeChar` and the `Char` type are declared by no stream in the library. The model reads with `read(1)` from its input and writes with `write`. It also assumes that a null from the input is not written and fails the call (`NoData`).
- `Pipes.BufferlessPipe`: the input is a `StringInputStream`, the only input stream in this model, and the output is an `OutputSink`, an output stream seen as the text written to it. PHP's TypeErrors from the declared `Char`/`xString` return types are not modelled. Neither is the TypeError of `writeLine(null)`, which the model reports as `NoData`.
- PHP integers are 64 bits wide, and overflow turns them into floats. The model's integers are unbounded.
