/** A pipe that moves one character or one line per call from an input stream to an output stream. */
module Pipes {
  import opened Wrappers
  import opened Lines
  import opened StringStreams

  /** The terminator writeLine appends (PHP_EOL on a Unix host). */
  const LineEnd: string := "\n"

  /** The output side of a pipe: an output stream seen as the text written to it so far. */
  class OutputSink {
    var written: string

    constructor ()
      ensures written == []
    {
      written := [];
    }

    /** write(str): appends str to the sink. */
    method Write(str: string)
      modifies this
      ensures written == old(written) + str
    {
      written := written + str;
    }

    /** writeLine(line): appends the line followed by the line terminator. */
    method WriteLine(line: string)
      modifies this
      ensures written == old(written) + line + LineEnd
    {
      written := written + line + LineEnd;
    }
  }

  /**
   * Why a transfer fails: a stream that is not attached (PHP calls a method on null), or
   * no unit left to transfer (the input returned null, which cannot be written).
   */
  datatype PipeError = NoInput | NoOutput | NoData

  /**
   * Holds at most one input and one output stream. Attaching and detaching only rebind the
   * two fields; the pipe never closes or otherwise touches the streams it holds.
   */
  class BufferlessPipe {
    var input: StringInputStream?
    var output: OutputSink?

    /** Binds the given streams, either of which may be null. */
    constructor (input: StringInputStream?, output: OutputSink?)
      ensures this.input == input && this.output == output
    {
      this.input := input;
      this.output := output;
    }

    /** Binds both streams and returns this same pipe. */
    method Attach(inStream: StringInputStream, outStream: OutputSink) returns (pipe: BufferlessPipe)
      modifies this
      ensures input == inStream && output == outStream && pipe == this
    {
      input := inStream;
      output := outStream;
      pipe := this;
    }

    /** Replaces the input binding only. */
    method AttachInput(inStream: StringInputStream) returns (pipe: BufferlessPipe)
      modifies this
      ensures input == inStream && output == old(output) && pipe == this
    {
      input := inStream;
      pipe := this;
    }

    /** Replaces the output binding only. */
    method AttachOutput(outStream: OutputSink) returns (pipe: BufferlessPipe)
      modifies this
      ensures input == old(input) && output == outStream && pipe == this
    {
      output := outStream;
      pipe := this;
    }

    /** The bound input stream, or null; changes nothing. */
    method GetInputStream() returns (inStream: StringInputStream?)
      ensures inStream == input
    {
      inStream := input;
    }

    /** The bound output stream, or null; changes nothing. */
    method GetOutputStream() returns (outStream: OutputSink?)
      ensures outStream == output
    {
      outStream := output;
    }

    /** Clears both bindings without touching the streams that were bound. */
    method Detach() returns (pipe: BufferlessPipe)
      modifies this
      ensures input == null && output == null && pipe == this
      ensures old(input) != null ==> unchanged(old(input))
      ensures old(output) != null ==> unchanged(old(output))
    {
      input := null;
      output := null;
      pipe := this;
    }

    /** Clears the input binding only, without touching the stream that was bound. */
    method DetachInput() returns (pipe: BufferlessPipe)
      modifies this
      ensures input == null && output == old(output) && pipe == this
      ensures old(input) != null ==> unchanged(old(input))
    {
      input := null;
      pipe := this;
    }

    /** Clears the output binding only, without touching the stream that was bound. */
    method DetachOutput() returns (pipe: BufferlessPipe)
      modifies this
      ensures input == old(input) && output == null && pipe == this
      ensures old(output) != null ==> unchanged(old(output))
    {
      output := null;
      pipe := this;
    }

    /**
     * processChar: reads one character from the input, writes that same character to the
     * output and returns it. The read happens before the output is looked at, so a missing
     * output still costs the input its character.
     */
    method ProcessChar() returns (r: Result<char, PipeError>)
      requires input != null ==> input.Valid()
      modifies input, output
      ensures input != null ==> input.Valid()
      ensures input != null ==> input.source == old(input.source) && input.length == old(input.length)
      ensures input == null ==> r == Err(NoInput)
      ensures input == null && output != null ==> output.written == old(output.written)
      ensures input != null && old(input.pos) >= input.length ==>
                && input.pos == old(input.pos)
                && r == Err(if output == null then NoOutput else NoData)
                && (output != null ==> output.written == old(output.written))
      ensures input != null && old(input.pos) < input.length ==>
                && input.pos == old(input.pos) + 1
                && (output == null ==> r == Err(NoOutput))
                && (output != null ==> r == Ok(input.source[old(input.pos)])
                                       && output.written == old(output.written) + [r.value])
    {
      if input == null {
        return Err(NoInput);
      }
      var c := input.Read(Some(1));
      if output == null {
        return Err(NoOutput);
      }
      if c.None? {
        return Err(NoData);
      }
      output.Write(c.value);
      r := Ok(c.value[0]);
    }

    /**
     * processLine: reads one line from the input, writes that same line to the output with
     * writeLine and returns it. As with processChar, the read happens first.
     */
    method ProcessLine() returns (r: Result<string, PipeError>)
      requires input != null ==> input.Valid()
      modifies input, output
      ensures input != null ==> input.Valid()
      ensures input != null ==> input.source == old(input.source) && input.length == old(input.length)
      ensures input == null ==> r == Err(NoInput)
      ensures input == null && output != null ==> output.written == old(output.written)
      ensures input != null && old(input.pos) >= input.length ==>
                && input.pos == old(input.pos)
                && r == Err(if output == null then NoOutput else NoData)
                && (output != null ==> output.written == old(output.written))
      ensures input != null && old(input.pos) < input.length ==>
                var scan := ScanLine(input.source[old(input.pos)..], 0);
                && input.pos == old(input.pos) + scan.consumed
                && (output == null ==> r == Err(NoOutput))
                && (output != null ==> r == Ok(scan.line)
                                       && output.written == old(output.written) + scan.line + LineEnd)
    {
      if input == null {
        return Err(NoInput);
      }
      var line := input.ReadLine(None);
      if output == null {
        return Err(NoOutput);
      }
      if line.None? {
        return Err(NoData);
      }
      output.WriteLine(line.value);
      r := Ok(line.value);
    }
  }
}
