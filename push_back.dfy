/**
 * A string input stream that characters can be pushed back into. Pushing back prepends
 * each character of the buffer, in turn, to the front of the shared character buffer.
 */
module PushBack {
  import opened StringStreams

  /** s in reverse order, built from its last character on. */
  function Reversed(s: seq<char>): (r: seq<char>)
    ensures |r| == |s|
  {
    if s == [] then [] else [s[|s| - 1]] + Reversed(s[..|s| - 1])
  }

  /** Reversal sends index k to index |s| - 1 - k. */
  lemma {:induction false} ReversedAt(s: seq<char>, k: nat)
    requires k < |s|
    ensures Reversed(s)[k] == s[|s| - 1 - k]
  {
    if k > 0 {
      ReversedAt(s[..|s| - 1], k - 1);
    }
  }

  /** Reversing twice gives the original text back. */
  lemma ReversedTwice(s: seq<char>)
    ensures Reversed(Reversed(s)) == s
  {
    forall k | 0 <= k < |s| ensures Reversed(Reversed(s))[k] == s[k] {
      ReversedAt(Reversed(s), k);
      ReversedAt(s, |s| - 1 - k);
    }
  }

  /** The reverse of a concatenation is the reversed parts in the other order. */
  lemma ReversedConcat(a: seq<char>, b: seq<char>)
    ensures Reversed(a + b) == Reversed(b) + Reversed(a)
  {
    var l, r := Reversed(a + b), Reversed(b) + Reversed(a);
    forall k | 0 <= k < |l| ensures l[k] == r[k] {
      ReversedAt(a + b, k);
      if k < |b| {
        ReversedAt(b, k);
      } else {
        ReversedAt(a, k - |b|);
      }
    }
  }

  /**
   * Pushing back b1 and then b2 leaves the same buffer as pushing back b1 + b2 at once: the
   * later characters end up in front of the earlier ones.
   */
  lemma UnreadsCompose(b1: seq<char>, b2: seq<char>, source: seq<char>)
    ensures Reversed(b2) + (Reversed(b1) + source) == Reversed(b1 + b2) + source
  {
    ReversedConcat(b1, b2);
  }

  /**
   * Pushing back happens at the front of the whole buffer, not at the cursor: with the
   * cursor at pos >= |buffer|, reading resumes with the last |buffer| characters already
   * consumed, and the pushed-back characters sit before the cursor, out of reach.
   */
  lemma UnreadBeforeCursor(buffer: seq<char>, source: seq<char>, pos: nat)
    requires |buffer| <= pos <= |source|
    ensures (Reversed(buffer) + source)[pos..] == source[pos - |buffer|..]
    ensures (Reversed(buffer) + source)[..|buffer|] == Reversed(buffer)
  {
    var t := Reversed(buffer) + source;
    assert t[|buffer|..] == source;
    assert t[pos..] == t[|buffer|..][pos - |buffer|..];
  }

  class PushBackStringInputStream {
    /** The string input stream this one extends; its buffer is the one pushed back into. */
    const stream: StringInputStream

    /** Built exactly as a StringInputStream over the same text. */
    constructor (source: seq<char>)
      ensures fresh(stream) && stream.Valid()
      ensures stream.source == source && stream.pos == 0 && stream.length == |source|
    {
      stream := new StringInputStream(source);
    }

    /**
     * unread(buffer): prepends each character of buffer in turn to the front of the whole
     * buffer (index 0, not the cursor), so the buffer becomes reverse(buffer) followed by
     * the old buffer. Neither the cursor nor the cached length changes.
     */
    method Unread(buffer: seq<char>)
      requires stream.Valid()
      modifies stream`source
      ensures stream.Valid()
      ensures stream.source == Reversed(buffer) + old(stream.source)
      ensures stream.pos == old(stream.pos) && stream.length == old(stream.length)
    {
      var i := 0;
      while i < |buffer|
        invariant 0 <= i <= |buffer|
        invariant stream.source == Reversed(buffer[..i]) + old(stream.source)
      {
        assert buffer[..i + 1][..i] == buffer[..i];
        stream.source := [buffer[i]] + stream.source;
        i := i + 1;
      }
      assert buffer[..i] == buffer;
    }
  }
}
