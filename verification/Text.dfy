/** Decoded text as the stream decoders see it: UTF-8 size and newline framing.

    Sizes are those of `Buffer.byteLength`; framing is the reference meaning of
    "split on newline", stated once here and refined by both decoders. */
module Text {

  type byte = x: int | 0 <= x < 256

  /** UTF-8 encoding of one scalar value (RFC 3629, section 3). */
  function Utf8(c: char): (bytes: seq<byte>)
    ensures 1 <= |bytes| <= 4
  {
    var n := c as int;
    if n < 0x80 then [n]
    else if n < 0x800 then [0xC0 + n / 0x40, 0x80 + n % 0x40]
    else if n < 0x1_0000 then [0xE0 + n / 0x1000, 0x80 + n / 0x40 % 0x40, 0x80 + n % 0x40]
    else [0xF0 + n / 0x4_0000, 0x80 + n / 0x1000 % 0x40, 0x80 + n / 0x40 % 0x40, 0x80 + n % 0x40]
  }

  function Encode(text: string): seq<byte> {
    if text == "" then [] else Encode(text[..|text| - 1]) + Utf8(text[|text| - 1])
  }

  function Size(text: string): nat {
    |Encode(text)|
  }

  lemma {:induction false} EncodeConcat(a: string, b: string)
    ensures Encode(a + b) == Encode(a) + Encode(b)
  {
    if b == "" {
      assert a + b == a;
    } else {
      var front, last := b[..|b| - 1], b[|b| - 1];
      EncodeConcat(a, front);
      assert (a + b)[..|a + b| - 1] == a + front && (a + b)[|a + b| - 1] == last;
      assert Encode(a) + Encode(front) + Utf8(last) == Encode(a) + (Encode(front) + Utf8(last));
    }
  }

  /** The complete lines of a text: everything before each newline. */
  function Lines(text: string): seq<string> {
    if text == "" then []
    else
      var front := text[..|text| - 1];
      if text[|text| - 1] == '\n' then Lines(front) + [Rest(front)] else Lines(front)
  }

  /** The unterminated text after the last newline. */
  function Rest(text: string): string {
    if text == "" || text[|text| - 1] == '\n' then ""
    else Rest(text[..|text| - 1]) + [text[|text| - 1]]
  }

  function Unlines(lines: seq<string>): string {
    if lines == [] then "" else Unlines(lines[..|lines| - 1]) + lines[|lines| - 1] + "\n"
  }

  /** Lines and Rest are exactly "split on newline": nothing is lost, and no piece holds a newline. */
  lemma {:induction false} FramingLosesNothing(text: string)
    ensures Unlines(Lines(text)) + Rest(text) == text
    ensures '\n' !in Rest(text) && forall line | line in Lines(text) :: '\n' !in line
  {
    if text != "" {
      var front := text[..|text| - 1];
      FramingLosesNothing(front);
      assert text == front + [text[|text| - 1]];
      if text[|text| - 1] == '\n' {
        assert Lines(text)[..|Lines(text)| - 1] == Lines(front);
      }
    }
  }

  lemma {:induction false} AppendPart(text: string, part: string)
    requires '\n' !in part
    ensures Lines(text + part) == Lines(text)
    ensures Rest(text + part) == Rest(text) + part
  {
    if part == "" {
      assert text + part == text;
    } else {
      var front := part[..|part| - 1];
      AppendPart(text, front);
      assert (text + part)[..|text + part| - 1] == text + front;
      assert part[|part| - 1] in part;
      assert Rest(text) + part == Rest(text) + front + [part[|part| - 1]];
    }
  }

  lemma AppendNewline(text: string)
    ensures Lines(text + "\n") == Lines(text) + [Rest(text)]
    ensures Rest(text + "\n") == ""
  {
    assert (text + "\n")[..|text + "\n"| - 1] == text;
  }

  /** `text.indexOf('\n', start)`, with the length of the text for "not found". */
  function NextNewline(text: string, start: nat): (end: nat)
    requires start <= |text|
    ensures start <= end <= |text|
    ensures '\n' !in text[start..end]
    ensures end < |text| ==> text[end] == '\n'
    decreases |text| - start
  {
    if start == |text| || text[start] == '\n' then start
    else
      var end := NextNewline(text, start + 1);
      assert text[start..end] == [text[start]] + text[start + 1..end];
      end
  }

  lemma SliceJoin(seen: string, text: string, start: nat, end: nat)
    requires start <= end <= |text|
    ensures seen + text[..start] + text[start..end] == seen + text[..end]
    ensures text[..|text|] == text
  {
    assert text[..start] + text[start..end] == text[..end];
  }

  lemma SliceNewline(seen: string, text: string, end: nat)
    requires end < |text| && text[end] == '\n'
    ensures seen + text[..end] + "\n" == seen + text[..end + 1]
  {
    assert text[..end] + "\n" == text[..end + 1];
  }

  function Concat(chunks: seq<string>): string {
    if chunks == [] then "" else Concat(chunks[..|chunks| - 1]) + chunks[|chunks| - 1]
  }

  lemma ConcatStep(chunks: seq<string>, i: nat)
    requires i < |chunks|
    ensures Concat(chunks[..i + 1]) == Concat(chunks[..i]) + chunks[i]
  {
    assert chunks[..i + 1][..i] == chunks[..i];
  }
}
