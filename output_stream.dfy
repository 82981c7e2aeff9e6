/**
  `StreamToStr`, the object standing in for standard output while the CF
  checker runs: every `write` is appended to `data`, which the parser then
  splits into lines (adaguc-checker.py:269, 417-430).
 */
module OutputStream {
  import opened Strings

  /** Everything written, in order, as one string. */
  function Concat(writes: seq<string>): string {
    if writes == [] then "" else Concat(writes[..|writes| - 1]) + writes[|writes| - 1]
  }

  class StreamToStr {
    var data: string
    ghost var writes: seq<string>

    /** `data` holds exactly what was written, in the order it was written. */
    ghost predicate Valid()
      reads this
    {
      data == Concat(writes)
    }

    constructor ()
      ensures Valid() && writes == [] && data == ""
    {
      data := "";
      writes := [];
    }

    /** `write(s)`: append `s` to `data`. */
    method Write(s: string)
      requires Valid()
      modifies this
      ensures Valid()
      ensures writes == old(writes) + [s] && data == old(data) + s
    {
      data := data + s;
      writes := writes + [s];
      assert writes[..|writes| - 1] == old(writes);
    }

    /** A `print` statement: the text, then a newline, as two writes. */
    method PrintLine(line: string)
      requires Valid()
      modifies this
      ensures Valid()
      ensures writes == old(writes) + [line, "\n"] && data == old(data) + line + "\n"
    {
      Write(line);
      Write("\n");
    }

    /** One `print` per line leaves the lines behind, each ended by "\n". */
    method PrintLines(lines: seq<string>)
      requires Valid()
      modifies this
      ensures Valid()
      ensures data == old(data) + JoinLines(lines)
    {
      ghost var start := data;
      for i := 0 to |lines|
        invariant Valid()
        invariant data == start + JoinLines(lines[..i])
      {
        PrintLine(lines[i]);
        JoinLinesAppend(lines[..i], lines[i]);
        assert lines[..i + 1] == lines[..i] + [lines[i]];
      }
      assert lines[..|lines|] == lines;
    }
  }

  /**
    What the parser reads back from a fresh stream after the checker has
    printed `lines` is `lines` itself, provided no line holds a line break.
   */
  method CaptureLines(lines: seq<string>) returns (captured: seq<string>)
    requires forall l | l in lines :: IsLine(l)
    ensures captured == lines
  {
    var stream := new StreamToStr();
    stream.PrintLines(lines);
    assert stream.data == JoinLines(lines);
    captured := SplitLines(stream.data);
    SplitJoinLines(lines);
  }
}
