/**
 * The block structure of an example file: lines accumulate into one example's
 * text until a line whose stripped text starts with `---`; that line is
 * dropped and ends the block. Text left at the end is a last block.
 */
module ExampleFile {
  import Text

  /** A line whose stripped text starts with `---` separates two examples. */
  predicate IsSeparator(line: string) {
    Text.StartsWith(Text.Strip(line), "---")
  }

  /** The blocks cut from `lines` when the text `pending` has been accumulated before them. */
  function Blocks(lines: seq<string>, pending: string): (r: seq<string>)
    ensures |r| <= |lines| + 1
    ensures pending != [] ==> r != []
    decreases |lines|
  {
    if lines == [] then (if pending != [] then [pending] else [])
    else if IsSeparator(lines[0]) then [pending] + Blocks(lines[1..], [])
    else Blocks(lines[1..], pending + lines[0])
  }

  /** The line-reading loop of `read_examples`, yielding each block's text. */
  method SplitBlocks(lines: seq<string>) returns (blocks: seq<string>)
    ensures blocks == Blocks(lines, [])
  {
    var example: string := [];
    blocks := [];
    for i := 0 to |lines|
      invariant blocks + Blocks(lines[i..], example) == Blocks(lines, [])
    {
      assert lines[i..][1..] == lines[i + 1..];
      if IsSeparator(lines[i]) {
        blocks := blocks + [example];
        example := [];
      } else {
        example := example + lines[i];
      }
    }
    if example != [] {
      blocks := blocks + [example];
    }
  }

  function Concat(parts: seq<string>): string
    decreases |parts|
  {
    if parts == [] then [] else parts[0] + Concat(parts[1..])
  }

  /** The lines that are not separators, in order. */
  function Content(lines: seq<string>): seq<string>
    decreases |lines|
  {
    if lines == [] then []
    else (if IsSeparator(lines[0]) then [] else [lines[0]]) + Content(lines[1..])
  }

  function Separators(lines: seq<string>): nat
    decreases |lines|
  {
    if lines == [] then 0 else (if IsSeparator(lines[0]) then 1 else 0) + Separators(lines[1..])
  }

  lemma ConcatCons(x: string, rest: seq<string>)
    ensures Concat([x] + rest) == x + Concat(rest)
  {
    assert ([x] + rest)[1..] == rest;
  }

  /** No text is lost or invented: the blocks, read in order, are the non-separator lines. */
  lemma {:induction false} BlocksKeepText(lines: seq<string>, pending: string)
    ensures Concat(Blocks(lines, pending)) == pending + Concat(Content(lines))
    decreases |lines|
  {
    if lines == [] {
      assert pending + [] == pending;
    } else {
      var line, rest := lines[0], lines[1..];
      if IsSeparator(line) {
        BlocksKeepText(rest, []);
        ConcatCons(pending, Blocks(rest, []));
        assert Content(lines) == Content(rest);
      } else {
        BlocksKeepText(rest, pending + line);
        assert Content(lines) == [line] + Content(rest);
        ConcatCons(line, Content(rest));
        assert Blocks(lines, pending) == Blocks(rest, pending + line);
      }
    }
  }

  /**
   * Every separator closes one block, even an empty one, and at most one
   * more block follows the last separator; a file ending in a separator has
   * exactly one block per separator.
   */
  lemma {:induction false} BlocksPerSeparator(lines: seq<string>, pending: string)
    ensures Separators(lines) <= |Blocks(lines, pending)| <= Separators(lines) + 1
    ensures lines != [] && IsSeparator(lines[|lines| - 1]) ==> |Blocks(lines, pending)| == Separators(lines)
    decreases |lines|
  {
    if lines != [] {
      var next := if IsSeparator(lines[0]) then [] else pending + lines[0];
      BlocksPerSeparator(lines[1..], next);
      if |lines| == 1 {
        assert lines[1..] == [];
      } else {
        assert lines[1..][|lines[1..]| - 1] == lines[|lines| - 1];
      }
    }
  }
}
