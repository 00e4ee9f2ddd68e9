/**
 * The JSON-array output file of the batch-resumable evaluation script: the file is opened
 * with '[', every result is appended as its indented JSON text preceded by '\n' (first item)
 * or ',\n' (later items), and closing adds ']' or '\n]'.
 */
module Framing {

  const INDENT: string := "    "

  // ---------------------------------------------------------------- lines

  /** The pieces of `s` between its '\n' characters (one more piece than there are breaks). */
  function Split(s: string): (r: seq<string>)
    ensures |r| >= 1
    decreases |s|
  {
    if s == [] then [""]
    else if s[0] == '\n' then [""] + Split(s[1..])
    else
      var rest := Split(s[1..]);
      [[s[0]] + rest[0]] + rest[1..]
  }

  /**
   * `str.splitlines()` for text whose only line break is '\n' (as in `json.dumps` output with the
   * default ASCII escaping): the pieces, without the empty piece after a final break.
   */
  function Lines(s: string): seq<string> {
    if s == [] then []
    else
      var p := Split(s);
      if p[|p| - 1] == "" then p[..|p| - 1] else p
  }

  /** `sep.join(xs)`. */
  function Join(sep: string, xs: seq<string>): string
    decreases |xs|
  {
    if xs == [] then "" else if |xs| == 1 then xs[0] else xs[0] + sep + Join(sep, xs[1..])
  }

  function Indented(lines: seq<string>): (r: seq<string>)
    ensures |r| == |lines|
  {
    seq(|lines|, k requires 0 <= k < |lines| => INDENT + lines[k])
  }

  /** `add_indent`: every line prefixed with four spaces, rejoined with '\n'. */
  function AddIndent(s: string): string {
    Join("\n", Indented(Lines(s)))
  }

  /** `s` with every '\n' replaced by `sep`. */
  function ReplaceBreaks(s: string, sep: string): string
    decreases |s|
  {
    if s == [] then [] else (if s[0] == '\n' then sep else [s[0]]) + ReplaceBreaks(s[1..], sep)
  }

  /** The reference reading: four spaces at the start of the text and after every line break. */
  function IndentEveryLine(s: string): string {
    INDENT + ReplaceBreaks(s, "\n" + INDENT)
  }

  lemma JoinCons(sep: string, x: string, ys: seq<string>)
    ensures Join(sep, [x] + ys) == if ys == [] then x else x + sep + Join(sep, ys)
  {
    assert ([x] + ys)[1..] == ys;
  }

  lemma JoinAppend(sep: string, xs: seq<string>, d: string)
    requires xs != []
    ensures Join(sep, xs + [d]) == Join(sep, xs) + sep + d
    decreases |xs|
  {
    if |xs| == 1 {
      assert xs + [d] == [xs[0]] + [d];
      JoinCons(sep, xs[0], [d]);
    } else {
      assert xs + [d] == [xs[0]] + (xs[1..] + [d]);
      JoinCons(sep, xs[0], xs[1..] + [d]);
      JoinAppend(sep, xs[1..], d);
      JoinCons(sep, xs[0], xs[1..]);
    }
  }

  lemma IndentedCons(x: string, ys: seq<string>)
    ensures Indented([x] + ys) == [INDENT + x] + Indented(ys)
  {
    var l, r := Indented([x] + ys), [INDENT + x] + Indented(ys);
    assert |l| == |r|;
    forall k | 0 <= k < |l| ensures l[k] == r[k] {
      if k > 0 {
        assert ([x] + ys)[k] == ys[k - 1];
      }
    }
  }

  /** Joining the pieces with `sep` replaces each line break by `sep`. */
  lemma {:induction false} SplitJoin(s: string, sep: string)
    ensures Join(sep, Split(s)) == ReplaceBreaks(s, sep)
    decreases |s|
  {
    if s != [] {
      var rest := Split(s[1..]);
      SplitJoin(s[1..], sep);
      if s[0] == '\n' {
        JoinCons(sep, "", rest);
      } else {
        JoinHead(sep, s[0], rest);
      }
    }
  }

  /** Putting a character in front of the first piece puts it in front of the joined text. */
  lemma JoinHead(sep: string, c: char, xs: seq<string>)
    requires xs != []
    ensures Join(sep, [[c] + xs[0]] + xs[1..]) == [c] + Join(sep, xs)
  {
    JoinCons(sep, [c] + xs[0], xs[1..]);
    JoinCons(sep, xs[0], xs[1..]);
    assert [xs[0]] + xs[1..] == xs;
  }

  /** Rejoining the pieces with '\n' gives the text back. */
  lemma {:induction false} ReplaceIdentity(s: string)
    ensures ReplaceBreaks(s, "\n") == s
    decreases |s|
  {
    if s != [] {
      ReplaceIdentity(s[1..]);
      assert s == [s[0]] + s[1..];
    }
  }

  /** Prefixing every piece and joining with '\n' is prefixing once and joining with '\n' + indent. */
  lemma {:induction false} IndentedJoin(p: seq<string>)
    requires p != []
    ensures Join("\n", Indented(p)) == INDENT + Join("\n" + INDENT, p)
    decreases |p|
  {
    if |p| > 1 {
      IndentedCons(p[0], p[1..]);
      assert p == [p[0]] + p[1..];
      JoinCons("\n", INDENT + p[0], Indented(p[1..]));
      JoinCons("\n" + INDENT, p[0], p[1..]);
      IndentedJoin(p[1..]);
    } else {
      assert Indented(p) == [INDENT + p[0]];
    }
  }

  lemma {:induction false} SplitLast(s: string)
    requires s != [] && s[|s| - 1] != '\n'
    ensures Split(s)[|Split(s)| - 1] != ""
    decreases |s|
  {
    if |s| > 1 {
      assert s[1..][|s[1..]| - 1] == s[|s| - 1];
      SplitLast(s[1..]);
    }
  }

  /**
   * For a non-empty text that does not end with a line break, `add_indent` puts four spaces at
   * the start and after every break, and changes nothing else.
   */
  lemma AddIndentSpec(s: string)
    requires s != [] && s[|s| - 1] != '\n'
    ensures AddIndent(s) == IndentEveryLine(s)
  {
    SplitLast(s);
    assert Lines(s) == Split(s);
    IndentedJoin(Split(s));
    SplitJoin(s, "\n" + INDENT);
  }

  // ---------------------------------------------------------------- the output file

  /** The file once closed: '[]' for no items, else the items one per block, comma-separated. */
  function Closed(items: seq<string>): string {
    if items == [] then "[]" else "[\n" + Join(",\n", items) + "\n]"
  }

  /** The file while open: '[' then the items written so far. */
  function Framed(items: seq<string>): string {
    if items == [] then "[" else "[\n" + Join(",\n", items)
  }

  /** Appending an item adds '\n' and its text to a file holding only '[', and ',\n' and its text otherwise. */
  lemma FramedAppend(items: seq<string>, data: string)
    ensures |Framed(items)| == 1 <==> items == []
    ensures Framed(items + [data]) == Framed(items) + (if items == [] then "\n" else ",\n") + data
  {
    if items != [] {
      JoinAppend(",\n", items, data);
    } else {
      assert Join(",\n", [data]) == data;
    }
  }

  class OutputFile {
    var content: string
    /** The item texts written so far. */
    ghost var items: seq<string>

    ghost predicate Valid()
      reads this
    {
      content == Framed(items)
    }

    /** Opening the file for writing and writing '['. */
    constructor ()
      ensures Valid() && items == []
    {
      content := "[";
      items := [];
    }

    /**
     * `append_item_to_json`: the item's `json.dumps(item, indent=4)` text (`dumped`), indented,
     * after '\n' when the file holds only '[' and after ',\n' otherwise.
     */
    method Append(dumped: string)
      requires Valid()
      modifies this
      ensures Valid() && items == old(items) + [AddIndent(dumped)]
    {
      var data := AddIndent(dumped);
      FramedAppend(items, data);
      if |content| == 1 {
        content := content + "\n" + data;
      } else {
        content := content + ",\n" + data;
      }
      items := items + [data];
    }

    /** The final write: ']' when nothing was appended, '\n]' otherwise. */
    method Close()
      requires Valid()
      modifies this`content
      ensures content == Closed(items)
    {
      if |content| == 1 {
        content := content + "]";
      } else {
        content := content + "\n]";
      }
    }
  }
}
