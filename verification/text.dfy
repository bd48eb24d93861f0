/**
 * The two string operations the configuration code leans on, modelled exactly:
 * JavaScript's `String.prototype.split` with a one-character separator, and the
 * line splitting that Node's `readline` performs on a text whose only line
 * terminator is '\n'. `Render` is the inverse direction: what is written when each
 * line goes to a stream followed by '\n'.
 */
module Text {

  /** `parts.join(sep)` in JavaScript: the parts with `sep` between neighbours. */
  function JoinWith(parts: seq<string>, sep: char): string
  {
    if parts == [] then ""
    else if |parts| == 1 then parts[0]
    else parts[0] + [sep] + JoinWith(parts[1..], sep)
  }

  /**
   * `s.split(sep)` in JavaScript: the maximal pieces of `s` that do not contain
   * `sep`, in order; never empty, and `""` splits into `[""]`.
   */
  function Split(s: string, sep: char): (parts: seq<string>)
    ensures |parts| >= 1
    ensures forall i :: 0 <= i < |parts| ==> sep !in parts[i]
    ensures JoinWith(parts, sep) == s
    decreases |s|
  {
    if s == [] then [""]
    else
      var rest := Split(s[1..], sep);
      if s[0] == sep then
        assert s == [sep] + s[1..];
        [""] + rest
      else
        var parts := [[s[0]] + rest[0]] + rest[1..];
        assert parts[1..] == rest[1..];
        assert s == [s[0]] + s[1..];
        parts
  }

  /** A piece that ends at the first separator is split off on its own. */
  lemma {:induction false} SplitPrefix(k: string, sep: char, rest: string)
    requires sep !in k
    ensures Split(k + [sep] + rest, sep) == [k] + Split(rest, sep)
    decreases |k|
  {
    var s := k + [sep] + rest;
    if k == [] {
      assert s[1..] == rest;
    } else {
      assert s[1..] == k[1..] + [sep] + rest;
      SplitPrefix(k[1..], sep, rest);
      assert [k[0]] + k[1..] == k;
    }
  }

  /** A string without the separator is one piece. */
  lemma {:induction false} SplitWithoutSeparator(s: string, sep: char)
    requires sep !in s
    ensures Split(s, sep) == [s]
    decreases |s|
  {
    if s != [] {
      SplitWithoutSeparator(s[1..], sep);
      assert [s[0]] + s[1..] == s;
    }
  }

  /** The text a write stream holds after each line was written followed by '\n'. */
  function Render(lines: seq<string>): string
  {
    if lines == [] then ""
    else Render(lines[..|lines| - 1]) + lines[|lines| - 1] + "\n"
  }

  lemma {:induction false} RenderCons(line: string, lines: seq<string>)
    ensures Render([line] + lines) == line + "\n" + Render(lines)
    decreases |lines|
  {
    var all := [line] + lines;
    if lines == [] {
      assert all[..0] == [];
    } else {
      var n := |lines|;
      assert all[..|all| - 1] == [line] + lines[..n - 1];
      RenderCons(line, lines[..n - 1]);
    }
  }

  /**
   * The lines `readline` yields for `text` when '\n' is the only terminator in it:
   * the pieces between terminators, where a final terminator does not open an
   * empty last line and the empty text has no lines.
   */
  function ReadLines(text: string): (lines: seq<string>)
    ensures forall i :: 0 <= i < |lines| ==> '\n' !in lines[i]
  {
    if text == [] then []
    else
      var parts := Split(text, '\n');
      if parts[|parts| - 1] == "" then parts[..|parts| - 1] else parts
  }

  /** A line free of terminators, as `readline` yields it. */
  predicate IsLine(s: string)
  {
    '\n' !in s && '\r' !in s
  }

  lemma {:induction false} SplitRender(lines: seq<string>)
    requires forall i :: 0 <= i < |lines| ==> '\n' !in lines[i]
    ensures Split(Render(lines), '\n') == lines + [""]
    decreases |lines|
  {
    if lines != [] {
      RenderCons(lines[0], lines[1..]);
      assert [lines[0]] + lines[1..] == lines;
      SplitPrefix(lines[0], '\n', Render(lines[1..]));
      SplitRender(lines[1..]);
    }
  }

  /**
   * Reading back what was written line by line gives the same lines: the text
   * has one terminator per line and nothing else separates lines.
   */
  lemma {:induction false} ReadLinesRender(lines: seq<string>)
    requires forall i :: 0 <= i < |lines| ==> '\n' !in lines[i]
    ensures ReadLines(Render(lines)) == lines
  {
    SplitRender(lines);
    if lines != [] {
      assert Render(lines) != [];
      assert (lines + [""])[..|lines|] == lines;
    }
  }
}
