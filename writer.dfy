/**
 * The indentation-aware writer `Outputter` of stub.py, writing into a shared sink,
 * and the functions that say what each of its operations writes.
 */
module Writer {
  import opened Wrappers
  import opened Text
  import opened Objects

  /** The output file: the strings written to it, in order. */
  class Sink {
    var written: seq<string>

    constructor ()
      ensures written == []
    {
      written := [];
    }

    /** `file.write(s)` */
    method Write(s: string)
      modifies this
      ensures written == old(written) + [s]
    {
      written := written + [s];
    }
  }

  /** The one string `line` writes at indent level `level`. */
  function LineText(level: nat, line: string): (r: string)
    ensures |r| == 4 * level + |line| + 1
  {
    Spaces(4 * level) + line + "\n"
  }

  /** A written line gives back its level's indentation, its text and the newline. */
  lemma LineTextParts(level: nat, line: string)
    ensures LineText(level, line)[..4 * level] == Spaces(4 * level)
    ensures LineText(level, line)[4 * level..4 * level + |line|] == line
    ensures LineText(level, line)[4 * level + |line|] == '\n'
  {
  }

  /** At one level, different texts give different lines. */
  lemma LineTextInjective(level: nat, a: string, b: string)
    requires LineText(level, a) == LineText(level, b)
    ensures a == b
  {
    LineTextParts(level, a);
    LineTextParts(level, b);
  }

  /** A line at level `level` or deeper starts with the indentation of `outer`. */
  lemma LineTextIndented(outer: nat, level: nat, line: string)
    requires outer <= level
    ensures StartsWith(LineText(level, line), Spaces(4 * outer))
  {
    SpacesPrefix(4 * outer, 4 * level);
  }

  /** A line whose text starts with `# ` is a comment at its level. */
  lemma LineTextComment(level: nat, text: string)
    ensures StartsWith(LineText(level, "# " + text), Spaces(4 * level) + "# ")
  {
    assert LineText(level, "# " + text)[..4 * level + 2] == Spaces(4 * level) + "# ";
  }

  /** What writing the comment lines `lines` at `level` writes: `'# ' + l` for each, in order. */
  function CommentLines(level: nat, lines: seq<string>): (r: seq<string>)
    ensures |r| == |lines|
    ensures forall i :: 0 <= i < |lines| ==> r[i] == LineText(level, "# " + lines[i])
    decreases |lines|
  {
    if lines == [] then []
    else CommentLines(level, lines[..|lines| - 1]) + [LineText(level, "# " + lines[|lines| - 1])]
  }

  /** What `comment(text)` writes. */
  function CommentText(level: nat, text: string): seq<string> {
    CommentLines(level, SplitLines(text))
  }

  /** What `doc(doc)` writes: the docstring as a comment, only when docs are enabled and there is one. */
  function DocText(options: Options, level: nat, doc: Option<string>): seq<string> {
    if !options.includeDocs || doc.None? then [] else CommentText(level, doc.value)
  }

  /** What `value_hint(name, value)` writes: a note naming the member, then its `repr`, when values are enabled. */
  function ValueHintText(options: Options, level: nat, name: string, value: Obj): seq<string> {
    if !options.includeValues then []
    else CommentText(level, "Note: " + name + " had the following value:") + CommentText(level, value.repr)
  }

  /** A comment of a single boundary-free text is one `# ` line. */
  lemma CommentSingleLine(level: nat, text: string)
    requires HasNoBoundary(text) && text != []
    ensures CommentText(level, text) == [LineText(level, "# " + text)]
  {
    SplitLinesSingle(text);
  }

  /** Commenting newline-terminated lines writes one `# ` line per line, in order. */
  lemma CommentOfLines(level: nat, lines: seq<string>)
    requires forall l :: l in lines ==> HasNoBoundary(l)
    ensures CommentText(level, Terminated(lines)) == CommentLines(level, lines)
  {
    SplitLinesRoundTrip(lines);
  }

  /** `Outputter`: a shared sink, the options and an indent level. */
  class Outputter {
    const file: Sink
    const options: Options
    const indentLevel: nat

    constructor (file: Sink, options: Options, indentLevel: nat)
      ensures this.file == file && this.options == options && this.indentLevel == indentLevel
    {
      this.file := file;
      this.options := options;
      this.indentLevel := indentLevel;
    }

    /** `line(line)`: the indentation, the text and a newline, as one write. */
    method Line(line: string)
      modifies file
      ensures file.written == old(file.written) + [LineText(indentLevel, line)]
    {
      file.Write(Spaces(indentLevel * 4) + line + "\n");
    }

    /** `indent()`: a new writer on the same sink and options, one level deeper. */
    method Indent() returns (child: Outputter)
      ensures fresh(child)
      ensures child.file == file && child.options == options && child.indentLevel == indentLevel + 1
    {
      child := new Outputter(file, options, indentLevel + 1);
    }

    /** `blank()`: a line with no text. */
    method Blank()
      modifies file
      ensures file.written == old(file.written) + [LineText(indentLevel, "")]
    {
      Line("");
    }

    /** `comment(comment)`: one `# ` line per line of the text. */
    method Comment(comment: string)
      modifies file
      ensures file.written == old(file.written) + CommentText(indentLevel, comment)
    {
      var lines := SplitLines(comment);
      for i := 0 to |lines|
        invariant file.written == old(file.written) + CommentLines(indentLevel, lines[..i])
      {
        Line("# " + lines[i]);
        assert lines[..i + 1][..i] == lines[..i];
      }
      assert lines[..|lines|] == lines;
    }

    /** `doc(doc)` */
    method Doc(doc: Option<string>)
      modifies file
      ensures file.written == old(file.written) + DocText(options, indentLevel, doc)
    {
      if !options.includeDocs {
        return;
      }
      if doc.None? {
        return;
      }
      Comment(doc.value);
    }

    /** `value_hint(name, value)` */
    method ValueHint(name: string, value: Obj)
      modifies file
      ensures file.written == old(file.written) + ValueHintText(options, indentLevel, name, value)
    {
      if !options.includeValues {
        return;
      }
      Comment("Note: " + name + " had the following value:");
      Comment(value.repr);
    }
  }
}
