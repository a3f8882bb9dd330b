/**
 * What can be said about the text `stub` writes as a whole: one block per shown
 * member, each closed by the only blank line at the module's level; every line
 * indented at least to the writer's level; docs and value hints written as
 * comments only; and a class body that is never empty.
 */
module StubProperties {
  import opened Wrappers
  import opened Text
  import opened Seqs
  import opened Objects
  import opened Writer
  import opened Stubs

  /** Every line starts with `n` spaces. */
  ghost predicate Indented(n: nat, lines: seq<string>) {
    forall x :: x in lines ==> StartsWith(x, Spaces(n))
  }

  /** Every line is a comment at `level`: the level's indentation, then `# `. */
  ghost predicate Commented(level: nat, lines: seq<string>) {
    forall x :: x in lines ==> StartsWith(x, Spaces(4 * level) + "# ")
  }

  /** Every line is at least `n` characters long. */
  ghost predicate MinLength(n: nat, lines: seq<string>) {
    forall x :: x in lines ==> |x| >= n
  }

  lemma IndentedWeaken(m: nat, n: nat, lines: seq<string>)
    requires m <= n && Indented(n, lines)
    ensures Indented(m, lines)
  {
    SpacesPrefix(m, n);
    forall x | x in lines
      ensures StartsWith(x, Spaces(m))
    {
      assert x[..n][..m] == x[..m];
    }
  }

  lemma CommentedIndented(level: nat, lines: seq<string>)
    requires Commented(level, lines)
    ensures Indented(4 * level, lines)
  {
    forall x | x in lines
      ensures StartsWith(x, Spaces(4 * level))
    {
      assert x[..4 * level + 2][..4 * level] == x[..4 * level];
      assert (Spaces(4 * level) + "# ")[..4 * level] == Spaces(4 * level);
    }
  }

  /** Comment lines are comments at their level, each longer than a blank line. */
  lemma CommentLinesShape(level: nat, lines: seq<string>)
    ensures Commented(level, CommentLines(level, lines))
    ensures Indented(4 * level, CommentLines(level, lines))
    ensures MinLength(4 * level + 3, CommentLines(level, lines))
  {
    var r := CommentLines(level, lines);
    forall x | x in r
      ensures StartsWith(x, Spaces(4 * level) + "# ") && |x| >= 4 * level + 3
    {
      var i :| 0 <= i < |r| && r[i] == x;
      LineTextComment(level, lines[i]);
    }
    CommentedIndented(level, r);
  }

  /**
   * `doc` and `value_hint` write comments only. The doc appears only when docs are
   * enabled and there is a docstring; the value hint appears exactly when values are enabled.
   */
  lemma HintsAreComments(options: Options, level: nat, name: string, value: Obj, doc: Option<string>)
    ensures Commented(level, DocText(options, level, doc))
    ensures MinLength(4 * level + 3, DocText(options, level, doc))
    ensures DocText(options, level, doc) != [] ==> options.includeDocs && doc.Some?
    ensures Commented(level, ValueHintText(options, level, name, value))
    ensures MinLength(4 * level + 3, ValueHintText(options, level, name, value))
    ensures ValueHintText(options, level, name, value) != [] <==> options.includeValues
  {
    if doc.Some? {
      CommentLinesShape(level, SplitLines(doc.value));
    }
    var note := "Note: " + name + " had the following value:";
    CommentLinesShape(level, SplitLines(note));
    CommentLinesShape(level, SplitLines(value.repr));
    SplitLinesNonEmpty(note);
  }

  /** A function stub: comments, then the `def` line, then `pass` one level deeper. */
  lemma FunctionTextShape(options: Options, level: nat, name: string, doc: Option<string>)
    ensures Indented(4 * level, FunctionText(options, level, name, doc))
    ensures MinLength(4 * level + 2, FunctionText(options, level, name, doc))
    ensures |FunctionText(options, level, name, doc)| >= 2
  {
    HintsAreComments(options, level, name, Plain(false, "", None), doc);
    CommentedIndented(level, DocText(options, level, doc));
    LineTextIndented(level, level, "def " + name + "(*args, **kwargs):");
    LineTextIndented(level, level + 1, "pass");
  }

  /** A value stub: comments, then one `<type> <name>` line. */
  lemma ValueTextShape(options: Options, level: nat, name: string, value: Obj)
    ensures Indented(4 * level, ValueText(options, level, name, value))
    ensures MinLength(4 * level + 2, ValueText(options, level, name, value))
    ensures ValueText(options, level, name, value) != []
  {
    HintsAreComments(options, level, name, value, None);
    CommentedIndented(level, ValueHintText(options, level, name, value));
    LineTextIndented(level, level, GuessValueType(value) + " " + name);
  }

  /**
   * With values enabled and a one-line name and `repr`, a value stub is exactly the note,
   * the `repr` and the typed line.
   */
  lemma ValueTextWithHint(options: Options, level: nat, name: string, value: Obj)
    requires options.includeValues
    requires HasNoBoundary(name) && HasNoBoundary(value.repr) && value.repr != []
    ensures ValueText(options, level, name, value)
      == [LineText(level, "# " + "Note: " + name + " had the following value:"),
          LineText(level, "# " + value.repr),
          LineText(level, GuessValueType(value) + " " + name)]
  {
    var note := "Note: " + name + " had the following value:";
    LiteralsOneLine();
    NoBoundaryConcat("Note: ", name);
    NoBoundaryConcat("Note: " + name, " had the following value:");
    CommentSingleLine(level, note);
    CommentSingleLine(level, value.repr);
    AppendAssoc("# ", "Note: " + name, " had the following value:");
    AppendAssoc("# ", "Note: ", name);
  }

  /** The fixed texts `stub` puts into comments are single lines. */
  lemma LiteralsOneLine()
    ensures HasNoBoundary("module not stubbed: ") && HasNoBoundary("generator: ")
    ensures HasNoBoundary("Note: ") && HasNoBoundary(" had the following value:")
  {
  }

  lemma ClassMemberShape(options: Options, level: nat, m: Member)
    ensures Indented(4 * level, ClassMemberText(options, level, m))
    ensures MinLength(4 * level + 2, ClassMemberText(options, level, m))
    ensures ClassMemberText(options, level, m) != []
  {
    if IsFunction(m.obj) {
      FunctionTextShape(options, level, m.name, GetDoc(m.obj));
    } else {
      ValueTextShape(options, level, m.name, m.obj);
    }
  }

  /**
   * Every line of a class body is indented to the body's level, and the body is empty
   * exactly when no member is the class's own.
   */
  lemma {:induction false} ClassBodyShape(options: Options, level: nat, classId: ClassId, members: seq<Member>)
    ensures Indented(4 * level, ClassBodyText(options, level, classId, members))
    ensures MinLength(4 * level + 2, ClassBodyText(options, level, classId, members))
    ensures ClassBodyText(options, level, classId, members) == [] <==> !HasOwnMember(classId, members)
    decreases |members|
  {
    if members != [] {
      var init, last := members[..|members| - 1], members[|members| - 1];
      ClassBodyShape(options, level, classId, init);
      ClassMemberShape(options, level, last);
    }
  }

  /** The lines under a class header: the class body, or `pass` in place of an empty one. */
  ghost function ClassBlock(options: Options, level: nat, cls: Class): seq<string> {
    var body := ClassBodyText(options, level + 1, cls.id, cls.members);
    if body == [] then [LineText(level + 1, "pass")] else body
  }

  /** A class stub is its doc, its header, and the block under the header. */
  lemma ClassTextShape(options: Options, level: nat, name: string, cls: Class)
    ensures ClassText(options, level, name, cls)
      == DocText(options, level, cls.doc) + [LineText(level, ClassHeader(name, cls))] + ClassBlock(options, level, cls)
  {
    ClassBodyShape(options, level + 1, cls.id, cls.members);
    var head := DocText(options, level, cls.doc) + [LineText(level, ClassHeader(name, cls))];
    var body := ClassBodyText(options, level + 1, cls.id, cls.members);
    if HasOwnMember(cls.id, cls.members) {
      ClassTextWith(head, body, []);
    } else {
      ClassTextWith(head, body, [LineText(level + 1, "pass")]);
    }
  }

  lemma ClassTextWith(head: seq<string>, body: seq<string>, pass: seq<string>)
    requires body == [] || pass == []
    ensures head + body + pass == head + (if body == [] then pass else body)
  {
    if body == [] {
      assert head + body == head;
    } else {
      assert head + body + pass == head + body;
    }
  }

  /**
   * The block under a class header is never empty and is indented one level deeper than
   * the header; it is `pass` exactly when no member is the class's own.
   */
  lemma ClassBlockShape(options: Options, level: nat, cls: Class)
    ensures ClassBlock(options, level, cls) != []
    ensures Indented(4 * (level + 1), ClassBlock(options, level, cls))
    ensures MinLength(4 * level + 2, ClassBlock(options, level, cls))
    ensures ClassBlock(options, level, cls)
      == if HasOwnMember(cls.id, cls.members) then ClassBodyText(options, level + 1, cls.id, cls.members)
         else [LineText(level + 1, "pass")]
  {
    ClassBodyShape(options, level + 1, cls.id, cls.members);
    LineTextIndented(level + 1, level + 1, "pass");
  }

  /** Every line of a class stub is indented to the class's level and longer than a blank line there. */
  lemma ClassTextLines(options: Options, level: nat, name: string, cls: Class)
    ensures Indented(4 * level, ClassText(options, level, name, cls))
    ensures MinLength(4 * level + 2, ClassText(options, level, name, cls))
  {
    var doc := DocText(options, level, cls.doc);
    var header := [LineText(level, ClassHeader(name, cls))];
    var block := ClassBlock(options, level, cls);
    ClassTextShape(options, level, name, cls);
    ClassBlockShape(options, level, cls);
    IndentedWeaken(4 * level, 4 * (level + 1), block);
    HintsAreComments(options, level, name, Plain(false, "", None), cls.doc);
    CommentedIndented(level, doc);
    LineTextIndented(level, level, ClassHeader(name, cls));
    LinesAppend(4 * level, 4 * level + 2, doc, header);
    LinesAppend(4 * level, 4 * level + 2, doc + header, block);
  }

  lemma LinesAppend(n: nat, k: nat, a: seq<string>, b: seq<string>)
    requires Indented(n, a) && Indented(n, b) && MinLength(k, a) && MinLength(k, b)
    ensures Indented(n, a + b) && MinLength(k, a + b)
  {
  }

  /**
   * Every line `stub` writes for one member is indented to the writer's level and is
   * longer than a blank line at that level.
   */
  lemma MemberTextShape(options: Options, level: nat, m: Member)
    ensures Indented(4 * level, MemberText(options, level, m))
    ensures MinLength(4 * level + 2, MemberText(options, level, m))
    ensures LineText(level, "") !in MemberText(options, level, m)
  {
    if IsModule(m.obj) {
      CommentLinesShape(level, SplitLines("module not stubbed: " + m.name));
    } else if IsClass(m.obj) {
      ClassTextLines(options, level, m.name, m.obj.cls);
    } else if IsFunction(m.obj) {
      FunctionTextShape(options, level, m.name, GetDoc(m.obj));
    } else if IsGeneratorFunction(m.obj) {
      CommentLinesShape(level, SplitLines("generator: " + m.name));
    } else {
      ValueTextShape(options, level, m.name, m.obj);
    }
  }

  /**
   * How `stub` renders the other kinds of member: a class as a class stub, any plain
   * function (generator or not) as a function stub, everything else as a value.
   */
  lemma MemberTextCases(options: Options, level: nat, name: string, obj: Obj)
    ensures obj.ClassValue? ==> MemberText(options, level, Member(name, obj)) == ClassText(options, level, name, obj.cls)
    ensures obj.Function? ==> MemberText(options, level, Member(name, obj)) == FunctionText(options, level, name, obj.doc)
    ensures obj.Plain? || (obj.Wrapper? && !obj.generator)
      ==> MemberText(options, level, Member(name, obj)) == ValueText(options, level, name, obj)
  {
  }

  /** A submodule with a one-line name renders as one comment line. */
  lemma SubmoduleLine(options: Options, level: nat, name: string, repr: string)
    requires HasNoBoundary(name)
    ensures MemberText(options, level, Member(name, Submodule(repr)))
      == [LineText(level, "# " + "module not stubbed: " + name)]
  {
    LiteralsOneLine();
    NoBoundaryConcat("module not stubbed: ", name);
    CommentSingleLine(level, "module not stubbed: " + name);
    AppendAssoc("# ", "module not stubbed: ", name);
  }

  /** A generator wrapper with a one-line name renders as one comment line. */
  lemma GeneratorWrapperLine(options: Options, level: nat, name: string, repr: string)
    requires HasNoBoundary(name)
    ensures MemberText(options, level, Member(name, Wrapper(true, repr)))
      == [LineText(level, "# " + "generator: " + name)]
  {
    LiteralsOneLine();
    NoBoundaryConcat("generator: ", name);
    CommentSingleLine(level, "generator: " + name);
    AppendAssoc("# ", "generator: ", name);
  }

  /** The loop of `stub` writes the blocks of exactly the members it renders. */
  lemma {:induction false} ModuleTextBlocks(options: Options, level: nat, hiding: seq<string>, members: seq<Member>)
    ensures ModuleText(options, level, hiding, members) == Blocks(options, level, RenderedMembers(hiding, members))
    decreases |members|
  {
    if members != [] {
      var init, last := members[..|members| - 1], members[|members| - 1];
      ModuleTextBlocks(options, level, hiding, init);
      var shown := RenderedMembers(hiding, init);
      if Stubbed(hiding, last.name) {
        var r := shown + [last];
        assert RenderedMembers(hiding, members) == r;
        assert r[..|r| - 1] == shown && r[|r| - 1] == last;
        assert Blocks(options, level, r) == Blocks(options, level, shown) + Block(options, level, last);
      } else {
        assert EntryText(options, level, hiding, last) == [];
        assert RenderedMembers(hiding, members) == shown;
        assert ModuleText(options, level, hiding, members) == ModuleText(options, level, hiding, init);
      }
    }
  }

  /**
   * Blocks are separated by blank lines and by nothing else: a blank line at the
   * writer's level occurs once per block, and every line is indented to that level.
   */
  lemma {:induction false} BlocksShape(options: Options, level: nat, members: seq<Member>)
    ensures Count(Blocks(options, level, members), LineText(level, "")) == |members|
    ensures Indented(4 * level, Blocks(options, level, members))
    decreases |members|
  {
    if members != [] {
      var init, last := members[..|members| - 1], members[|members| - 1];
      var blank := LineText(level, "");
      var before := Blocks(options, level, init);
      var text := MemberText(options, level, last);
      BlocksShape(options, level, init);
      MemberTextShape(options, level, last);
      LineTextIndented(level, level, "");
      CountAppend(before, text + [blank], blank);
      CountAppend(text, [blank], blank);
      assert Count([blank], blank) == 1 by {
        assert [blank][..0] == [];
      }
    }
  }

  /**
   * What `stub` writes for a module: one block per member it shows, in the module's
   * order, each closed by the only blank line at the writer's level, and no line
   * indented less than the writer.
   */
  lemma StubOutput(mod: Module, options: Options, level: nat)
    ensures var shown := RenderedMembers(options.hiding, SelectMembers(mod, options));
      var text := ModuleText(options, level, options.hiding, SelectMembers(mod, options));
      && text == Blocks(options, level, shown)
      && Count(text, LineText(level, "")) == |shown|
      && Indented(4 * level, text)
  {
    var shown := RenderedMembers(options.hiding, SelectMembers(mod, options));
    ModuleTextBlocks(options, level, options.hiding, SelectMembers(mod, options));
    BlocksShape(options, level, shown);
  }
}
