/**
 * The emitters of stub.py (`stub_function`, `stub_value`, `stub_class`, `stub`):
 * functions that say which lines each one writes, the methods that write them
 * through an `Outputter`, and what is proved about those lines.
 */
module Stubs {
  import opened Wrappers
  import opened Text
  import opened Seqs
  import opened Objects
  import opened Writer

  /** What `stub_function` writes: the doc, a header accepting any arguments, and a `pass` body. */
  function FunctionText(options: Options, level: nat, name: string, doc: Option<string>): seq<string> {
    DocText(options, level, doc)
    + [LineText(level, "def " + name + "(*args, **kwargs):"), LineText(level + 1, "pass")]
  }

  /** What `stub_value` writes: the optional value hint, then `<type> <name>`. */
  function ValueText(options: Options, level: nat, name: string, value: Obj): seq<string> {
    ValueHintText(options, level, name, value) + [LineText(level, GuessValueType(value) + " " + name)]
  }

  /** What the class-body loop writes for a member it keeps: functions as functions, all else as values. */
  function ClassMemberText(options: Options, level: nat, m: Member): seq<string> {
    if IsFunction(m.obj) then FunctionText(options, level, m.name, GetDoc(m.obj))
    else ValueText(options, level, m.name, m.obj)
  }

  /** What the class-body loop writes for `members` of class `classId`, skipping inherited ones. */
  function ClassBodyText(options: Options, level: nat, classId: ClassId, members: seq<Member>): seq<string>
    decreases |members|
  {
    if members == [] then []
    else
      var last := members[|members| - 1];
      ClassBodyText(options, level, classId, members[..|members| - 1])
      + (if IsInherited(classId, last.obj) then [] else ClassMemberText(options, level, last))
  }

  /** Whether the class-body loop sets `has_member`: some member is not inherited. */
  predicate HasOwnMember(classId: ClassId, members: seq<Member>)
    decreases |members|
  {
    members != [] &&
    (HasOwnMember(classId, members[..|members| - 1]) || !IsInherited(classId, members[|members| - 1].obj))
  }

  /** The header `stub_class` writes. */
  function ClassHeader(name: string, cls: Class): string {
    "class " + name + GetBasesString(cls.bases) + ":"
  }

  /** What `stub_class` writes: the doc, the header, the body one level deeper, and `pass` if the body is empty. */
  function ClassText(options: Options, level: nat, name: string, cls: Class): seq<string> {
    DocText(options, level, cls.doc)
    + [LineText(level, ClassHeader(name, cls))]
    + ClassBodyText(options, level + 1, cls.id, cls.members)
    + (if HasOwnMember(cls.id, cls.members) then [] else [LineText(level + 1, "pass")])
  }

  /** What `stub` writes for one member it keeps, before the blank line: module, class, function, generator, value. */
  function MemberText(options: Options, level: nat, m: Member): seq<string> {
    if IsModule(m.obj) then CommentText(level, "module not stubbed: " + m.name)
    else if IsClass(m.obj) then ClassText(options, level, m.name, m.obj.cls)
    else if IsFunction(m.obj) then FunctionText(options, level, m.name, GetDoc(m.obj))
    else if IsGeneratorFunction(m.obj) then CommentText(level, "generator: " + m.name)
    else ValueText(options, level, m.name, m.obj)
  }

  /** Whether `stub` renders a member of this name: not magic and not hidden. */
  predicate Stubbed(hiding: seq<string>, name: string) {
    !IsMagic(name) && name !in hiding
  }

  /** What the loop of `stub` writes for `members`. */
  function ModuleText(options: Options, level: nat, hiding: seq<string>, members: seq<Member>): seq<string>
    decreases |members|
  {
    if members == [] then []
    else
      var last := members[|members| - 1];
      ModuleText(options, level, hiding, members[..|members| - 1]) + EntryText(options, level, hiding, last)
  }

  /** The block `stub` writes for a member it keeps: the member's lines, then a blank line. */
  function Block(options: Options, level: nat, m: Member): seq<string> {
    MemberText(options, level, m) + [LineText(level, "")]
  }

  /** What one turn of the loop of `stub` writes for `m`: its block, or nothing. */
  function EntryText(options: Options, level: nat, hiding: seq<string>, m: Member): seq<string> {
    if Stubbed(hiding, m.name) then Block(options, level, m) else []
  }

  /** The members `stub` enumerates: the exports with `exports_only`, every member otherwise. */
  function SelectMembers(mod: Module, options: Options): seq<Member> {
    if options.exportsOnly then GetExports(mod) else mod.members
  }

  /** The members that `stub` renders, in the order it renders them. */
  function RenderedMembers(hiding: seq<string>, members: seq<Member>): seq<Member>
    decreases |members|
  {
    if members == [] then []
    else
      var last := members[|members| - 1];
      RenderedMembers(hiding, members[..|members| - 1]) + (if Stubbed(hiding, last.name) then [last] else [])
  }

  lemma {:induction false} RenderedContents(hiding: seq<string>, members: seq<Member>)
    ensures forall m :: m in RenderedMembers(hiding, members) <==> m in members && Stubbed(hiding, m.name)
    ensures IsSubsequence(RenderedMembers(hiding, members), members)
    decreases |members|
  {
    if members != [] {
      var init, last := members[..|members| - 1], members[|members| - 1];
      RenderedContents(hiding, init);
      var r := RenderedMembers(hiding, members);
      assert members == init + [last];
      if Stubbed(hiding, last.name) {
        assert r[..|r| - 1] == RenderedMembers(hiding, init);
      } else {
        assert r == RenderedMembers(hiding, init);
        assert members[..|members| - 1] == init;
      }
    }
  }

  /** The blocks of `members`, in order. */
  function Blocks(options: Options, level: nat, members: seq<Member>): seq<string>
    decreases |members|
  {
    if members == [] then []
    else
      Blocks(options, level, members[..|members| - 1]) + Block(options, level, members[|members| - 1])
  }

  /**
   * The members a module's stub shows: exactly those that are not magic, not hidden and,
   * with `exports_only`, exported; in the module's own order. Without `exports_only`
   * names with a leading underscore are kept.
   */
  lemma MembersToStub(mod: Module, options: Options)
    ensures var r := RenderedMembers(options.hiding, SelectMembers(mod, options));
      && (forall m :: m in r <==>
            m in mod.members && Stubbed(options.hiding, m.name) && (options.exportsOnly ==> IsExportName(mod, m.name)))
      && IsSubsequence(r, mod.members)
  {
    var selected := SelectMembers(mod, options);
    RenderedContents(options.hiding, selected);
    if options.exportsOnly {
      GetExportsSelects(mod);
      SubsequenceTransitive(RenderedMembers(options.hiding, selected), selected, mod.members);
    }
  }

  lemma ModuleTextStep(options: Options, level: nat, hiding: seq<string>, members: seq<Member>, i: nat)
    requires i < |members|
    ensures ModuleText(options, level, hiding, members[..i + 1])
      == ModuleText(options, level, hiding, members[..i])
         + EntryText(options, level, hiding, members[i])
  {
    assert members[..i + 1][..i] == members[..i];
  }

  lemma ClassBodyTextStep(options: Options, level: nat, classId: ClassId, members: seq<Member>, i: nat)
    requires i < |members|
    ensures ClassBodyText(options, level, classId, members[..i + 1])
      == ClassBodyText(options, level, classId, members[..i])
         + (if IsInherited(classId, members[i].obj) then [] else ClassMemberText(options, level, members[i]))
    ensures HasOwnMember(classId, members[..i + 1])
      == (HasOwnMember(classId, members[..i]) || !IsInherited(classId, members[i].obj))
  {
    assert members[..i + 1][..i] == members[..i];
    assert members[..i + 1] == members[..i] + [members[i]];
  }

  // ---------------------------------------------------------------------------
  // The emitters

  /** `stub_function` */
  method StubFunction(name: string, func: Obj, out: Outputter)
    modifies out.file
    ensures out.file.written == old(out.file.written) + FunctionText(out.options, out.indentLevel, name, GetDoc(func))
  {
    out.Doc(GetDoc(func));
    out.Line("def " + name + "(*args, **kwargs):");
    var inner := out.Indent();
    inner.Line("pass");
  }

  /** `stub_value` */
  method StubValue(name: string, value: Obj, out: Outputter)
    modifies out.file
    ensures out.file.written == old(out.file.written) + ValueText(out.options, out.indentLevel, name, value)
  {
    var type_ := GuessValueType(value);
    out.ValueHint(name, value);
    out.Line(type_ + " " + name);
  }

  /** The `if`/`else` in the class-body loop of `stub_class`: functions as functions, anything else as a value. */
  method StubClassMember(member: Member, out: Outputter)
    modifies out.file
    ensures out.file.written == old(out.file.written) + ClassMemberText(out.options, out.indentLevel, member)
  {
    if IsFunction(member.obj) {
      StubFunction(member.name, member.obj, out);
    } else {
      StubValue(member.name, member.obj, out);
    }
  }

  /** `stub_class` */
  method StubClass(name: string, cls: Class, out: Outputter)
    modifies out.file
    ensures out.file.written == old(out.file.written) + ClassText(out.options, out.indentLevel, name, cls)
  {
    ghost var start := out.file.written;
    ghost var head := DocText(out.options, out.indentLevel, cls.doc) + [LineText(out.indentLevel, ClassHeader(name, cls))];
    out.Doc(cls.doc);
    var bases := GetBasesString(cls.bases);
    out.Line("class " + name + bases + ":");
    var inner := out.Indent();
    ghost var before := out.file.written;
    assert before == start + head;
    var members := cls.members;
    var hasMember := false;
    for i := 0 to |members|
      invariant out.file.written == before + ClassBodyText(inner.options, inner.indentLevel, cls.id, members[..i])
      invariant hasMember == HasOwnMember(cls.id, members[..i])
    {
      var member := members[i];
      ClassBodyTextStep(inner.options, inner.indentLevel, cls.id, members, i);
      if IsInherited(cls.id, member.obj) {
        continue;
      }
      hasMember := true;
      StubClassMember(member, inner);
      AppendAssoc(before, ClassBodyText(inner.options, inner.indentLevel, cls.id, members[..i]),
                  ClassMemberText(inner.options, inner.indentLevel, member));
    }
    assert members[..|members|] == members;
    ghost var body := ClassBodyText(inner.options, inner.indentLevel, cls.id, members);
    ghost var placeholder := if hasMember then [] else [LineText(inner.indentLevel, "pass")];
    if !hasMember {
      inner.Line("pass");
    }
    AppendAssoc(start, head, body);
    AppendAssoc(start, head + body, placeholder);
  }

  /** The dispatch in the loop of `stub`: module, class, function, generator function, value. */
  method StubMember(name: string, member: Obj, out: Outputter)
    modifies out.file
    ensures out.file.written == old(out.file.written) + MemberText(out.options, out.indentLevel, Member(name, member))
  {
    if IsModule(member) {
      out.Comment("module not stubbed: " + name);
    } else if IsClass(member) {
      StubClass(name, member.cls, out);
    } else if IsFunction(member) {
      StubFunction(name, member, out);
    } else if IsGeneratorFunction(member) {
      out.Comment("generator: " + name);
    } else {
      StubValue(name, member, out);
    }
  }

  /** `stub`: every selected member that is not magic or hidden, each followed by a blank line. */
  method Stub(mod: Module, out: Outputter, options: Options)
    modifies out.file
    ensures out.file.written
      == old(out.file.written) + ModuleText(out.options, out.indentLevel, options.hiding, SelectMembers(mod, options))
  {
    var members := if options.exportsOnly then GetExports(mod) else mod.members;
    ghost var start := out.file.written;
    for i := 0 to |members|
      invariant out.file.written == start + ModuleText(out.options, out.indentLevel, options.hiding, members[..i])
    {
      var name, member := members[i].name, members[i].obj;
      ModuleTextStep(out.options, out.indentLevel, options.hiding, members, i);
      if IsMagic(name) {
        continue;
      }
      if name in options.hiding {
        continue;
      }
      ghost var done := ModuleText(out.options, out.indentLevel, options.hiding, members[..i]);
      StubMember(name, member, out);
      out.Blank();
      AppendAssoc(start + done, MemberText(out.options, out.indentLevel, members[i]), [LineText(out.indentLevel, "")]);
      AppendAssoc(start, done, EntryText(out.options, out.indentLevel, options.hiding, members[i]));
    }
    assert members[..|members|] == members;
  }
}
