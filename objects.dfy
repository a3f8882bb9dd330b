/**
 * The runtime objects the generator introspects, as a closed datatype, and the
 * classification and filtering helpers of stub.py that look at them.
 */
module Objects {
  import opened Wrappers
  import opened Text
  import opened Seqs

  /** Identity of a class object (Python compares classes with `==`, i.e. by identity). */
  type ClassId = nat

  /** The identity of the builtin `object`. */
  const ObjectClass: ClassId := 0

  /** A base class as `__bases__` lists it: its identity and its `__name__`. */
  datatype ClassRef = ClassRef(id: ClassId, name: string)

  /**
   * A class object. `doc` is what `inspect.getdoc` returns for it; `members` is what
   * `inspect.getmembers` enumerates, in that order, inherited attributes included.
   */
  datatype Class = Class(id: ClassId, doc: Option<string>, bases: seq<ClassRef>, members: seq<Member>)

  /**
   * A runtime value as the generator sees it; `repr` is `repr(value)`.
   * - Submodule: a module object.
   * - ClassValue: a class object.
   * - Function: a plain Python function (`inspect.isfunction`), possibly a generator function.
   * - Wrapper: a callable that is not a plain function, such as a bound method or a
   *   `functools.partial`, which `inspect.isgeneratorfunction` looks through.
   * - Plain: any other value; `isStr` is `isinstance(value, str)` and `owner` is its
   *   `__objclass__` when it has one (slot wrappers, method and member descriptors).
   */
  datatype Obj =
    | Submodule(repr: string)
    | ClassValue(cls: Class, repr: string)
    | Function(doc: Option<string>, generator: bool, repr: string)
    | Wrapper(generator: bool, repr: string)
    | Plain(isStr: bool, repr: string, owner: Option<ClassId>)

  /** A `(name, value)` pair as `inspect.getmembers` yields it. */
  datatype Member = Member(name: string, obj: Obj)

  /** The module to stub: its members in enumeration order and its `__all__`, if any. */
  datatype Module = Module(name: string, members: seq<Member>, exportList: Option<seq<string>>)

  /** The command-line options. */
  datatype Options = Options(
    includeDocs: bool,
    includeValues: bool,
    exportsOnly: bool,
    forcePackage: bool,
    hiding: seq<string>,
    overwrite: bool)

  // The `inspect` predicates the dispatch in `stub` consults, in its order.
  predicate IsModule(o: Obj) { o.Submodule? }
  predicate IsClass(o: Obj) { o.ClassValue? }
  predicate IsFunction(o: Obj) { o.Function? }
  predicate IsGeneratorFunction(o: Obj) { (o.Function? || o.Wrapper?) && o.generator }

  /**
   * `inspect.getdoc`: the docstring of a function or a class. The emitters ask only
   * functions and classes for one; other objects are modelled without a docstring.
   */
  function GetDoc(o: Obj): Option<string> {
    match o
    case Function(doc, _, _) => doc
    case ClassValue(cls, _) => cls.doc
    case _ => None
  }

  /** `is_magic`: the name both starts and ends with a double underscore. */
  function IsMagic(name: string): (r: bool)
    ensures r <==> |name| >= 2 && name[..2] == "__" && name[|name| - 2..] == "__"
  {
    StartsWith(name, "__") && EndsWith(name, "__")
  }

  /**
   * `is_inherited`: only a value that exposes an owner can be inherited, and it is
   * exactly when that owner is another class.
   */
  function IsInherited(classId: ClassId, member: Obj): (r: bool)
    ensures r <==> member.Plain? && member.owner.Some? && member.owner.value != classId
    ensures member.Plain? && member.owner == Some(classId) ==> !r
  {
    match member
    case Plain(_, _, owner) => owner.Some? && owner.value != classId
    case _ => false
  }

  /** `get_class_name` */
  function GetClassName(c: ClassRef): string {
    c.name
  }

  /** The `__name__` of each base, in declared order. */
  function BaseNames(bases: seq<ClassRef>): (names: seq<string>)
    ensures |names| == |bases|
    ensures forall i :: 0 <= i < |bases| ==> names[i] == GetClassName(bases[i])
    decreases |bases|
  {
    if bases == [] then [] else [GetClassName(bases[0])] + BaseNames(bases[1..])
  }

  /**
   * `get_bases_string`: empty exactly for a class whose only base is `object`,
   * otherwise the base names in declared order, comma separated, in parentheses.
   */
  function GetBasesString(bases: seq<ClassRef>): (r: string)
    ensures r == "" <==> |bases| == 1 && bases[0].id == ObjectClass
    ensures r != "" ==> r == "(" + Join(BaseNames(bases), ", ") + ")"
  {
    if |bases| == 1 && bases[0].id == ObjectClass then ""
    else "(" + Join(BaseNames(bases), ", ") + ")"
  }

  /** One base other than `object` renders as `(B)`; two render as `(B1, B2)`. */
  lemma BasesStringShapes(b1: ClassRef, b2: ClassRef)
    ensures b1.id != ObjectClass ==> GetBasesString([b1]) == "(" + b1.name + ")"
    ensures GetBasesString([b1, b2]) == "(" + b1.name + ", " + b2.name + ")"
  {
    var names := BaseNames([b1, b2]);
    assert names == [b1.name, b2.name];
    assert names[1..] == [b2.name];
    assert Join(names, ", ") == b1.name + ", " + Join([b2.name], ", ");
  }

  /** `guess_value_type`: `str` for strings, `any` for everything else. */
  function GuessValueType(value: Obj): (r: string)
    ensures r == "str" <==> value.Plain? && value.isStr
    ensures r == "str" || r == "any"
  {
    if value.Plain? && value.isStr then "str" else "any"
  }

  /** Whether `get_exports` yields a member of this name. */
  predicate IsExportName(mod: Module, name: string) {
    match mod.exportList
    case Some(all) => name in all
    case None => !StartsWith(name, "_")
  }

  /** The loop of `get_exports` over `members`: those `IsExportName` accepts, in order. */
  function Exported(mod: Module, members: seq<Member>): seq<Member>
    decreases |members|
  {
    if members == [] then []
    else
      var last := members[|members| - 1];
      Exported(mod, members[..|members| - 1]) + (if IsExportName(mod, last.name) then [last] else [])
  }

  /** `get_exports` */
  function GetExports(mod: Module): seq<Member> {
    Exported(mod, mod.members)
  }

  lemma {:induction false} ExportedContents(mod: Module, members: seq<Member>)
    ensures forall m :: m in Exported(mod, members) <==> m in members && IsExportName(mod, m.name)
    ensures IsSubsequence(Exported(mod, members), members)
    decreases |members|
  {
    if members != [] {
      var init, last := members[..|members| - 1], members[|members| - 1];
      ExportedContents(mod, init);
      var r := Exported(mod, members);
      assert members == init + [last];
      if IsExportName(mod, last.name) {
        assert r[..|r| - 1] == Exported(mod, init);
      } else {
        assert r == Exported(mod, init);
        assert members[..|members| - 1] == init;
      }
    }
  }

  /**
   * `get_exports` yields the members named in `__all__` when the module has one, else
   * the members whose names do not start with `_`; in member order.
   */
  lemma GetExportsSelects(mod: Module)
    ensures forall m :: m in GetExports(mod) <==> m in mod.members && IsExportName(mod, m.name)
    ensures IsSubsequence(GetExports(mod), mod.members)
  {
    ExportedContents(mod, mod.members);
  }

  function Names(members: seq<Member>): (names: seq<string>)
    ensures |names| == |members|
  {
    Apply(members, (m: Member) => m.name)
  }

  /**
   * The export selection keeps the module's own order of names and never repeats a
   * name the module does not repeat.
   */
  lemma ExportsKeepOrder(mod: Module)
    ensures IsSubsequence(Names(GetExports(mod)), Names(mod.members))
    ensures NoDuplicates(Names(mod.members)) ==> NoDuplicates(Names(GetExports(mod)))
  {
    GetExportsSelects(mod);
    SubsequenceApply(GetExports(mod), mod.members, (m: Member) => m.name);
    if NoDuplicates(Names(mod.members)) {
      SubsequenceNoDuplicates(Names(GetExports(mod)), Names(mod.members));
    }
  }
}
