# mypy-stubgen `stub.py` in Dafny

`stub.py` writes a rough mypy stub for an imported Python module. It enumerates the module's
members and writes one block per member:
- a comment for a submodule;
- a `class` header and body for a class;
- a `def name(*args, **kwargs): pass` stub for a function;
- a comment for a generator-function wrapper;
- a `<type> <name>` line for any other value.

Each block is followed by a blank line. The text goes through `Outputter`, a small writer that
carries the output file, the options and an indent level of four spaces per level. The driver
works out the output path from the dotted module name, refuses to overwrite an existing stub
unless told to, and writes the stub.

This project models that core:

- `objects.dfy` (`Objects`): the runtime objects the generator introspects, as a closed
  datatype, and the pure helpers `get_class_name`, `get_bases_string`, `is_inherited`,
  `guess_value_type`, `get_exports` and `is_magic`, with lemmas on what they select.
- `writer.dfy` (`Writer`): the output file is a `Sink` class whose `written` field collects
  every `write`. `Outputter` is a class whose methods (`Line`, `Indent`, `Blank`, `Comment`,
  `Doc`, `ValueHint`) append to that sink. Each method is proved against a function giving
  exactly the strings it writes.
- `stubs.dfy` (`Stubs`): the emitters `stub_function`, `stub_value`, `stub_class` and `stub`
  as methods. Their loops are kept as loops, and each method is proved to write exactly the
  text of a specification function (`FunctionText`, `ValueText`, `ClassText`, `ModuleText`).
- `properties.dfy` (`StubProperties`): what holds of that text:
  - one block per shown member, in module order;
  - each block is closed by the only blank line at the writer's level;
  - nothing is indented less than the writer;
  - docs and value hints are comments only;
  - a class body is never empty, with `pass` exactly when the class has no own member;
  - the single-line forms of submodules, generator wrappers and values.
- `driver.dfy` (`Driver`): `is_probably_package`, `os.path.basename`, `posixpath.join`, the
  output path of stub.py:205-210 and the flow of `main` after argument parsing.
- `text.dfy`, `seqs.dfy`, `wrappers.dfy`: the Python string operations used, with their
  Python semantics, plus sequence and `Option` helpers:
  - `str.splitlines` with its full set of line boundaries, and `\r\n` as one boundary;
  - `str.split` on one character;
  - `str.join`;
  - `str.startswith` / `str.endswith`.

Design notes where the code decides:

- Without `--exports-only`, `stub` takes every member `inspect.getmembers` yields
  (stub.py:131-132). Only magic and hidden names are skipped, so a name such as `_d` with one
  leading underscore IS stubbed. The leading-underscore rule applies only through `get_exports`
  (stub.py:116-118). The model follows the code (`Stubs.MembersToStub`).
- `inspect.isfunction` is checked before `inspect.isgeneratorfunction` (stub.py:146-149).
  - A plain generator function therefore gets a `def` stub.
  - The `generator:` comment is written only for generator-function objects that are not
    plain functions, such as bound methods (`Objects.Obj.Wrapper`).
  - `StubProperties.MemberTextCases` states both.
- `stub_class` does not skip magic names (stub.py:70-80). Attributes such as `__doc__` or
  `__module__` that the class itself owns are written as values.

## Model

| member | source | states |
|---|---|---|
| Objects.IsMagic | stub.py:121-122 | a name is magic exactly when it is at least two characters long and both starts and ends with `__` |
| Objects.IsInherited | stub.py:56-60 | only a value that has an owner class (`__objclass__`) can be inherited, and it is exactly when that owner is not the class being stubbed |
| Objects.BaseNames | stub.py:41-42 | one name per base, in declared order, each the base's `__name__` |
| Objects.GetBasesString | stub.py:45-53 | the bases string is empty exactly when the only base is `object`; otherwise it is the comma-separated base names in parentheses |
| Objects.BasesStringShapes | stub.py:50-53 | one non-`object` base gives `(B)`; two bases give `(B1, B2)` |
| Objects.GuessValueType | stub.py:94-99 | the type is `str` exactly for a string value, and `any` for everything else |
| Objects.ExportedContents | stub.py:108-118 | the export loop keeps exactly the members whose names pass the export test, as a subsequence of its input |
| Objects.GetExportsSelects | stub.py:108-118 | with `__all__`, the exports are the members named in it; without it, the members not starting with `_`; always in member order |
| Objects.ExportsKeepOrder | stub.py:108-118 | the exported names are a subsequence of the module's names and repeat no name the module does not repeat |
| Text.Spaces | stub.py:25 | `' ' * n` has length `n` and holds only spaces |
| Text.SplitLines | stub.py:14 | no line returned by `splitlines` contains a line boundary |
| Text.SplitLinesRoundTrip | stub.py:14 | `splitlines` of lines each followed by `\n` gives back exactly those lines |
| Text.SplitLinesNonEmpty | stub.py:14 | a non-empty text has at least one line |
| Text.SplitOn | stub.py:205 | `split('.')` returns at least one part, and joining the parts with the separator gives back the name |
| Text.SplitOnParts | stub.py:205 | no part contains the separator, and every character of a part comes from the name |
| Text.JoinSplitOn | stub.py:205-210 | splitting at one character and joining with another replaces every occurrence of the first by the second |
| Writer.Sink.Write | stub.py:26 | a write appends exactly the string written and changes nothing else |
| Writer.LineTextParts | stub.py:24-26 | a written line is `4 * level` spaces, then the text, then `\n` |
| Writer.LineTextInjective | stub.py:24-26 | at one level, different texts give different lines |
| Writer.LineTextIndented | stub.py:24-29 | a line written at a level at or below `outer` starts with the indentation of `outer` |
| Writer.CommentLines | stub.py:13-15 | commenting lines writes one line per line, the i-th being `# ` and the i-th line at the writer's level |
| Writer.CommentSingleLine | stub.py:13-15 | a non-empty comment without line boundaries is written as exactly one `# ` line |
| Writer.CommentOfLines | stub.py:13-15 | commenting newline-terminated lines writes one `# ` line for each of them, in order |
| Writer.Outputter.constructor | stub.py:8-11 | a writer on the given file, with the given options and indent level |
| Writer.Outputter.Line | stub.py:24-26 | `line` appends one string: the level's indentation, the text and a newline |
| Writer.Outputter.Indent | stub.py:28-29 | `indent` returns a new writer on the same file and options, one level deeper |
| Writer.Outputter.Blank | stub.py:31-32 | `blank` appends one line with no text at the writer's level |
| Writer.Outputter.Comment | stub.py:13-15 | `comment` appends one `# ` line per line of the text, in order, and nothing else |
| Writer.Outputter.Doc | stub.py:17-22 | `doc` appends the docstring as a comment when docs are enabled and there is a docstring, and nothing otherwise |
| Writer.Outputter.ValueHint | stub.py:34-38 | `value_hint` appends the note naming the member and then its `repr`, both as comments, when values are enabled, and nothing otherwise |
| Stubs.StubFunction | stub.py:86-91 | `stub_function` appends the doc, then `def <name>(*args, **kwargs):`, then `pass` one level deeper |
| Stubs.StubValue | stub.py:102-105 | `stub_value` appends the value hint, then `<type> <name>` with the guessed type |
| Stubs.StubClassMember | stub.py:76-80 | a kept class member is stubbed as a function when it is a function and as a value otherwise |
| Stubs.StubClass | stub.py:63-83 | `stub_class` appends the doc, then the header with the bases string, then each non-inherited member one level deeper in member order, then `pass` exactly when no member was kept |
| Stubs.StubMember | stub.py:142-151 | the dispatch in `stub` tests module, class, function, generator function and value in that order, and writes the matching text |
| Stubs.Stub | stub.py:125-154 | `stub` appends, for each selected member in order, nothing when the name is magic or hidden, and otherwise the member's text followed by one blank line |
| Stubs.RenderedContents | stub.py:134-140 | the loop of `stub` renders exactly the members that are neither magic nor hidden, as a subsequence of the members it enumerates |
| Stubs.MembersToStub | stub.py:129-140 | the members shown are exactly those of the module that are not magic, not hidden and, with `exports_only`, exported; they keep the module's order |
| StubProperties.CommentLinesShape | stub.py:13-15 | every comment line starts with the level's indentation and `# ` |
| StubProperties.HintsAreComments | stub.py:17-38 | doc and value hint write comment lines only. The doc appears only with docs enabled and a docstring present; the hint appears exactly when values are enabled |
| StubProperties.FunctionTextShape | stub.py:86-91 | a function stub has at least two lines, none indented less than the writer and none as short as a blank line |
| StubProperties.ValueTextShape | stub.py:102-105 | a value stub has at least one line, none indented less than the writer and none as short as a blank line |
| StubProperties.ValueTextWithHint | stub.py:102-105 | with values enabled and one-line name and `repr`, a value stub is exactly the note line, the `repr` line and the typed line |
| StubProperties.ClassMemberShape | stub.py:76-80 | the text of a kept class member is non-empty and indented to the body's level |
| StubProperties.ClassBodyShape | stub.py:69-80 | every class-body line is indented to the body's level, and the body is empty exactly when no member is the class's own |
| StubProperties.ClassTextShape | stub.py:63-83 | a class stub is its doc, its header line, and the block under the header |
| StubProperties.ClassBlockShape | stub.py:69-83 | the block under a class header is never empty and is indented one level deeper than the header; it is the body when the class has an own member, and `pass` otherwise |
| StubProperties.ClassTextLines | stub.py:63-83 | every line of a class stub is indented at least to the class's level and is longer than a blank line there |
| StubProperties.MemberTextShape | stub.py:142-151 | no line written for a member is indented less than the writer or is a blank line at the writer's level |
| StubProperties.MemberTextCases | stub.py:142-151 | a class gets a class stub; every plain function, generator or not, gets a function stub; a non-generator wrapper and any other value get a value stub |
| StubProperties.SubmoduleLine | stub.py:142-143 | a submodule with a one-line name is written as the single line `# module not stubbed: <name>` |
| StubProperties.GeneratorWrapperLine | stub.py:148-149 | a generator wrapper with a one-line name is written as the single line `# generator: <name>` |
| StubProperties.ModuleTextBlocks | stub.py:134-154 | the loop of `stub` writes the blocks of exactly the members it renders, in order |
| StubProperties.BlocksShape | stub.py:153 | the blank lines at the writer's level are exactly as many as the blocks, and every line is indented to the writer's level |
| StubProperties.StubOutput | stub.py:125-154 | a module's stub is one block per shown member, in module order, with exactly one blank line per block and no line indented less than the writer |
| Driver.LastSlash | stub.py:167 | the last `/` in the path, or -1 when there is none |
| Driver.BaseName | stub.py:167 | `basename` is a suffix of the path without `/`, and is preceded by a `/` when it is not the whole path |
| Driver.PackageSourceFile | stub.py:157-167 | a source file marks a package exactly when its last path component is `__init__.py` |
| Driver.OutputComponents | stub.py:205-209 | one component per dotted part, plus `__init__.py` for a package; the parts before the last are kept unchanged |
| Driver.OutputComponentsJoin | stub.py:205-209 | the components joined with `/` are the module name with dots made slashes, followed by `/__init__.py` for a package or `.py` otherwise |
| Driver.PathJoinPlain | stub.py:210 | `os.path.join` of a directory and plain non-empty components puts exactly one `/` before each component |
| Driver.ComponentsPlain | stub.py:205-209 | for a module name without `/` and without empty parts, every component is non-empty and has no `/` |
| Driver.OutputPathLayout | stub.py:205-210 | the stub path is the output directory, `/`, the module name with dots made slashes, and then `/__init__.py` or `.py` |
| Driver.Run | stub.py:196-220 | an import that fails reports which way it failed. An existing file is refused unless overwriting is allowed. Otherwise exactly the module's stub text is written at level 0 to the computed path |

## Left out

- `lsmod.py` is not part of this model. It only lists the modules that can be imported.
- Argument parsing (stub.py:179-194) is not modelled. The parsed options are the `Options` datatype.
- `importlib.import_module` is not modelled. Its outcome is an input: the module, `ImportError`, or any other exception.
- `inspect` is not modelled. Inputs carry what it reports:
  - `getmembers` gives the member sequence, in the order it yields them (sorted by name in CPython); the model takes any order;
  - `getdoc` is a field of functions and classes (`Objects.GetDoc`); the emitters ask no other object for a docstring;
  - `getsourcefile` is an optional path; a built-in module, where it raises `TypeError`, is `None` like a module without a source file;
  - `repr` is a field of every object;
  - `isinstance(value, str)` and `__objclass__` are fields of plain values.
- `make_parent_dirs` (stub.py:170-175, called at stub.py:212) is not modelled. Creating directories is a file-system effect. The code runs it before the overwrite check, so it creates the parent directories even when it then refuses to write.
- `os.path.exists` is not modelled. Which paths already exist is an input set.
- Opening, writing and closing the output file are not modelled. The file's content is the sequence of strings written to it.
- Printing is modelled as the message in `Reported`.
- `Outputter.line` applies `str(line)` to its argument. The model passes strings only, as every caller in stub.py does.
- Exceptions raised by `repr`, `getdoc` or `write` part-way through a stub are not modelled.
- `get_exports` is lazy. It is modelled as the list it yields. `stub` consumes it fully and nothing else runs in between, so the output is the same.
- `Driver.OutputPathLayout` holds only under its preconditions:
  - an output directory that is not empty and does not end in `/`;
  - a module name without `/` and without empty dotted parts.

  Other inputs follow `Driver.PathJoin`, the full `posixpath.join` rules.
