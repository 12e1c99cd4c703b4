# cdb.py in Dafny

`cdb.py` is a Python 2 debugging helper. It does three things:

- It renders a value as indented text. This is `ObjectDumper.dump_obj`, which is guarded by the `depth_dec` decorator and started by `dwrap`.
- It appends debug records to a log file. These are `Writer.write_val` and `Writer.write_dump`.
- It traces calls. `DBPrinter.cdb_dec` logs a record when a call is entered and one when it returns or raises. `__call__`, `__div__` and `__floordiv__` are operator shortcuts over the same writer.

This project models those parts and proves what they promise.

The modules follow the program:

- `PyText` (`pytext.dfy`) holds the Python builtins the code leans on: `" " * n`, slicing with negative indices, `str.split`, `", ".join`, `str(int)`, `binascii.hexlify` and `string.printable`.
- `CdbText` (`cdbtext.dfy`) holds `indent`, `pstr`, `type_str` and `func_args`, all as pure functions.
- `Values` (`values.dfy`) holds the values the dumper and the tracer see:
  - exceptions, classed the way the handlers in `cdb.py` tell them apart (`TypeError`, another `Exception`, or a `BaseException` that is not an `Exception`);
  - the result of an operation that may raise;
  - the object graph.
- `Dumper` (`dumper.dfy`) holds the dumper in two layers:
  - the pure specification functions `Dump`, `Body` and `Members`, which follow the reachable path of `dump_obj` under `depth_dec`;
  - the class `ObjectDumper`, whose fields `depth` and `cache` its methods update in place, as the Python object does.
- `Log` (`log.dfy`) holds the log:
  - a `FileStore` class, mapping file names to their contents, in which appending is the only write;
  - the `Writer` class, whose loops write one line at a time.
- `Tracer` (`tracer.dfy`) holds the `DBPrinter` class and a pure function `Traced`. `Traced` gives what one traced call appends, to which file, and what the call returns or raises.

Python reflection is not executed; its answers are data:

- Each node of the object graph stores the type description that `type_str` reads (`str(type(x))`, or `repr(x)` and `str(x.__repr__)` for an old-style instance), and what `hash`, `str` and `inspect.getmembers` give for that value. Each of the last three may raise, and `type_str` itself may fail on a short repr.
- A node whose type is in `SimplePrint` stores its `str(type(x))` and `repr(x)`.
- Member lists may refer back to any node, so cycles are allowed.

Colouring is the identity, as with `USE_COLOR = False`.

### Behaviour of `cdb.py` the model keeps

The model keeps each of these behaviours of the code.

- **Depth bookkeeping after an exception.** `depth_dec` catches every exception of the body and returns `'Exception\n'`. It does so without the decrement (cdb.py:227-228), so `depth` stays one level higher afterwards. Later members of the same object are then indented one level deeper, and they hit the depth limit sooner. The model keeps the leak:
  - `Dumper.ExceptionSkipsDecrement` and `Dumper.DepthLeaksPastRaisingMember` show it.
  - Depth is proved to be restored when no node of the graph can raise (`Dumper.DumpRestoresDepth`).
- **Repeat detection is by hash.** Repeat detection uses `hash(obj)`, not identity. Two distinct values with equal hashes count as a repeat.
- **Errors while logging.** A `str()` failure inside `write_val` propagates out of the traced call, in place of the call's own outcome. The lines written before the failure stay in the file.
- **The traceback file is fixed.** `__pos__` always appends to `/tmp/cdb`, whatever file name the printer was built with.
- **Keyword arguments of the decorator form.** `__call__` with a lone plain function returns the decorator and ignores any keyword arguments.
- **What `type_str` can raise.** It raises `IndexError` on a repr that is too short. The model returns `None` there, and the dumper treats that as an exception of the body.

## Model

| member | source | states |
|---|---|---|
| `PyText.UnhexlifyHexlify` | cdb.py:131 | For a byte string (every character code below 256), decoding the hex text that `hexlify` writes gives back the original string. |
| `PyText.ParseNatToString` | cdb.py:146-147 | The decimal text written for a label index or for the tag reads back as the same number. |
| `CdbText.Indent` | cdb.py:192-193 | `indent(i)` is `i` spaces when `i > 0` and empty otherwise. |
| `CdbText.PStrUnchangedIff` | cdb.py:126-132 | `pstr` returns its text unchanged if and only if every character is in `string.printable` or is ESC. |
| `CdbText.PStrEncodes` | cdb.py:126-132 | A text holding a character that is not printable is written twice as long, in lower-case hex digits only, and for a byte string it decodes back to the text. |
| `CdbText.PStrIdempotent` | cdb.py:126-132 | What `pstr` writes is all printable, so applying `pstr` to it again changes nothing. |
| `CdbText.TypeStr` | cdb.py:113-123 | `type_str` of a non-instance value always succeeds, and every label it produces is bracketed by `<` and `>`. |
| `CdbText.TypeStrOfBuiltin` | cdb.py:119-120 | A builtin type printed as `<type 'n'>` is labelled `<n>`. |
| `CdbText.TypeStrOfClass` | cdb.py:121-122 | A new-style class printed as `<class 'n'>` is labelled `<n>`. |
| `CdbText.TypeStrOfInstance` | cdb.py:114-118 | An old-style instance whose repr starts `<w` followed by a space or the end is labelled by that first word `<w>`. |
| `CdbText.TypeStrOfCustomRepr` | cdb.py:115-117 | An old-style instance with its own `__repr__` is labelled by the class name in `str(x.__repr__)`: `<bound method Foo.__repr__ of ...>` gives `<Foo>`. |
| `CdbText.TypeStrOfOther` | cdb.py:123 | A type repr starting neither `<type` nor `<class` loses its first character and its last two. |
| `CdbText.FuncArgsPlain` | cdb.py:272-282 | Without `*` and `**` parameters, `func_args` writes the intended signature: the parameter names joined by ", " in parentheses. |
| `CdbText.FuncArgsMisplacesStars` | cdb.py:279-282 | `func_args`, as written, renders `def f(a, *x, **y)` as `(a, **, *y, *y)`. |
| `CdbText.SignatureOfStars` | cdb.py:272-282 | The corrected signature of `def f(a, *x, **y)` is `(a, *x, **y)`. |
| `CdbText.SignatureRoundTrip` | cdb.py:272-282 | When no parameter name contains a comma, reading the corrected signature back gives exactly the argspec's parameters in order: the names, then `*varargs`, then `**keywords`. |
| `Dumper.NameFillsColumn` | cdb.py:268-269 | A member name followed by `spacing(len(name))` fills exactly the column width. A name as long as the column or longer gets no padding; `" " * n` with `n <= 0` is empty. |
| `Dumper.CacheCheck` | cdb.py:307-314 | A value is a repeat exactly when its hash succeeds, is already cached, and its `str` succeeds. When the dump goes on, the cache has gained the value's hash, and an unhashable value leaves the cache as it was. |
| `Dumper.Dump` | cdb.py:216-232 | One `dump_obj` call under `depth_dec`: the cache only grows, and only by hashes of the graph's values. With `inc`, depth never falls below its entry value, and it never goes past `max_depth` when it started within it. |
| `Dumper.Body` | cdb.py:297-415 | The body of `dump_obj` on its reachable path keeps the cache growing within the graph's hashes and keeps depth between its entry value and `max_depth`. A body that raises leaves depth untouched. |
| `Dumper.Members` | cdb.py:409-413 | The member loop keeps the cache growing within the graph's hashes and keeps depth within its entry value and `max_depth`. |
| `Dumper.TruncatesBeyondMaxDepth` | cdb.py:220-224 | A dump entered at `max_depth` or deeper writes `'Max Depth!!\n'` and leaves depth and cache exactly as they were. |
| `Dumper.ExceptionSkipsDecrement` | cdb.py:225-228 | When the body raises, the dump writes `'Exception\n'` and depth stays one level above its entry value. |
| `Dumper.SimpleLeaf` | cdb.py:316-317 | A `SimplePrint` value is written as `type_str:repr`, with the newline only when asked for, and depth and cache come back unchanged. |
| `Dumper.RepeatNotExpanded` | cdb.py:309-311 | A value whose hash is already cached is written as one line, `spc + pstr(obj) + NL`, and is not expanded. Depth and cache come back unchanged. |
| `Dumper.FirstVisitCaches` | cdb.py:312 | A hashable value seen for the first time has its hash in the cache afterwards. |
| `Dumper.DumpRestoresDepth` | cdb.py:229-231 | In a graph in which no dump can raise, every dump returns with depth at its entry value. |
| `Dumper.BodyRestoresDepth` | cdb.py:297-415 | In such a graph, the body always produces text, and depth is back at its entry value. |
| `Dumper.MembersRestoreDepth` | cdb.py:409-413 | In such a graph, the member loop leaves depth at its entry value. |
| `Dumper.MembersAtMaxDepth` | cdb.py:409-413 | At `max_depth`, every shown member's line ends in `'Max Depth!!\n'` and nothing changes depth or cache. |
| `Dumper.HiddenMembersSkipped` | cdb.py:410-411 | Names starting with `__` (when `all_members` is off) contribute nothing: the loop's text and state equal those of the loop over the shown members only. |
| `Dumper.MembersAppend` | cdb.py:409-413 | The loop visits members in `getmembers` order. Dumping `a + b` is dumping `a` and then dumping `b` from the state `a` left. |
| `Dumper.RenderAtDepthZero` | cdb.py:566-569 | `dwrap` starts from an empty cache at depth -1, so the top-level value is rendered at depth 0. |
| `Dumper.SelfReferenceIsRepeat` | cdb.py:405-415 | An object whose one member is itself renders its header, the divider, the member line holding the repeat text `pstr(obj)`, and the closing divider. Depth is restored and the cache gains its hash. |
| `Dumper.DepthLeaksPastRaisingMember` | cdb.py:225-231 | When a member's dump raises, its line ends in `'Exception\n'`. The closing divider is then indented one level too deep, and depth stays one level above the entry value. |
| `Dumper.ObjectDumper.constructor` | cdb.py:237-246 | A new dumper has depth -1, an empty cache, `max_depth` 20, tab space 8, sub-indent 4, column width 8, and hides `__` members. |
| `Dumper.ObjectDumper.DumpObj` | cdb.py:216-232 | The method updates `depth` and `cache` in place. Its text, depth and cache are those of `Dump` from the entry state. |
| `Dumper.ObjectDumper.DumpBody` | cdb.py:298-415 | The body's text (or its exception) and the new depth and cache are those of `Body`. |
| `Dumper.ObjectDumper.CheckCache` | cdb.py:307-314 | Decides the repeat as `CacheCheck` does. It adds the hash to the cache exactly when the dump goes on with a hashable value. |
| `Dumper.ObjectDumper.DumpMembers` | cdb.py:409-413 | The loop's accumulated text and the final depth and cache are those of `Members`. |
| `Dumper.ObjectDumper.DumpMember` | cdb.py:410-413 | A shown member adds `ind + subi + name + spacing + '=>'` and its recursive dump at the column offset. A hidden one adds nothing and changes nothing. |
| `Dumper.ObjectDumper.Dwrap` | cdb.py:566-569 | The output is `Render`, a function of the settings and the value alone, whatever earlier dumps left in the fields. |
| `Log.FileStore.constructor` | cdb.py:143 | No file has been written yet. |
| `Log.FileStore.Append` | cdb.py:143 | Opening in append mode: the named file gets `s` added at its end, and every other file is unchanged. |
| `Log.ApplyExtends` | cdb.py:143 | A run of appends only extends files: earlier contents stay a prefix, and a file no append names is untouched. |
| `Log.EntriesLayout` | cdb.py:145-150 | The lines of a record section are written in order. If a value's `str` raises, the lines before it and its label have been written, and the exception is that value's. |
| `Log.ValRecordAllOk` | cdb.py:142-151 | When every `str` succeeds, a record has this layout: the header, one `"  <i>:" + pstr(arg)` line per positional argument with `i = 0..n-1`, one `"  k=" + pstr(v)` line per keyword, then a blank line. |
| `Log.ValRecordArgRaises` | cdb.py:145-147 | When the `str` of positional argument `j` is the first to raise, the record is cut after the label `"  <j>:"` and that exception propagates. |
| `Log.ValRecordKeywordRaises` | cdb.py:148-150 | When the first `str` to raise is that of keyword `j`, the record holds all positional lines and the keyword lines before `j`. It is cut after the label `"  k="`, and that exception propagates. |
| `Log.FirstArgLabels` | cdb.py:146 | The labels of the first four positional values are `"  <0>:"` to `"  <3>:"`. |
| `Log.Writer.constructor` | cdb.py:139-140 | The writer keeps the file name it was given. |
| `Log.Writer.WriteVal` | cdb.py:142-151 | Appends exactly the `ValRecord` text, possibly cut short, to the writer's file. Every other file is unchanged. The exception it returns is the record's. |
| `Log.Writer.WriteArgs` | cdb.py:145-147 | The positional loop appends the section's text and stops at the first raising value. |
| `Log.Writer.WriteKeywords` | cdb.py:148-150 | The keyword loop appends the section's text and stops at the first raising value. |
| `Log.Writer.WriteDump` | cdb.py:153-163 | Appends the header, each text, each `k=>v`, and a newline to the writer's file, and changes nothing else. |
| `Log.Writer.WriteAll` | cdb.py:156-157 | Appends the texts one after another. |
| `Tracer.Tag` | cdb.py:592 | The tag is in `[0, 1000000)` for every clock reading, negative ones included. |
| `Tracer.EntryRecordLayout` | cdb.py:593 | When every argument's `str` succeeds, the entry record is well formed. It holds the tag line, the `'in->{{module.name}}'` line, one line per argument at positions 2 onwards, and the keyword lines. |
| `Tracer.ExitRecordLayout` | cdb.py:600 | The exit record holds four lines: the tag, `'out->{{module.name}}'`, `'rv-->'` and `pstr(rv)`. |
| `Tracer.TracedNeverMasks` | cdb.py:591-601 | A traced call returns only the value `f` returned, and when `f` raised, the traced call raises too. |
| `Tracer.TracedReturn` | cdb.py:593-601 | When `f` returns, one entry record is appended, then one exit record, and the value is returned unchanged. |
| `Tracer.TracedException` | cdb.py:593-599 | When `f` raises an `Exception`, these are appended in order: the entry record, the exception record, and the traceback in `/tmp/cdb`. Then the same exception is raised again. |
| `Tracer.TracedBaseExceptionPasses` | cdb.py:593-596 | A `BaseException` that is not an `Exception` is written nothing beyond the entry record. The same exception comes out, unless writing the entry record raised, in which case that exception does. |
| `Tracer.EntryFailureSkipsCall` | cdb.py:593-595 | If writing the entry record raises, `f` is never called: the outcome does not depend on `f`, only the entry record is appended, and its exception propagates. |
| `Tracer.TracedAppendsOnly` | cdb.py:591-601 | A traced call appends one to three records, the entry record first. It writes only to the printer's file and `/tmp/cdb`, only extends them, and leaves every other file untouched. |
| `Tracer.DumpRecordOfOne` | cdb.py:618 | `//` writes the header, the dump text and a newline. |
| `Tracer.DBPrinter.constructor` | cdb.py:578-583 | A new printer writes to the given file and owns a fresh dumper with `max_depth` 3 and a fresh state. |
| `Tracer.DBPrinter.TracedCall` | cdb.py:591-601 | The decorated call returns or raises what `Traced` says and appends exactly its records to the files. |
| `Tracer.DBPrinter.Pos` | cdb.py:622-634 | `+printer` appends a header and the stack text to `/tmp/cdb`, and nothing else. |
| `Tracer.DBPrinter.Call` | cdb.py:606-609 | A single plain function gives back its decorator and writes nothing. Any other call writes one `write_val` record of its arguments and its exception, if any, propagates. |
| `Tracer.DBPrinter.Div` | cdb.py:612-614 | `printer / x` writes one record of `x` and returns `x` itself, unless writing it raised. |
| `Tracer.DBPrinter.FloorDiv` | cdb.py:617-619 | `printer // x` appends the `dwrap` rendering of `x` as one dump record and returns `x`. The dumper's depth and cache are left as `dwrap` leaves them. |

## Findings

| source | as written | input that shows it | evidently intended | confidence | as-written member | corrected member |
|---|---|---|---|---|---|---|
| cdb.py:279-282 | `v_args` is formatted with the keywords name, `k_args` with the already formatted `v_args`, and they are joined as args, `**`, `*` | `def f(a, *x, **y)` gives `(a, **, *y, *y)` | `(a, *x, **y)` | not executed | `CdbText.FuncArgsMisplacesStars` | `CdbText.SignatureOfStars`, `CdbText.SignatureRoundTrip` |

`func_args` is only called from the unreachable branches of `dump_obj`, so the defect never shows in a dump. `CdbText.Signature` is the corrected definition, and `CdbText.FuncArgs` keeps the code as written.

## Left out

- The colour helpers (`colorize`, `ecolorize`, the `col_*` functions): treated as the identity, as with `USE_COLOR = False`.
- `CaptureStdout`, `dis_ext`, `dec_ext` and `func_info`: they redirect stdout and call the `dis` module and the optional `uncompyle2`, which are outside the model.
- Python reflection (`type`, `hash`, `str`, `repr`, `inspect.getmembers`, `inspect.getargspec`): not executed. Its answers are stored in the graph's nodes and in the `ArgSpec` value.
- `time.strftime` and `time.time`: their results are parameters (the stamp texts and the clock reading).
- `traceback.extract_stack`: the text `__pos__` writes for the stack is an input.
- File `open` failures and partial OS writes: not modelled. An append always succeeds.
- The side effects of the traced function `f`: what it returns or raises is a parameter.
- The order of `kwargs.items()`: the keyword arguments are given as a sequence in the order Python yields them.
- The texts of `str(e.args)` and `e.message`: they are inputs of the exception value.
- A function whose `__module__` is `None` (`".".join` would raise): not modelled; the module name is always a string.
- The branches at cdb.py:324-404 and 421-564: `object` is always a class and never a collection, so they are unreachable or do nothing.
- `full_col`, the `deep` and `f_introspect` fields, and the commented-out code in `ind` and `subi`: only dead code reads them.
- `pod`, `podx`, `podl`, `podla`, `edir`, `ldir`, `ddir`, `idir`, the global preset printers and `test`: printing wrappers over the modelled operations.
- `dump_obj` called with `inc=False`: modelled by `Dump`, but nothing in the code makes that call, so no property is stated for it.
- Two exceptions of the Python runtime are not modelled. `write_val(self, *args, **kwargs)` raises `TypeError` before opening the file when a traced call or a direct call passes a keyword argument named `self` (cdb.py:142, 593, 609). With a large `max_depth`, Python's recursion limit raises `RuntimeError`, which the bare `except` of `depth_dec` turns into `'Exception\n'` (cdb.py:227).
