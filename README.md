# Dumping the IR tree, and the JVM back end's synthetic descriptors

This project models two pieces of the Kotlin compiler's intermediate
representation (IR) tooling in Dafny, and proves properties of the model.

**The IR tree dumper** (`DumpIrTree.kt`) prints an IR element as an
indented outline:

- one line per node: the renderer's text for the node, prefixed with
  `role: ` when the parent gives the child a role such as `receiver`,
  `body`, `then` or a parameter name;
- children one indent level (two spaces) deeper than their parent;
- each kind of node puts its own children in its own order, with its own
  labels: files, functions and constructors, error calls, enum entries,
  member accesses, field reads and writes, `when`, branches, `while`,
  `do-while`, `try`, and every other node through its children.

**The line selector** (`DumpTreeFromSourceLineVisitor`) walks a file in
document order:

- a node whose start offset lies on the wanted source line is dumped whole,
  from depth zero, and its subtree is not searched further;
- any other node is searched through its children.

**The synthetic descriptor factory** (`SpecialDescriptorsFactory.kt`)
builds three kinds of descriptor:

- the static field that holds an enum entry;
- the `INSTANCE` field of an object;
- the facade class descriptor of a source file.

The two kinds of field are memoized in one map keyed by the class descriptor
they belong to.

## How the model is organised

The model follows the source's form.

- `DumpIrTree` states the printed outline as pure functions:
  - `Dump` is defined from a per-kind `Outline` table of rows;
  - `Text` turns lines into the printed characters.
- `DumpIrTreeVisitors` holds the imperative visitor:
  - a `Printer` class with the lines printed so far and the indent;
  - a `DumpIrTreeVisitor` class whose visit methods call `Println`,
    `PushIndent` and `PopIndent` and loop over child lists, as the source
    does.

  Every visit method is proved to append exactly
  `Dump(renderer, e, role, indent)` and to restore the indent.
- `LineSelection` states the selector's output as `Select`. Two
  lemmas characterise it independently of the traversal:
  - `SelectByPaths` shows it is the dumps of the reported positions;
  - `SelectInDocumentOrder` adds that those positions are listed in document order, each once;
  - `MatchPathsExactly` shows those positions are exactly the nodes that
    start on the line with no ancestor that does.

  The imperative `DumpTreeFromSourceLineVisitor.VisitElement` is proved
  to print `Select`.
- `SpecialDescriptors` models the factory as a class with a
  `map<ClassDescriptor, PropertyDescriptor>` field.
  - Kotlin's `getOrPut` is the function `GetOrPut`, with lemmas about it.
  - The factory's invariant `Valid` says that every cached field is the one
    its key calls for.
  - The source's assertions and casts become `FactoryError` results.
- `IrTree` and `Descriptors` hold the data model: IR elements as a
  datatype, and descriptors as classes, because descriptors have identity.
  `Wrappers` holds `Option` and `Result`.

## Model

| member | source | states |
|---|---|---|
| IrTree.Children | compiler/ir/ir.tree/src/org/jetbrains/kotlin/ir/util/DumpIrTree.kt:182-182 | The children `acceptChildren` visits, in order; each is a proper part of its parent, so recursion over them ends. |
| DumpIrTree.WithLabel | compiler/ir/ir.tree/src/org/jetbrains/kotlin/ir/util/DumpIrTree.kt:192-193 | An empty role leaves the rendered text unchanged. Otherwise the result is the role, then `: `, then the text, and its length is the sum of those lengths. |
| DumpIrTree.Dump | compiler/ir/ir.tree/src/org/jetbrains/kotlin/ir/util/DumpIrTree.kt:174-184 | A node's dump starts with its labelled rendering at the current depth. Every later line is strictly deeper. |
| DumpIrTree.Rows | compiler/ir/ir.tree/src/org/jetbrains/kotlin/ir/util/DumpIrTree.kt:186-190 | Everything printed inside `indented` sits at the inner depth or deeper. |
| DumpIrTree.Outline | compiler/ir/ir.tree/src/org/jetbrains/kotlin/ir/util/DumpIrTree.kt:56-172 | The per-kind table of what a node prints below its own line, in printing order: plain lines (the file-annotation header, annotations, type arguments) and labelled child slots. What it promises is stated by `OutlineCoversChildren` and the per-kind layout lemmas. |
| DumpIrTree.OutlineCoversChildren | compiler/ir/ir.tree/src/org/jetbrains/kotlin/ir/util/DumpIrTree.kt:179-184 | For every kind of node, the children placed in the dump are exactly the node's children, in order. Each specialised visit therefore prints what `acceptChildren` would visit, with roles added. |
| DumpIrTree.ElementLayout | compiler/ir/ir.tree/src/org/jetbrains/kotlin/ir/util/DumpIrTree.kt:179-184 | A node of no special kind prints its line, then each child unlabelled, one level deeper. |
| DumpIrTree.FileLayout | compiler/ir/ir.tree/src/org/jetbrains/kotlin/ir/util/DumpIrTree.kt:56-68 | A file prints its line. If it has annotations, it then prints the `fileAnnotations:` header one level deeper and each annotation one level deeper still. Then it prints its declarations unlabelled. |
| DumpIrTree.FunctionLayout | compiler/ir/ir.tree/src/org/jetbrains/kotlin/ir/util/DumpIrTree.kt:85-92 | A function or constructor prints its line. It then prints each present default value, labelled with its parameter's name, and then its body, if present, unlabelled. |
| DumpIrTree.ErrorCallLayout | compiler/ir/ir.tree/src/org/jetbrains/kotlin/ir/util/DumpIrTree.kt:78-83 | An error call prints its line. It then prints its explicit receiver labelled `receiver`, if present, and then its arguments unlabelled. |
| DumpIrTree.EnumEntryLayout | compiler/ir/ir.tree/src/org/jetbrains/kotlin/ir/util/DumpIrTree.kt:94-99 | An enum entry prints its line, then its initializer labelled `init`, then its class body labelled `class` when it has one. |
| DumpIrTree.MemberAccessLayout | compiler/ir/ir.tree/src/org/jetbrains/kotlin/ir/util/DumpIrTree.kt:101-120 | A member access prints its line. Then come one line per type parameter that has a type argument, then the dispatch receiver as `$this`, then the extension receiver as `$receiver`, then each bound value argument labelled with its parameter's name. |
| DumpIrTree.UnboundArgumentPrintsNothing | compiler/ir/ir.tree/src/org/jetbrains/kotlin/ir/util/DumpIrTree.kt:107-109 | For any parameter list and any position, a value parameter with no argument bound to it adds nothing to the printed arguments. |
| DumpIrTree.BoundArgumentPrintsDump | compiler/ir/ir.tree/src/org/jetbrains/kotlin/ir/util/DumpIrTree.kt:107-109 | For any parameter list and any position, a value parameter with a bound argument adds that argument's dump, labelled with the parameter's name. |
| DumpIrTree.UnboundArgumentSkipped | compiler/ir/ir.tree/src/org/jetbrains/kotlin/ir/util/DumpIrTree.kt:107-109 | A worked case: with `x` bound and `y` unbound, the arguments print exactly the dump of `x`'s argument, labelled `x`. |
| DumpIrTree.GetFieldLayout | compiler/ir/ir.tree/src/org/jetbrains/kotlin/ir/util/DumpIrTree.kt:122-126 | A field read prints its line, then its receiver labelled `receiver`. |
| DumpIrTree.SetFieldLayout | compiler/ir/ir.tree/src/org/jetbrains/kotlin/ir/util/DumpIrTree.kt:128-133 | A field write prints its line, then its receiver labelled `receiver`, then the stored value labelled `value`. |
| DumpIrTree.WhenLayout | compiler/ir/ir.tree/src/org/jetbrains/kotlin/ir/util/DumpIrTree.kt:135-141 | A `when` prints its line, then its branches unlabelled. |
| DumpIrTree.BranchLayout | compiler/ir/ir.tree/src/org/jetbrains/kotlin/ir/util/DumpIrTree.kt:143-148 | A branch prints its line, then its condition labelled `if`, then its result labelled `then`. |
| DumpIrTree.WhileLoopLayout | compiler/ir/ir.tree/src/org/jetbrains/kotlin/ir/util/DumpIrTree.kt:150-155 | A `while` loop prints the condition labelled `condition` before the body labelled `body`. |
| DumpIrTree.DoWhileLoopLayout | compiler/ir/ir.tree/src/org/jetbrains/kotlin/ir/util/DumpIrTree.kt:157-162 | A `do-while` loop prints the body labelled `body` before the condition labelled `condition`. |
| DumpIrTree.TryLayout | compiler/ir/ir.tree/src/org/jetbrains/kotlin/ir/util/DumpIrTree.kt:164-172 | A `try` prints its line, then its result labelled `try`, then its catches unlabelled, then its finally block labelled `finally` if present. |
| DumpIrTree.IndentString | compiler/ir/ir.tree/src/org/jetbrains/kotlin/ir/util/DumpIrTree.kt:42-42 | The indent at depth k is k copies of the two-space unit: 2k characters, all spaces. |
| DumpIrTree.Text | compiler/ir/ir.tree/src/org/jetbrains/kotlin/ir/util/DumpIrTree.kt:29-33 | The text the printer leaves in the string builder. It is at least one character per line, and empty exactly when no line was printed. |
| DumpIrTree.TextEndsWithSeparator | compiler/ir/ir.tree/src/org/jetbrains/kotlin/ir/util/DumpIrTree.kt:29-33 | The text of one or more lines ends with the line separator: every printed line is terminated. |
| DumpIrTree.TextAppend | compiler/ir/ir.tree/src/org/jetbrains/kotlin/ir/util/DumpIrTree.kt:29-33 | Printing two batches of lines one after the other appends their texts. |
| DumpIrTreeVisitors.Printer.Println | compiler/ir/ir.tree/src/org/jetbrains/kotlin/ir/util/DumpIrTree.kt:175-175 | Appends one line at the current indent and leaves the indent unchanged. |
| DumpIrTreeVisitors.Printer.PushIndent | compiler/ir/ir.tree/src/org/jetbrains/kotlin/ir/util/DumpIrTree.kt:187-187 | Increases the indent by one and prints nothing. |
| DumpIrTreeVisitors.Printer.PopIndent | compiler/ir/ir.tree/src/org/jetbrains/kotlin/ir/util/DumpIrTree.kt:189-189 | Decreases a positive indent by one and prints nothing. |
| DumpIrTreeVisitors.DumpIrTreeVisitor.constructor | compiler/ir/ir.tree/src/org/jetbrains/kotlin/ir/util/DumpIrTree.kt:41-43 | A new visitor has a fresh, empty printer at indent zero and the given renderers. |
| DumpIrTreeVisitors.DumpIrTreeVisitor.Accept | compiler/ir/ir.tree/src/org/jetbrains/kotlin/ir/util/DumpIrTree.kt:52-54 | Dispatching a node on its kind appends exactly its `Dump` at the current indent and restores the indent. |
| DumpIrTreeVisitors.DumpIrTreeVisitor.AcceptOptional | compiler/ir/ir.tree/src/org/jetbrains/kotlin/ir/util/DumpIrTree.kt:97-98 | `o?.accept` appends the optional child's dump, or nothing when the child is absent. |
| DumpIrTreeVisitors.DumpIrTreeVisitor.AcceptEach | compiler/ir/ir.tree/src/org/jetbrains/kotlin/ir/util/DumpIrTree.kt:66-66 | `forEach { accept(this, "") }` appends each element's unlabelled dump in order. |
| DumpIrTreeVisitors.DumpIrTreeVisitor.AcceptDefaults | compiler/ir/ir.tree/src/org/jetbrains/kotlin/ir/util/DumpIrTree.kt:87-89 | The loop over the value parameters appends each present default value labelled with its parameter's name. |
| DumpIrTreeVisitors.DumpIrTreeVisitor.AcceptArguments | compiler/ir/ir.tree/src/org/jetbrains/kotlin/ir/util/DumpIrTree.kt:107-110 | The loop over the formal parameters appends each bound argument labelled with its parameter's name, and skips the unbound ones. |
| DumpIrTreeVisitors.DumpIrTreeVisitor.PrintAnnotations | compiler/ir/ir.tree/src/org/jetbrains/kotlin/ir/util/DumpIrTree.kt:61-63 | The loop appends one rendered line per annotation, in order. |
| DumpIrTreeVisitors.DumpIrTreeVisitor.PrintFileAnnotations | compiler/ir/ir.tree/src/org/jetbrains/kotlin/ir/util/DumpIrTree.kt:58-65 | Appends the header and the deeper annotation lines, or nothing for a file without annotations. |
| DumpIrTreeVisitors.DumpIrTreeVisitor.DumpTypeArguments | compiler/ir/ir.tree/src/org/jetbrains/kotlin/ir/util/DumpIrTree.kt:113-120 | Appends `<name>: <type>` for each type parameter with a bound argument, and skips the others. |
| DumpIrTreeVisitors.DumpIrTreeVisitor.VisitElement | compiler/ir/ir.tree/src/org/jetbrains/kotlin/ir/util/DumpIrTree.kt:52-54 | Appends the node's `Dump` and restores the indent. |
| DumpIrTreeVisitors.DumpIrTreeVisitor.VisitFile | compiler/ir/ir.tree/src/org/jetbrains/kotlin/ir/util/DumpIrTree.kt:56-68 | Appends the file's `Dump`, which `FileLayout` spells out, and restores the indent. |
| DumpIrTreeVisitors.DumpIrTreeVisitor.FileChildren | compiler/ir/ir.tree/src/org/jetbrains/kotlin/ir/util/DumpIrTree.kt:58-66 | The indented block of a file appends the annotation block and then the declarations. |
| DumpIrTreeVisitors.DumpIrTreeVisitor.VisitFunction | compiler/ir/ir.tree/src/org/jetbrains/kotlin/ir/util/DumpIrTree.kt:70-72 | A function is dumped through `visitFunctionWithParameters`: it appends its `Dump`. |
| DumpIrTreeVisitors.DumpIrTreeVisitor.VisitConstructor | compiler/ir/ir.tree/src/org/jetbrains/kotlin/ir/util/DumpIrTree.kt:74-76 | A constructor is dumped through `visitFunctionWithParameters`: it appends its `Dump`. |
| DumpIrTreeVisitors.DumpIrTreeVisitor.VisitFunctionWithParameters | compiler/ir/ir.tree/src/org/jetbrains/kotlin/ir/util/DumpIrTree.kt:85-92 | Appends the function's `Dump` and restores the indent. |
| DumpIrTreeVisitors.DumpIrTreeVisitor.FunctionChildren | compiler/ir/ir.tree/src/org/jetbrains/kotlin/ir/util/DumpIrTree.kt:87-90 | The indented block appends the default values and then the unlabelled body. |
| DumpIrTreeVisitors.DumpIrTreeVisitor.VisitErrorCallExpression | compiler/ir/ir.tree/src/org/jetbrains/kotlin/ir/util/DumpIrTree.kt:78-83 | Appends the error call's `Dump` and restores the indent. |
| DumpIrTreeVisitors.DumpIrTreeVisitor.ErrorCallChildren | compiler/ir/ir.tree/src/org/jetbrains/kotlin/ir/util/DumpIrTree.kt:80-81 | The indented block appends the receiver and then the arguments. |
| DumpIrTreeVisitors.DumpIrTreeVisitor.VisitEnumEntry | compiler/ir/ir.tree/src/org/jetbrains/kotlin/ir/util/DumpIrTree.kt:94-99 | Appends the enum entry's `Dump` and restores the indent. |
| DumpIrTreeVisitors.DumpIrTreeVisitor.EnumEntryChildren | compiler/ir/ir.tree/src/org/jetbrains/kotlin/ir/util/DumpIrTree.kt:96-97 | The indented block appends `init` and then `class`. |
| DumpIrTreeVisitors.DumpIrTreeVisitor.VisitMemberAccess | compiler/ir/ir.tree/src/org/jetbrains/kotlin/ir/util/DumpIrTree.kt:101-111 | Appends the member access's `Dump` and restores the indent. |
| DumpIrTreeVisitors.DumpIrTreeVisitor.MemberAccessChildren | compiler/ir/ir.tree/src/org/jetbrains/kotlin/ir/util/DumpIrTree.kt:103-110 | The indented block appends the type arguments, then `$this` and `$receiver`, then the value arguments. |
| DumpIrTreeVisitors.DumpIrTreeVisitor.VisitGetField | compiler/ir/ir.tree/src/org/jetbrains/kotlin/ir/util/DumpIrTree.kt:122-126 | Appends the field read's `Dump` and restores the indent. |
| DumpIrTreeVisitors.DumpIrTreeVisitor.VisitSetField | compiler/ir/ir.tree/src/org/jetbrains/kotlin/ir/util/DumpIrTree.kt:128-133 | Appends the field write's `Dump` and restores the indent. |
| DumpIrTreeVisitors.DumpIrTreeVisitor.SetFieldChildren | compiler/ir/ir.tree/src/org/jetbrains/kotlin/ir/util/DumpIrTree.kt:130-131 | The indented block appends `receiver` and then `value`. |
| DumpIrTreeVisitors.DumpIrTreeVisitor.VisitWhen | compiler/ir/ir.tree/src/org/jetbrains/kotlin/ir/util/DumpIrTree.kt:135-141 | Appends the `when`'s `Dump` and restores the indent. |
| DumpIrTreeVisitors.DumpIrTreeVisitor.VisitBranch | compiler/ir/ir.tree/src/org/jetbrains/kotlin/ir/util/DumpIrTree.kt:143-148 | Appends the branch's `Dump` and restores the indent. |
| DumpIrTreeVisitors.DumpIrTreeVisitor.BranchChildren | compiler/ir/ir.tree/src/org/jetbrains/kotlin/ir/util/DumpIrTree.kt:145-146 | The indented block appends `if` and then `then`. |
| DumpIrTreeVisitors.DumpIrTreeVisitor.VisitWhileLoop | compiler/ir/ir.tree/src/org/jetbrains/kotlin/ir/util/DumpIrTree.kt:150-155 | Appends the loop's `Dump` and restores the indent. |
| DumpIrTreeVisitors.DumpIrTreeVisitor.WhileLoopChildren | compiler/ir/ir.tree/src/org/jetbrains/kotlin/ir/util/DumpIrTree.kt:152-153 | The indented block appends `condition` and then `body`. |
| DumpIrTreeVisitors.DumpIrTreeVisitor.VisitDoWhileLoop | compiler/ir/ir.tree/src/org/jetbrains/kotlin/ir/util/DumpIrTree.kt:157-162 | Appends the loop's `Dump` and restores the indent. |
| DumpIrTreeVisitors.DumpIrTreeVisitor.DoWhileLoopChildren | compiler/ir/ir.tree/src/org/jetbrains/kotlin/ir/util/DumpIrTree.kt:159-160 | The indented block appends `body` and then `condition`. |
| DumpIrTreeVisitors.DumpIrTreeVisitor.VisitTry | compiler/ir/ir.tree/src/org/jetbrains/kotlin/ir/util/DumpIrTree.kt:164-172 | Appends the `try`'s `Dump` and restores the indent. |
| DumpIrTreeVisitors.DumpIrTreeVisitor.TryChildren | compiler/ir/ir.tree/src/org/jetbrains/kotlin/ir/util/DumpIrTree.kt:166-170 | The indented block appends `try`, then the catches, then `finally`. |
| DumpIrTreeVisitors.DumpElement | compiler/ir/ir.tree/src/org/jetbrains/kotlin/ir/util/DumpIrTree.kt:29-33 | `dump()` returns the text of the node's unlabelled dump from depth zero. |
| DumpIrTreeVisitors.DumpTreeFromSourceLineVisitor.constructor | compiler/ir/ir.tree/src/org/jetbrains/kotlin/ir/util/DumpIrTree.kt:196-201 | The selector keeps the file entry and the line, and its dumper has a fresh, empty printer. |
| DumpIrTreeVisitors.DumpTreeFromSourceLineVisitor.VisitElement | compiler/ir/ir.tree/src/org/jetbrains/kotlin/ir/util/DumpIrTree.kt:203-210 | Appends exactly `Select`: the node's dump when the node starts on the line, and otherwise its children's selections in order. It keeps the indent at zero. |
| DumpIrTreeVisitors.DumpTreesFromLineNumber | compiler/ir/ir.tree/src/org/jetbrains/kotlin/ir/util/DumpIrTree.kt:35-39 | Returns the text of `Select` on the file, with the file's own entry as the line-number table. |
| LineSelection.Select | compiler/ir/ir.tree/src/org/jetbrains/kotlin/ir/util/DumpIrTree.kt:203-210 | What the selector prints for a node. A node on the line starts its output with its own unlabelled line at depth zero; a leaf off the line prints nothing. |
| LineSelection.SelectByPaths | compiler/ir/ir.tree/src/org/jetbrains/kotlin/ir/util/DumpIrTree.kt:203-210 | The selector prints the dumps of the nodes at `MatchPaths`, one after the other. |
| LineSelection.MatchPathsOrdered | compiler/ir/ir.tree/src/org/jetbrains/kotlin/ir/util/DumpIrTree.kt:203-210 | The reported positions are listed in document order: at the first place two listed paths part, the earlier one goes down an earlier child. |
| LineSelection.SelectInDocumentOrder | compiler/ir/ir.tree/src/org/jetbrains/kotlin/ir/util/DumpIrTree.kt:203-210 | The output is the dumps of the reported nodes in document order, with no node dumped twice. |
| LineSelection.SelectChildrenByPaths | compiler/ir/ir.tree/src/org/jetbrains/kotlin/ir/util/DumpIrTree.kt:209-209 | Searching the first n children prints the dumps of the positions reported below them. |
| LineSelection.MatchPathsExactly | compiler/ir/ir.tree/src/org/jetbrains/kotlin/ir/util/DumpIrTree.kt:204-209 | A position is reported exactly when its node starts on the line and no node above it does. Both directions are proved. |
| LineSelection.ReportedThroughChild | compiler/ir/ir.tree/src/org/jetbrains/kotlin/ir/util/DumpIrTree.kt:209-209 | A position below child i is reported exactly when the parent does not start on the line and the rest of the path is reported from the child. |
| LineSelection.NoNestedReports | compiler/ir/ir.tree/src/org/jetbrains/kotlin/ir/util/DumpIrTree.kt:204-207 | No reported node lies inside another reported node's subtree. |
| LineSelection.NoMatchNoOutput | compiler/ir/ir.tree/src/org/jetbrains/kotlin/ir/util/DumpIrTree.kt:203-210 | When no node starts on the line, nothing is printed. |
| LineSelection.AtChild | compiler/ir/ir.tree/src/org/jetbrains/kotlin/ir/util/DumpIrTree.kt:209-209 | A path through child i leads where the rest of the path leads from that child. |
| SpecialDescriptors.EnumClassOf | compiler/ir/backend.jvm/src/org/jetbrains/kotlin/backend/jvm/descriptors/SpecialDescriptorsFactory.kt:56-59 | The result succeeds exactly when the key is an enum entry whose container is an enum class, and the value is that class. It fails with `NotEnumEntry` exactly when the key is not an enum entry, and with `ContainerNotClass` exactly when the container is not a class. |
| SpecialDescriptors.ObjectCheck | compiler/ir/backend.jvm/src/org/jetbrains/kotlin/backend/jvm/descriptors/SpecialDescriptorsFactory.kt:79-79 | The check succeeds exactly when the key is an object, and then yields that object; otherwise it fails with `NotObject`. |
| SpecialDescriptors.KtFileOf | compiler/ir/backend.jvm/src/org/jetbrains/kotlin/backend/jvm/descriptors/SpecialDescriptorsFactory.kt:43-44 | The result succeeds exactly for a PSI file entry that the source manager maps to a parsed file. It fails with `NotPsiFileEntry` exactly when the entry is not a PSI file entry. |
| SpecialDescriptors.GetOrPut | compiler/ir/backend.jvm/src/org/jetbrains/kotlin/backend/jvm/descriptors/SpecialDescriptorsFactory.kt:38-38 | Kotlin's `getOrPut` on the map, given the outcome of making a value: a present key yields its value, an absent one stores a successful value. What it promises is stated by the four lemmas below. |
| SpecialDescriptors.GetOrPutOnlyAdds | compiler/ir/backend.jvm/src/org/jetbrains/kotlin/backend/jvm/descriptors/SpecialDescriptorsFactory.kt:38-38 | A lookup removes nothing and replaces nothing; it adds at most the looked-up key. |
| SpecialDescriptors.GetOrPutStores | compiler/ir/backend.jvm/src/org/jetbrains/kotlin/backend/jvm/descriptors/SpecialDescriptorsFactory.kt:38-38 | A successful lookup leaves the key mapped to the result. A failed one leaves the map unchanged and the key absent. |
| SpecialDescriptors.GetOrPutTwice | compiler/ir/backend.jvm/src/org/jetbrains/kotlin/backend/jvm/descriptors/SpecialDescriptorsFactory.kt:37-40 | A repeated lookup after a successful one changes nothing and returns the same descriptor. |
| SpecialDescriptors.GetOrPutKeeps | compiler/ir/backend.jvm/src/org/jetbrains/kotlin/backend/jvm/descriptors/SpecialDescriptorsFactory.kt:35-35 | A property of all cached values holds after a lookup that only stores values with that property. |
| SpecialDescriptors.SpecialDescriptorsFactory.constructor | compiler/ir/backend.jvm/src/org/jetbrains/kotlin/backend/jvm/descriptors/SpecialDescriptorsFactory.kt:31-35 | A new factory starts with an empty cache, which satisfies the invariant. |
| SpecialDescriptors.SpecialDescriptorsFactory.CreateEnumEntryFieldDescriptor | compiler/ir/backend.jvm/src/org/jetbrains/kotlin/backend/jvm/descriptors/SpecialDescriptorsFactory.kt:55-71 | Fails exactly as `EnumClassOf` fails. Otherwise it returns a fresh static val: the entry's name, annotations and source, owned by the enum class, of the enum class's type, final and public, and flagged `ACC_ENUM`. |
| SpecialDescriptors.SpecialDescriptorsFactory.CreateObjectInstanceFieldDescriptor | compiler/ir/backend.jvm/src/org/jetbrains/kotlin/backend/jvm/descriptors/SpecialDescriptorsFactory.kt:78-89 | Fails exactly when the key is not an object. Otherwise it returns a fresh `INSTANCE` property of the object's type, owned by the object, final and public, synthesized, not var, lateinit or const, with no annotations and no source. |
| SpecialDescriptors.SpecialDescriptorsFactory.GetFieldDescriptorForEnumEntry | compiler/ir/backend.jvm/src/org/jetbrains/kotlin/backend/jvm/descriptors/SpecialDescriptorsFactory.kt:37-40 | The new cache and the result are `GetOrPut` of the old cache. A hit returns the cached descriptor, and a miss is created as above. The invariant is kept. |
| SpecialDescriptors.SpecialDescriptorsFactory.GetFieldDescriptorForObjectInstance | compiler/ir/backend.jvm/src/org/jetbrains/kotlin/backend/jvm/descriptors/SpecialDescriptorsFactory.kt:73-76 | The same as above, through the same map, for object instance fields. |
| SpecialDescriptors.SpecialDescriptorsFactory.CreateFileClassDescriptor | compiler/ir/backend.jvm/src/org/jetbrains/kotlin/backend/jvm/descriptors/SpecialDescriptorsFactory.kt:42-53 | Fails exactly when `KtFileOf` fails. Otherwise it returns a fresh descriptor named by the file's facade class, in the given package fragment, with supertypes `[Any]`, the file as its source and no annotations. |

## Left out

- The renderers are parameters: `RenderIrElementVisitor`, `ANNOTATIONS_RENDERER` and `ONLY_NAMES_WITH_SHORT_TYPES` are fields of `Renderer`, taken as total functions. Their output format is not part of this model.
- `org.jetbrains.kotlin.utils.Printer` is not part of this model. The `Printer` class keeps the printed lines and the indent, and `Text` gives the printed characters. The line separator is taken to be `"\n"`; the real printer uses the platform's separator.
- The IR element classes and their `acceptChildren` are not part of this model. `IrTree.Children` takes the children in the order the dumper prints them: for `do-while` that is the body, then the condition.
- The line-number table of a file entry (`getLineNumber`) is a function parameter. The `IrFile` supplies its own file entry.
- Visitor dispatch (`accept` and `IrElementVisitor`) is modelled as one `Accept` method that matches on the node's kind.
- EnumClassOf, ObjectCheck: Kotlin's `assert` only fails when JVM assertions are enabled. The model treats the assertions as always enabled and returns a `FactoryError`; with assertions off, the source would go on to build a field for an unsuitable key.
- Failed casts (`as ClassDescriptor`, `as PsiFileEntry`) and the thrown `AssertionError` are modelled as `FactoryError` results, not as exceptions.
- `JvmFileClassUtil.getFileClassInfoNoResolve` is not part of this model. It is the total function `fileClassShortName`, because the code does not check its result for null.
- The internals of `JvmPropertyDescriptorImpl.createStaticVal`, `PropertyDescriptorImpl.create` and `FileClassDescriptorImpl` are not part of this model. Each is a constructor that stores the attributes the factory passes.
- `HashMap` keys are compared by descriptor identity. The hashing and the equality of the real descriptor classes are not part of this model.
- SpecialDescriptorsFactory.GetFieldDescriptorForEnumEntry: a cache hit returns whatever field is cached, without checking it, as the source does. The contract therefore promises an enum-entry field only for enum-entry keys. The map is shared with object fields, and its safety rests on the two kinds being disjoint, which `Valid` records.
- Concurrency: the factory's map is not synchronised in the source and is modelled single-threaded.
- `plugins/android-extensions/android-extensions-synthetic-runtime/build.gradle.kts` is a build script and is not modelled.
