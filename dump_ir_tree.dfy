/** What the IR tree dumper prints, as functions. `Outline` is the per-kind
    table of what is printed below a node (plain lines and labelled child
    slots, in order); `Dump` prints a node's own labelled line and then its
    outline one level deeper. The visitor classes that print step by step are
    proved against `Dump`. The printed text is a list of lines, each at an
    indent depth; `Text` lays such a list out as the printer does. */
module DumpIrTree {
  import opened Wrappers
  import opened Descriptors
  import opened IrTree

  /** One printed line: its indent depth and its text. */
  datatype Line = Line(indent: nat, text: string)

  /** The renderers the dumper delegates to: one line describing a node, an
      annotation, a type parameter and a type. Their output is not modelled. */
  datatype Renderer = Renderer(
    element: Element -> string,
    annotation: Annotation -> string,
    typeParameter: TypeParameter -> string,
    kotlinType: KotlinType -> string)

  /** The indent unit the dumper's printer is created with. */
  const INDENT_UNIT: string := "  "

  /** The header printed before a file's annotations. */
  const FILE_ANNOTATIONS_HEADER: string := "fileAnnotations:"

  /** A node's rendering prefixed by its role label; an empty label adds nothing. */
  function WithLabel(text: string, role: string): (r: string)
    ensures role == [] ==> r == text
    ensures role != [] ==> |r| == |role| + 2 + |text|
    ensures role != [] ==> r[..|role|] == role && r[|role|..|role| + 2] == ": "
    ensures r[|r| - |text|..] == text
  {
    if role == [] then text else role + ": " + text
  }

  /** Every line is at depth `d` or deeper. */
  predicate AllAtLeast(lines: seq<Line>, d: nat)
  {
    forall i :: 0 <= i < |lines| ==> lines[i].indent >= d
  }

  /** The line of a bound type argument: the parameter, a colon, the type. */
  function TypeArgumentText(r: Renderer, ta: TypeArgument): Option<string>
  {
    match ta.argument
    case None => None
    case Some(t) => Some(r.typeParameter(ta.parameter) + ": " + r.kotlinType(t))
  }

  // ---------------------------------------------------------------------
  // The per-kind child order.

  /** One row of a node's outline: a plain line `depth` levels below the
      children's depth, or a child in a labelled slot. An absent line or an
      empty slot prints nothing. */
  datatype Entry =
    | Plain(depth: nat, text: Option<string>)
    | Slot(role: string, child: Option<Element>)

  /** Every slot of `rows` holds a proper part of `e`. */
  ghost predicate Below(e: Element, rows: seq<Entry>)
  {
    forall i :: 0 <= i < |rows| && rows[i].Slot? && rows[i].child.Some? ==> (e decreases to rows[i].child.value)
  }

  /** Every node of a list in an unlabelled slot. */
  function Unlabelled(es: seq<Element>): seq<Entry>
  {
    seq(|es|, i requires 0 <= i < |es| => Slot("", Some(es[i])))
  }

  /** A slot per value parameter, labelled with its name, holding its default value if it has one. */
  function DefaultEntries(ps: seq<ValueParameter>): seq<Entry>
  {
    seq(|ps|, i requires 0 <= i < |ps| => Slot(ps[i].name, ps[i].defaultValue))
  }

  /** A slot per formal value parameter, labelled with its name, holding the argument bound to it if any. */
  function ArgumentEntries(vs: seq<ValueArgument>): seq<Entry>
  {
    seq(|vs|, i requires 0 <= i < |vs| => Slot(vs[i].parameterName, vs[i].argument))
  }

  /** A plain line per type parameter, present when a type argument is bound to it. */
  function TypeArgumentEntries(r: Renderer, tas: seq<TypeArgument>): seq<Entry>
  {
    seq(|tas|, i requires 0 <= i < |tas| => Plain(0, TypeArgumentText(r, tas[i])))
  }

  /** The header of a file's annotations and, one level below it, a line per annotation. */
  function AnnotationEntries(r: Renderer, anns: seq<Annotation>): seq<Entry>
  {
    if anns == [] then []
    else [Plain(0, Some(FILE_ANNOTATIONS_HEADER))]
         + seq(|anns|, i requires 0 <= i < |anns| => Plain(1, Some(r.annotation(anns[i]))))
  }

  /** What is printed below a node, row by row, in printing order. */
  function Outline(r: Renderer, e: Element): seq<Entry>
  {
    match e.kind
    case File(_, anns, ds) => AnnotationEntries(r, anns) + Unlabelled(ds)
    case Function(_, ps, body) => DefaultEntries(ps) + [Slot("", body)]
    case EnumEntry(init, cls) => [Slot("init", Some(init)), Slot("class", cls)]
    case MemberAccess(tas, t, x, vs) =>
      TypeArgumentEntries(r, tas) + [Slot("$this", t), Slot("$receiver", x)] + ArgumentEntries(vs)
    case GetField(rc) => [Slot("receiver", rc)]
    case SetField(rc, v) => [Slot("receiver", rc), Slot("value", Some(v))]
    case When(bs) => Unlabelled(bs)
    case Branch(c, res) => [Slot("if", Some(c)), Slot("then", Some(res))]
    case WhileLoop(c, body) => [Slot("condition", Some(c)), Slot("body", body)]
    case DoWhileLoop(body, c) => [Slot("body", body), Slot("condition", Some(c))]
    case Try(t, cs, f) => [Slot("try", Some(t))] + Unlabelled(cs) + [Slot("finally", f)]
    case ErrorCall(rc, args) => [Slot("receiver", rc)] + Unlabelled(args)
    case Other(cs) => Unlabelled(cs)
  }

  /** Every slot of a node's outline holds a proper part of the node. */
  lemma OutlineBelow(r: Renderer, e: Element)
    ensures Below(e, Outline(r, e))
  {
    var rows := Outline(r, e);
    OutlineCoversChildren(r, e);
    forall i | 0 <= i < |rows| && rows[i].Slot? && rows[i].child.Some?
      ensures e decreases to rows[i].child.value
    {
      SlotInSlotChildren(rows, i);
    }
  }

  // ---------------------------------------------------------------------
  // The dump.

  /** The dump of node `e` printed with role `role` at depth `d`: its own
      labelled line at depth `d`, then its outline, and everything below it
      strictly deeper. */
  function Dump(r: Renderer, e: Element, role: string, d: nat): (lines: seq<Line>)
    ensures |lines| >= 1 && lines[0] == Line(d, WithLabel(r.element(e), role))
    ensures forall i :: 1 <= i < |lines| ==> lines[i].indent > d
    decreases e, 1
  {
    OutlineBelow(r, e);
    var below := Rows(r, e, Outline(r, e), d + 1);
    var lines := [Line(d, WithLabel(r.element(e), role))] + below;
    assert forall i :: 1 <= i < |lines| ==> lines[i] == below[i - 1];
    lines
  }

  /** What the rows of (part of) `e`'s outline print when the children are at depth `d`. */
  function Rows(r: Renderer, e: Element, rows: seq<Entry>, d: nat): (lines: seq<Line>)
    requires Below(e, rows)
    ensures AllAtLeast(lines, d)
    decreases e, 0, |rows|
  {
    if rows == [] then []
    else
      var a, b := Rows(r, e, rows[..|rows| - 1], d), Row(r, e, rows[|rows| - 1], d);
      assert forall i :: |a| <= i < |a + b| ==> (a + b)[i] == b[i - |a|];
      a + b
  }

  /** What one row prints when the children are at depth `d`. */
  function Row(r: Renderer, e: Element, x: Entry, d: nat): (lines: seq<Line>)
    requires Below(e, [x])
    ensures AllAtLeast(lines, d)
    decreases e, 0, 0
  {
    match x
    case Plain(_, None) => []
    case Plain(k, Some(t)) => [Line(d + k, t)]
    case Slot(_, None) => []
    case Slot(role, Some(c)) =>
      assert [x][0] == x;
      Dump(r, c, role, d)
  }

  // ---------------------------------------------------------------------
  // Properties of the table and of the dump.

  /** Printing the rows of two parts of an outline one after the other. */
  lemma {:induction false} RowsAppend(r: Renderer, e: Element, a: seq<Entry>, b: seq<Entry>, d: nat)
    requires Below(e, a + b)
    ensures Below(e, a) && Below(e, b)
    ensures Rows(r, e, a + b, d) == Rows(r, e, a, d) + Rows(r, e, b, d)
    decreases |b|
  {
    assert forall i :: 0 <= i < |a| ==> a[i] == (a + b)[i];
    assert forall i :: 0 <= i < |b| ==> b[i] == (a + b)[|a| + i];
    if b == [] {
      assert a + b == a;
    } else {
      var b' := b[..|b| - 1];
      assert (a + b)[..|a + b| - 1] == a + b';
      assert (a + b)[|a + b| - 1] == b[|b| - 1];
      RowsAppend(r, e, a, b', d);
      AppendAssoc(Rows(r, e, a, d), Rows(r, e, b', d), Row(r, e, b[|b| - 1], d));
    }
  }

  lemma AppendAssoc<T>(a: seq<T>, b: seq<T>, c: seq<T>)
    ensures a + b + c == a + (b + c)
  {
  }

  // ---------------------------------------------------------------------
  // The dump of each kind, in the order its visit method prints it.

  /** What an optional child prints with role `role` at depth `d`; nothing when it is absent. */
  function DumpOptional(r: Renderer, o: Option<Element>, role: string, d: nat): seq<Line>
  {
    match o
    case None => []
    case Some(c) => Dump(r, c, role, d)
  }

  /** The dumps of the nodes of a list, unlabelled, one after the other. */
  function DumpEach(r: Renderer, es: seq<Element>, d: nat): seq<Line>
  {
    if es == [] then [] else DumpEach(r, es[..|es| - 1], d) + Dump(r, es[|es| - 1], "", d)
  }

  /** The dump of each parameter's default value, labelled with the parameter's name. */
  function DumpDefaults(r: Renderer, ps: seq<ValueParameter>, d: nat): seq<Line>
  {
    if ps == [] then []
    else
      var p := ps[|ps| - 1];
      DumpDefaults(r, ps[..|ps| - 1], d) + DumpOptional(r, p.defaultValue, p.name, d)
  }

  /** The dump of each bound value argument, labelled with its parameter's name. */
  function DumpArguments(r: Renderer, vs: seq<ValueArgument>, d: nat): seq<Line>
  {
    if vs == [] then []
    else
      var v := vs[|vs| - 1];
      DumpArguments(r, vs[..|vs| - 1], d) + DumpOptional(r, v.argument, v.parameterName, d)
  }

  /** A line at depth `d` per bound type argument. */
  function TypeArgumentLines(r: Renderer, tas: seq<TypeArgument>, d: nat): seq<Line>
  {
    if tas == [] then []
    else
      TypeArgumentLines(r, tas[..|tas| - 1], d)
      + match TypeArgumentText(r, tas[|tas| - 1])
        case None => []
        case Some(t) => [Line(d, t)]
  }

  /** A line at depth `d` per annotation. */
  function AnnotationLines(r: Renderer, anns: seq<Annotation>, d: nat): seq<Line>
  {
    if anns == [] then [] else AnnotationLines(r, anns[..|anns| - 1], d) + [Line(d, r.annotation(anns[|anns| - 1]))]
  }

  /** Dumping one more node of a list appends that node's dump. */
  lemma DumpEachNext(r: Renderer, es: seq<Element>, i: nat, d: nat)
    requires i < |es|
    ensures DumpEach(r, es[..i + 1], d) == DumpEach(r, es[..i], d) + Dump(r, es[i], "", d)
  {
    assert es[..i + 1][..i] == es[..i];
  }

  lemma DumpDefaultsNext(r: Renderer, ps: seq<ValueParameter>, i: nat, d: nat)
    requires i < |ps|
    ensures DumpDefaults(r, ps[..i + 1], d) == DumpDefaults(r, ps[..i], d) + DumpOptional(r, ps[i].defaultValue, ps[i].name, d)
  {
    assert ps[..i + 1][..i] == ps[..i];
  }

  lemma DumpArgumentsNext(r: Renderer, vs: seq<ValueArgument>, i: nat, d: nat)
    requires i < |vs|
    ensures DumpArguments(r, vs[..i + 1], d) == DumpArguments(r, vs[..i], d) + DumpOptional(r, vs[i].argument, vs[i].parameterName, d)
  {
    assert vs[..i + 1][..i] == vs[..i];
  }

  lemma TypeArgumentLinesNext(r: Renderer, tas: seq<TypeArgument>, i: nat, d: nat)
    requires i < |tas|
    ensures TypeArgumentLines(r, tas[..i + 1], d) == TypeArgumentLines(r, tas[..i], d)
      + match TypeArgumentText(r, tas[i]) case None => [] case Some(t) => [Line(d, t)]
  {
    assert tas[..i + 1][..i] == tas[..i];
  }

  lemma AnnotationLinesNext(r: Renderer, anns: seq<Annotation>, i: nat, d: nat)
    requires i < |anns|
    ensures AnnotationLines(r, anns[..i + 1], d) == AnnotationLines(r, anns[..i], d) + [Line(d, r.annotation(anns[i]))]
  {
    assert anns[..i + 1][..i] == anns[..i];
  }

  /** A value parameter with no argument bound to it prints nothing, wherever
      it stands in the parameter list. */
  lemma UnboundArgumentPrintsNothing(r: Renderer, vs: seq<ValueArgument>, i: nat, d: nat)
    requires i < |vs| && vs[i].argument.None?
    ensures DumpArguments(r, vs[..i + 1], d) == DumpArguments(r, vs[..i], d)
  {
    DumpArgumentsNext(r, vs, i, d);
  }

  /** A value parameter with an argument bound to it prints that argument's
      dump, labelled with the parameter's name. */
  lemma BoundArgumentPrintsDump(r: Renderer, vs: seq<ValueArgument>, i: nat, d: nat)
    requires i < |vs| && vs[i].argument.Some?
    ensures DumpArguments(r, vs[..i + 1], d) == DumpArguments(r, vs[..i], d) + Dump(r, vs[i].argument.value, vs[i].parameterName, d)
  {
    DumpArgumentsNext(r, vs, i, d);
  }

  /** A parameter left unbound prints nothing: with `x` bound to `a` and
      `y` unbound, the arguments print exactly `a`'s dump labelled `x`. */
  lemma UnboundArgumentSkipped(r: Renderer, a: Element, y: string, d: nat)
    ensures DumpArguments(r, [ValueArgument("x", Some(a)), ValueArgument(y, None)], d) == Dump(r, a, "x", d)
  {
    var vs := [ValueArgument("x", Some(a)), ValueArgument(y, None)];
    assert vs[..1] == [vs[0]] && vs[..1][..0] == [];
    assert DumpArguments(r, vs[..1], d) == DumpOptional(r, Some(a), "x", d);
    assert DumpArguments(r, vs, d) == DumpArguments(r, vs[..1], d) + DumpOptional(r, None, y, d);
  }

  /** The header of a file's annotations at depth `d` and a line per
      annotation one level below it; nothing when there are none. */
  function FileAnnotationLines(r: Renderer, anns: seq<Annotation>, d: nat): seq<Line>
  {
    if anns == [] then [] else [Line(d, FILE_ANNOTATIONS_HEADER)] + AnnotationLines(r, anns, d + 1)
  }

  /** The labelled line a node's dump starts with. */
  function Head(r: Renderer, e: Element, role: string, d: nat): Line
  {
    Line(d, WithLabel(r.element(e), role))
  }

  lemma RowsOne(r: Renderer, e: Element, x: Entry, d: nat)
    requires Below(e, [x])
    ensures Rows(r, e, [x], d) == Row(r, e, x, d)
  {
    assert [x][..0] == [];
  }

  lemma RowsTwo(r: Renderer, e: Element, x: Entry, y: Entry, d: nat)
    requires Below(e, [x, y])
    ensures Below(e, [x]) && Below(e, [y])
    ensures Rows(r, e, [x, y], d) == Row(r, e, x, d) + Row(r, e, y, d)
  {
    assert [x, y][0] == x && [x, y][1] == y;
    assert [x, y][..1] == [x];
    RowsOne(r, e, x, d);
  }

  lemma {:induction false} RowsUnlabelled(r: Renderer, e: Element, es: seq<Element>, d: nat)
    requires Below(e, Unlabelled(es))
    ensures Rows(r, e, Unlabelled(es), d) == DumpEach(r, es, d)
    decreases |es|
  {
    if es != [] {
      var rows, es' := Unlabelled(es), es[..|es| - 1];
      assert rows[..|rows| - 1] == Unlabelled(es');
      RowsUnlabelled(r, e, es', d);
    }
  }

  lemma {:induction false} RowsDefaults(r: Renderer, e: Element, ps: seq<ValueParameter>, d: nat)
    requires Below(e, DefaultEntries(ps))
    ensures Rows(r, e, DefaultEntries(ps), d) == DumpDefaults(r, ps, d)
    decreases |ps|
  {
    if ps != [] {
      var rows, ps' := DefaultEntries(ps), ps[..|ps| - 1];
      assert rows[..|rows| - 1] == DefaultEntries(ps');
      RowsDefaults(r, e, ps', d);
    }
  }

  lemma {:induction false} RowsArguments(r: Renderer, e: Element, vs: seq<ValueArgument>, d: nat)
    requires Below(e, ArgumentEntries(vs))
    ensures Rows(r, e, ArgumentEntries(vs), d) == DumpArguments(r, vs, d)
    decreases |vs|
  {
    if vs != [] {
      var rows, vs' := ArgumentEntries(vs), vs[..|vs| - 1];
      assert rows[..|rows| - 1] == ArgumentEntries(vs');
      RowsArguments(r, e, vs', d);
    }
  }

  lemma {:induction false} RowsTypeArguments(r: Renderer, e: Element, tas: seq<TypeArgument>, d: nat)
    ensures Below(e, TypeArgumentEntries(r, tas))
    ensures Rows(r, e, TypeArgumentEntries(r, tas), d) == TypeArgumentLines(r, tas, d)
    decreases |tas|
  {
    if tas != [] {
      var rows, tas' := TypeArgumentEntries(r, tas), tas[..|tas| - 1];
      assert rows[..|rows| - 1] == TypeArgumentEntries(r, tas');
      RowsTypeArguments(r, e, tas', d);
    }
  }

  lemma {:induction false} RowsAnnotationLines(r: Renderer, e: Element, anns: seq<Annotation>, d: nat)
    ensures Below(e, seq(|anns|, i requires 0 <= i < |anns| => Plain(1, Some(r.annotation(anns[i])))))
    ensures Rows(r, e, seq(|anns|, i requires 0 <= i < |anns| => Plain(1, Some(r.annotation(anns[i])))), d)
         == AnnotationLines(r, anns, d + 1)
    decreases |anns|
  {
    if anns != [] {
      var rows, anns' := seq(|anns|, i requires 0 <= i < |anns| => Plain(1, Some(r.annotation(anns[i])))), anns[..|anns| - 1];
      assert rows[..|rows| - 1] == seq(|anns'|, i requires 0 <= i < |anns'| => Plain(1, Some(r.annotation(anns'[i]))));
      RowsAnnotationLines(r, e, anns', d);
    }
  }

  /** A node's dump is its labelled line followed by what its outline prints one level deeper. */
  lemma DumpByOutline(r: Renderer, e: Element, role: string, d: nat)
    ensures Below(e, Outline(r, e))
    ensures Dump(r, e, role, d) == [Head(r, e, role, d)] + Rows(r, e, Outline(r, e), d + 1)
  {
    OutlineBelow(r, e);
  }

  /** A slot prints its child's dump, labelled with the slot's role. */
  lemma RowSlot(r: Renderer, e: Element, role: string, o: Option<Element>, d: nat)
    requires Below(e, [Slot(role, o)])
    ensures Row(r, e, Slot(role, o), d) == DumpOptional(r, o, role, d)
  {
    assert [Slot(role, o)][0] == Slot(role, o);
  }

  /** Two slots print their children's dumps one after the other. */
  lemma RowsTwoSlots(r: Renderer, e: Element, role1: string, o1: Option<Element>, role2: string, o2: Option<Element>, d: nat)
    requires Below(e, [Slot(role1, o1), Slot(role2, o2)])
    ensures Rows(r, e, [Slot(role1, o1), Slot(role2, o2)], d) == DumpOptional(r, o1, role1, d) + DumpOptional(r, o2, role2, d)
  {
    var x, y := Slot(role1, o1), Slot(role2, o2);
    RowsTwo(r, e, x, y, d);
    RowSlot(r, e, role1, o1, d);
    RowSlot(r, e, role2, o2, d);
  }

  /** A file prints its line, then its annotations one level deeper still
      under a header when it has any, then its declarations unlabelled. */
  lemma FileLayout(r: Renderer, e: Element, role: string, d: nat)
    requires e.kind.File?
    ensures Dump(r, e, role, d) == [Head(r, e, role, d)]
      + FileAnnotationLines(r, e.kind.fileAnnotations, d + 1) + DumpEach(r, e.kind.declarations, d + 1)
  {
    var anns, ds := e.kind.fileAnnotations, e.kind.declarations;
    assert Outline(r, e) == AnnotationEntries(r, anns) + Unlabelled(ds);
    DumpByOutline(r, e, role, d);
    RowsAppend(r, e, AnnotationEntries(r, anns), Unlabelled(ds), d + 1);
    RowsUnlabelled(r, e, ds, d + 1);
    var annotationLines := FileAnnotationLines(r, anns, d + 1);
    if anns != [] {
      var header := [Plain(0, Some(FILE_ANNOTATIONS_HEADER))];
      var lines := seq(|anns|, i requires 0 <= i < |anns| => Plain(1, Some(r.annotation(anns[i]))));
      RowsAppend(r, e, header, lines, d + 1);
      RowsOne(r, e, header[0], d + 1);
      RowsAnnotationLines(r, e, anns, d + 1);
    }
    assert Rows(r, e, AnnotationEntries(r, anns), d + 1) == annotationLines;
    AppendAssoc([Head(r, e, role, d)], annotationLines, DumpEach(r, ds, d + 1));
  }

  /** A function or constructor prints its line, each parameter's default
      value labelled with the parameter's name, then its body. */
  lemma FunctionLayout(r: Renderer, e: Element, role: string, d: nat)
    requires e.kind.Function?
    ensures Dump(r, e, role, d) == [Head(r, e, role, d)]
      + DumpDefaults(r, e.kind.valueParameters, d + 1) + DumpOptional(r, e.kind.body, "", d + 1)
  {
    var ps, body := e.kind.valueParameters, e.kind.body;
    assert Outline(r, e) == DefaultEntries(ps) + [Slot("", body)];
    DumpByOutline(r, e, role, d);
    RowsAppend(r, e, DefaultEntries(ps), [Slot("", body)], d + 1);
    RowsDefaults(r, e, ps, d + 1);
    RowsOne(r, e, Slot("", body), d + 1);
    RowSlot(r, e, "", body, d + 1);
    AppendAssoc([Head(r, e, role, d)], DumpDefaults(r, ps, d + 1), DumpOptional(r, body, "", d + 1));
  }

  /** An enum entry prints its line, its initializer labelled `init`, then
      its class body labelled `class`. */
  lemma EnumEntryLayout(r: Renderer, e: Element, role: string, d: nat)
    requires e.kind.EnumEntry?
    ensures Dump(r, e, role, d) == [Head(r, e, role, d)]
      + Dump(r, e.kind.initializerExpression, "init", d + 1) + DumpOptional(r, e.kind.correspondingClass, "class", d + 1)
  {
    var init, cls := e.kind.initializerExpression, e.kind.correspondingClass;
    assert Outline(r, e) == [Slot("init", Some(init)), Slot("class", cls)];
    DumpByOutline(r, e, role, d);
    RowsTwoSlots(r, e, "init", Some(init), "class", cls, d + 1);
    AppendAssoc([Head(r, e, role, d)], Dump(r, init, "init", d + 1), DumpOptional(r, cls, "class", d + 1));
  }

  /** A member access prints its line, a line per bound type argument, its
      dispatch receiver labelled `$this`, its extension receiver labelled
      `$receiver`, then each bound value argument labelled with its
      parameter's name. */
  lemma MemberAccessLayout(r: Renderer, e: Element, role: string, d: nat)
    requires e.kind.MemberAccess?
    ensures Dump(r, e, role, d) == [Head(r, e, role, d)]
      + TypeArgumentLines(r, e.kind.typeArguments, d + 1)
      + DumpOptional(r, e.kind.dispatchReceiver, "$this", d + 1)
      + DumpOptional(r, e.kind.extensionReceiver, "$receiver", d + 1)
      + DumpArguments(r, e.kind.valueArguments, d + 1)
  {
    var tas, t, x, vs := e.kind.typeArguments, e.kind.dispatchReceiver, e.kind.extensionReceiver, e.kind.valueArguments;
    var typeRows, receivers := TypeArgumentEntries(r, tas), [Slot("$this", t), Slot("$receiver", x)];
    assert Outline(r, e) == typeRows + receivers + ArgumentEntries(vs);
    DumpByOutline(r, e, role, d);
    RowsAppend(r, e, typeRows + receivers, ArgumentEntries(vs), d + 1);
    RowsAppend(r, e, typeRows, receivers, d + 1);
    RowsTypeArguments(r, e, tas, d + 1);
    RowsTwoSlots(r, e, "$this", t, "$receiver", x, d + 1);
    RowsArguments(r, e, vs, d + 1);
    var h, ls, lt, lx, lv := [Head(r, e, role, d)], TypeArgumentLines(r, tas, d + 1),
      DumpOptional(r, t, "$this", d + 1), DumpOptional(r, x, "$receiver", d + 1), DumpArguments(r, vs, d + 1);
    assert Dump(r, e, role, d) == h + (ls + (lt + lx) + lv);
    AppendAssoc(ls, lt + lx, lv);
    AppendAssoc(ls, lt, lx);
    AppendAssoc(h, ls + lt + lx, lv);
    AppendAssoc(h, ls + lt, lx);
    AppendAssoc(h, ls, lt);
  }

  /** A field read prints its line, then its receiver labelled `receiver`. */
  lemma GetFieldLayout(r: Renderer, e: Element, role: string, d: nat)
    requires e.kind.GetField?
    ensures Dump(r, e, role, d) == [Head(r, e, role, d)] + DumpOptional(r, e.kind.receiver, "receiver", d + 1)
  {
    var rc := e.kind.receiver;
    assert Outline(r, e) == [Slot("receiver", rc)];
    DumpByOutline(r, e, role, d);
    RowsOne(r, e, Slot("receiver", rc), d + 1);
    RowSlot(r, e, "receiver", rc, d + 1);
  }

  /** A field write prints its line, its receiver labelled `receiver`, then
      the value labelled `value`. */
  lemma SetFieldLayout(r: Renderer, e: Element, role: string, d: nat)
    requires e.kind.SetField?
    ensures Dump(r, e, role, d) == [Head(r, e, role, d)]
      + DumpOptional(r, e.kind.receiver, "receiver", d + 1) + Dump(r, e.kind.value, "value", d + 1)
  {
    var rc, v := e.kind.receiver, e.kind.value;
    assert Outline(r, e) == [Slot("receiver", rc), Slot("value", Some(v))];
    DumpByOutline(r, e, role, d);
    RowsTwoSlots(r, e, "receiver", rc, "value", Some(v), d + 1);
    AppendAssoc([Head(r, e, role, d)], DumpOptional(r, rc, "receiver", d + 1), Dump(r, v, "value", d + 1));
  }

  /** A `when` prints its line, then its branches unlabelled. */
  lemma WhenLayout(r: Renderer, e: Element, role: string, d: nat)
    requires e.kind.When?
    ensures Dump(r, e, role, d) == [Head(r, e, role, d)] + DumpEach(r, e.kind.branches, d + 1)
  {
    assert Outline(r, e) == Unlabelled(e.kind.branches);
    DumpByOutline(r, e, role, d);
    RowsUnlabelled(r, e, e.kind.branches, d + 1);
  }

  /** A branch prints its line, its condition labelled `if`, then its result labelled `then`. */
  lemma BranchLayout(r: Renderer, e: Element, role: string, d: nat)
    requires e.kind.Branch?
    ensures Dump(r, e, role, d) == [Head(r, e, role, d)]
      + Dump(r, e.kind.condition, "if", d + 1) + Dump(r, e.kind.result, "then", d + 1)
  {
    var c, res := e.kind.condition, e.kind.result;
    assert Outline(r, e) == [Slot("if", Some(c)), Slot("then", Some(res))];
    DumpByOutline(r, e, role, d);
    RowsTwoSlots(r, e, "if", Some(c), "then", Some(res), d + 1);
    AppendAssoc([Head(r, e, role, d)], Dump(r, c, "if", d + 1), Dump(r, res, "then", d + 1));
  }

  /** A while loop prints its line, its condition labelled `condition`, then its body labelled `body`. */
  lemma WhileLoopLayout(r: Renderer, e: Element, role: string, d: nat)
    requires e.kind.WhileLoop?
    ensures Dump(r, e, role, d) == [Head(r, e, role, d)]
      + Dump(r, e.kind.condition, "condition", d + 1) + DumpOptional(r, e.kind.body, "body", d + 1)
  {
    var c, body := e.kind.condition, e.kind.body;
    assert Outline(r, e) == [Slot("condition", Some(c)), Slot("body", body)];
    DumpByOutline(r, e, role, d);
    RowsTwoSlots(r, e, "condition", Some(c), "body", body, d + 1);
    AppendAssoc([Head(r, e, role, d)], Dump(r, c, "condition", d + 1), DumpOptional(r, body, "body", d + 1));
  }

  /** A do-while loop prints its line, its body labelled `body`, then its
      condition labelled `condition`: the reverse of a while loop. */
  lemma DoWhileLoopLayout(r: Renderer, e: Element, role: string, d: nat)
    requires e.kind.DoWhileLoop?
    ensures Dump(r, e, role, d) == [Head(r, e, role, d)]
      + DumpOptional(r, e.kind.body, "body", d + 1) + Dump(r, e.kind.condition, "condition", d + 1)
  {
    var body, c := e.kind.body, e.kind.condition;
    assert Outline(r, e) == [Slot("body", body), Slot("condition", Some(c))];
    DumpByOutline(r, e, role, d);
    RowsTwoSlots(r, e, "body", body, "condition", Some(c), d + 1);
    AppendAssoc([Head(r, e, role, d)], DumpOptional(r, body, "body", d + 1), Dump(r, c, "condition", d + 1));
  }

  /** A try prints its line, its result labelled `try`, its catches
      unlabelled, then its finally expression labelled `finally`. */
  lemma TryLayout(r: Renderer, e: Element, role: string, d: nat)
    requires e.kind.Try?
    ensures Dump(r, e, role, d) == [Head(r, e, role, d)]
      + Dump(r, e.kind.tryResult, "try", d + 1) + DumpEach(r, e.kind.catches, d + 1)
      + DumpOptional(r, e.kind.finallyExpression, "finally", d + 1)
  {
    var t, cs, f := e.kind.tryResult, e.kind.catches, e.kind.finallyExpression;
    var first, last := [Slot("try", Some(t))], [Slot("finally", f)];
    assert Outline(r, e) == first + Unlabelled(cs) + last;
    DumpByOutline(r, e, role, d);
    RowsAppend(r, e, first + Unlabelled(cs), last, d + 1);
    RowsAppend(r, e, first, Unlabelled(cs), d + 1);
    RowsOne(r, e, first[0], d + 1);
    RowSlot(r, e, "try", Some(t), d + 1);
    RowsOne(r, e, last[0], d + 1);
    RowSlot(r, e, "finally", f, d + 1);
    RowsUnlabelled(r, e, cs, d + 1);
    var h, lt, lc, lf := [Head(r, e, role, d)], Dump(r, t, "try", d + 1), DumpEach(r, cs, d + 1), DumpOptional(r, f, "finally", d + 1);
    assert Dump(r, e, role, d) == h + (lt + lc + lf);
    AppendAssoc(h, lt + lc, lf);
    AppendAssoc(h, lt, lc);
  }

  /** An error call prints its line, its explicit receiver labelled
      `receiver`, then its arguments unlabelled. */
  lemma ErrorCallLayout(r: Renderer, e: Element, role: string, d: nat)
    requires e.kind.ErrorCall?
    ensures Dump(r, e, role, d) == [Head(r, e, role, d)]
      + DumpOptional(r, e.kind.explicitReceiver, "receiver", d + 1) + DumpEach(r, e.kind.arguments, d + 1)
  {
    var rc, args := e.kind.explicitReceiver, e.kind.arguments;
    var first := [Slot("receiver", rc)];
    assert Outline(r, e) == first + Unlabelled(args);
    DumpByOutline(r, e, role, d);
    RowsAppend(r, e, first, Unlabelled(args), d + 1);
    RowsOne(r, e, first[0], d + 1);
    RowSlot(r, e, "receiver", rc, d + 1);
    RowsUnlabelled(r, e, args, d + 1);
    AppendAssoc([Head(r, e, role, d)], DumpOptional(r, rc, "receiver", d + 1), DumpEach(r, args, d + 1));
  }

  /** Any other node prints its line, then its children unlabelled. */
  lemma ElementLayout(r: Renderer, e: Element, role: string, d: nat)
    requires e.kind.Other?
    ensures Dump(r, e, role, d) == [Head(r, e, role, d)] + DumpEach(r, e.kind.children, d + 1)
  {
    assert Outline(r, e) == Unlabelled(e.kind.children);
    DumpByOutline(r, e, role, d);
    RowsUnlabelled(r, e, e.kind.children, d + 1);
  }

  /** The children in the filled slots, in row order. */
  function SlotChildren(xs: seq<Entry>): seq<Element>
  {
    if xs == [] then []
    else
      SlotChildren(xs[..|xs| - 1])
      + match xs[|xs| - 1]
        case Slot(_, Some(c)) => [c]
        case _ => []
  }

  /** The child in a filled slot is among the slot children. */
  lemma {:induction false} SlotInSlotChildren(xs: seq<Entry>, i: nat)
    requires i < |xs| && xs[i].Slot? && xs[i].child.Some?
    ensures xs[i].child.value in SlotChildren(xs)
    decreases |xs|
  {
    if i < |xs| - 1 {
      SlotInSlotChildren(xs[..|xs| - 1], i);
    }
  }

  lemma {:induction false} SlotChildrenAppend(a: seq<Entry>, b: seq<Entry>)
    ensures SlotChildren(a + b) == SlotChildren(a) + SlotChildren(b)
    decreases |b|
  {
    if b == [] {
      assert a + b == a;
    } else {
      var b' := b[..|b| - 1];
      assert (a + b)[..|a + b| - 1] == a + b';
      assert (a + b)[|a + b| - 1] == b[|b| - 1];
      SlotChildrenAppend(a, b');
    }
  }

  lemma SlotChildrenTwo(x: Entry, y: Entry)
    ensures SlotChildren([x, y]) == SlotChildren([x]) + SlotChildren([y])
  {
    assert [x, y][..1] == [x];
    assert [x][..0] == [y][..0] == [];
  }

  lemma {:induction false} UnlabelledChildren(es: seq<Element>)
    ensures SlotChildren(Unlabelled(es)) == es
    decreases |es|
  {
    if es != [] {
      var es', rows := es[..|es| - 1], Unlabelled(es);
      assert rows[..|rows| - 1] == Unlabelled(es');
      UnlabelledChildren(es');
    }
  }

  lemma {:induction false} DefaultEntriesChildren(ps: seq<ValueParameter>)
    ensures SlotChildren(DefaultEntries(ps)) == DefaultValues(ps)
    decreases |ps|
  {
    if ps != [] {
      var ps', rows := ps[..|ps| - 1], DefaultEntries(ps);
      assert rows[..|rows| - 1] == DefaultEntries(ps');
      DefaultEntriesChildren(ps');
    }
  }

  lemma {:induction false} ArgumentEntriesChildren(vs: seq<ValueArgument>)
    ensures SlotChildren(ArgumentEntries(vs)) == BoundArguments(vs)
    decreases |vs|
  {
    if vs != [] {
      var vs', rows := vs[..|vs| - 1], ArgumentEntries(vs);
      assert rows[..|rows| - 1] == ArgumentEntries(vs');
      ArgumentEntriesChildren(vs');
    }
  }

  lemma {:induction false} PlainEntriesChildren(xs: seq<Entry>)
    requires forall i :: 0 <= i < |xs| ==> xs[i].Plain?
    ensures SlotChildren(xs) == []
    decreases |xs|
  {
    if xs != [] {
      PlainEntriesChildren(xs[..|xs| - 1]);
    }
  }

  /** The filled slots of a node's outline are exactly its structural
      children, in document order: the dumper prints every child's subtree
      once, and nothing else as a subtree. */
  lemma OutlineCoversChildren(r: Renderer, e: Element)
    ensures SlotChildren(Outline(r, e)) == Children(e)
  {
    if e.kind.File? || e.kind.Function? || e.kind.MemberAccess? {
      ListOutlineCoversChildren(r, e);
    } else if e.kind.Try? || e.kind.ErrorCall? || e.kind.When? || e.kind.Other? {
      MixedOutlineCoversChildren(r, e);
    } else {
      FixedOutlineCoversChildren(r, e);
    }
  }

  lemma ListOutlineCoversChildren(r: Renderer, e: Element)
    requires e.kind.File? || e.kind.Function? || e.kind.MemberAccess?
    ensures SlotChildren(Outline(r, e)) == Children(e)
  {
    match e.kind
    case File(_, anns, ds) =>
      PlainEntriesChildren(AnnotationEntries(r, anns));
      UnlabelledChildren(ds);
      SlotChildrenAppend(AnnotationEntries(r, anns), Unlabelled(ds));
    case Function(_, ps, body) =>
      DefaultEntriesChildren(ps);
      SlotChildrenAppend(DefaultEntries(ps), [Slot("", body)]);
    case MemberAccess(tas, t, x, vs) =>
      MemberAccessSlotChildren(r, tas, t, x, vs);
  }

  lemma MemberAccessSlotChildren(r: Renderer, tas: seq<TypeArgument>, t: Option<Element>,
                                 x: Option<Element>, vs: seq<ValueArgument>)
    ensures SlotChildren(TypeArgumentEntries(r, tas) + [Slot("$this", t), Slot("$receiver", x)] + ArgumentEntries(vs))
         == OptionalChild(t) + OptionalChild(x) + BoundArguments(vs)
  {
    var typeRows, receivers := TypeArgumentEntries(r, tas), [Slot("$this", t), Slot("$receiver", x)];
    PlainEntriesChildren(typeRows);
    ArgumentEntriesChildren(vs);
    SlotChildrenTwo(Slot("$this", t), Slot("$receiver", x));
    SlotChildrenAppend(typeRows, receivers);
    SlotChildrenAppend(typeRows + receivers, ArgumentEntries(vs));
  }

  lemma MixedOutlineCoversChildren(r: Renderer, e: Element)
    requires e.kind.Try? || e.kind.ErrorCall? || e.kind.When? || e.kind.Other?
    ensures SlotChildren(Outline(r, e)) == Children(e)
  {
    match e.kind
    case Try(t, cs, f) =>
      assert Outline(r, e) == [Slot("try", Some(t))] + Unlabelled(cs) + [Slot("finally", f)];
      TrySlotChildren(t, cs, f);
    case ErrorCall(rc, args) =>
      assert Outline(r, e) == [Slot("receiver", rc)] + Unlabelled(args);
      ErrorCallSlotChildren(rc, args);
    case When(bs) =>
      assert Outline(r, e) == Unlabelled(bs);
      UnlabelledChildren(bs);
    case Other(cs) =>
      assert Outline(r, e) == Unlabelled(cs);
      UnlabelledChildren(cs);
  }

  lemma ErrorCallSlotChildren(rc: Option<Element>, args: seq<Element>)
    ensures SlotChildren([Slot("receiver", rc)] + Unlabelled(args)) == OptionalChild(rc) + args
  {
    UnlabelledChildren(args);
    SlotChildrenAppend([Slot("receiver", rc)], Unlabelled(args));
  }

  lemma TrySlotChildren(t: Element, cs: seq<Element>, f: Option<Element>)
    ensures SlotChildren([Slot("try", Some(t))] + Unlabelled(cs) + [Slot("finally", f)])
         == [t] + cs + OptionalChild(f)
  {
    UnlabelledChildren(cs);
    SlotChildrenAppend([Slot("try", Some(t))], Unlabelled(cs));
    SlotChildrenAppend([Slot("try", Some(t))] + Unlabelled(cs), [Slot("finally", f)]);
  }

  lemma FixedOutlineCoversChildren(r: Renderer, e: Element)
    requires !(e.kind.File? || e.kind.Function? || e.kind.MemberAccess?)
    requires !(e.kind.Try? || e.kind.ErrorCall? || e.kind.When? || e.kind.Other?)
    ensures SlotChildren(Outline(r, e)) == Children(e)
  {
    match e.kind
    case EnumEntry(init, cls) =>
      SlotChildrenTwo(Slot("init", Some(init)), Slot("class", cls));
    case GetField(rc) =>
    case SetField(rc, v) =>
      SlotChildrenTwo(Slot("receiver", rc), Slot("value", Some(v)));
    case Branch(c, res) =>
      SlotChildrenTwo(Slot("if", Some(c)), Slot("then", Some(res)));
    case WhileLoop(c, body) =>
      SlotChildrenTwo(Slot("condition", Some(c)), Slot("body", body));
    case DoWhileLoop(body, c) =>
      SlotChildrenTwo(Slot("body", body), Slot("condition", Some(c)));
  }

  // ---------------------------------------------------------------------
  // Laying the lines out as text.

  /** The line separator the printer ends every line with. */
  const LINE_SEPARATOR: string := "\n"

  /** The indent of depth `k`: the indent unit `k` times, all spaces. */
  function IndentString(k: nat): (s: string)
    ensures |s| == |INDENT_UNIT| * k
    ensures forall i :: 0 <= i < |s| ==> s[i] == ' '
  {
    if k == 0 then "" else IndentString(k - 1) + INDENT_UNIT
  }

  /** The text the printer appends for the lines, in order: each line's
      indent, its text and a line separator. */
  function Text(lines: seq<Line>): (s: string)
    ensures |s| >= |lines|
    ensures lines == [] <==> s == ""
  {
    if lines == [] then ""
    else
      var last := lines[|lines| - 1];
      Text(lines[..|lines| - 1]) + IndentString(last.indent) + last.text + LINE_SEPARATOR
  }

  /** Every printed line is terminated: a text with lines ends with the line separator. */
  lemma TextEndsWithSeparator(lines: seq<Line>)
    requires lines != []
    ensures Text(lines)[|Text(lines)| - 1] == LINE_SEPARATOR[0]
  {
    var last := lines[|lines| - 1];
    assert Text(lines) == Text(lines[..|lines| - 1]) + (IndentString(last.indent) + last.text + LINE_SEPARATOR);
  }

  /** Printing two batches of lines one after the other appends their texts. */
  lemma {:induction false} TextAppend(a: seq<Line>, b: seq<Line>)
    ensures Text(a + b) == Text(a) + Text(b)
    decreases |b|
  {
    if b == [] {
      assert a + b == a;
    } else {
      var b', last := b[..|b| - 1], b[|b| - 1];
      var tail := IndentString(last.indent) + last.text + LINE_SEPARATOR;
      assert (a + b)[..|a + b| - 1] == a + b';
      assert (a + b)[|a + b| - 1] == last;
      assert Text(a + b) == Text(a + b') + tail;
      assert Text(b) == Text(b') + tail;
      TextAppend(a, b');
      AppendAssoc(Text(a), Text(b'), tail);
    }
  }
}
