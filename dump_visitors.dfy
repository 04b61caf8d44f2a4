/** The dumper as the compiler writes it: a visitor that prints through an
    indenting printer, one line per node. Each visit method is proved to
    append exactly the lines `DumpIrTree.Dump` describes and to leave the
    indent as it found it. */
module DumpIrTreeVisitors {
  import opened Wrappers
  import opened Descriptors
  import opened IrTree
  import opened DumpIrTree
  import opened LineSelection

  /** The indenting printer the dumper writes through: the lines appended to
      its output so far and the current indent depth. */
  class Printer {
    var lines: seq<Line>
    var indent: nat

    constructor ()
      ensures lines == [] && indent == 0
    {
      lines := [];
      indent := 0;
    }

    /** The text appended to the output so far. */
    function Output(): string
      reads this
    {
      Text(lines)
    }

    method Println(text: string)
      modifies this
      ensures lines == old(lines) + [Line(indent, text)]
      ensures indent == old(indent)
    {
      lines := lines + [Line(indent, text)];
    }

    method PushIndent()
      modifies this
      ensures lines == old(lines) && indent == old(indent) + 1
    {
      indent := indent + 1;
    }

    /** Popping with no indent left is an error of the printer. */
    method PopIndent()
      requires indent > 0
      modifies this
      ensures lines == old(lines) && indent == old(indent) - 1
    {
      indent := indent - 1;
    }
  }

  /** What a visit method printed, piece by piece, is the whole dump of the node. */
  lemma Printed1<T>(start: seq<T>, h: seq<T>, a: seq<T>, whole: seq<T>)
    requires whole == h + a
    ensures start + h + a == start + whole
  {
  }

  lemma Printed2<T>(start: seq<T>, h: seq<T>, a: seq<T>, b: seq<T>, whole: seq<T>)
    requires whole == h + a + b
    ensures start + h + a + b == start + whole
  {
  }

  lemma Printed3<T>(start: seq<T>, h: seq<T>, a: seq<T>, b: seq<T>, c: seq<T>, whole: seq<T>)
    requires whole == h + a + b + c
    ensures start + h + a + b + c == start + whole
  {
  }

  // A visit method prints the node's line, pushes the indent, prints the
  // children's lines and pops the indent; each lemma below shows that what
  // it printed, piece by piece, is the node's dump.

  lemma ElementPrinted(r: Renderer, e: Element, role: string, d: nat, start: seq<Line>, l0: seq<Line>, l1: seq<Line>)
    requires e.kind.Other?
    requires l0 == start + [Line(d, WithLabel(r.element(e), role))]
    requires l1 == l0 + DumpEach(r, e.kind.children, d + 1)
    ensures l1 == start + Dump(r, e, role, d)
  {
    var h := [Head(r, e, role, d)];
    var a := DumpEach(r, e.kind.children, d + 1);
    ElementLayout(r, e, role, d);
    Printed1(start, h, a, Dump(r, e, role, d));
  }

  lemma FilePrinted(r: Renderer, e: Element, role: string, d: nat, start: seq<Line>, l0: seq<Line>, l1: seq<Line>)
    requires e.kind.File?
    requires l0 == start + [Line(d, WithLabel(r.element(e), role))]
    requires l1 == l0 + (FileAnnotationLines(r, e.kind.fileAnnotations, d + 1) +
                         DumpEach(r, e.kind.declarations, d + 1))
    ensures l1 == start + Dump(r, e, role, d)
  {
    var h := [Head(r, e, role, d)];
    var a := FileAnnotationLines(r, e.kind.fileAnnotations, d + 1);
    var b := DumpEach(r, e.kind.declarations, d + 1);
    FileLayout(r, e, role, d);
    AppendAssoc(h, a, b);
    AppendAssoc(start, h, a + b);
  }

  lemma FunctionPrinted(r: Renderer, e: Element, role: string, d: nat, start: seq<Line>, l0: seq<Line>, l1: seq<Line>)
    requires e.kind.Function?
    requires l0 == start + [Line(d, WithLabel(r.element(e), role))]
    requires l1 == l0 + (DumpDefaults(r, e.kind.valueParameters, d + 1) +
                         DumpOptional(r, e.kind.body, "", d + 1))
    ensures l1 == start + Dump(r, e, role, d)
  {
    var h := [Head(r, e, role, d)];
    var a := DumpDefaults(r, e.kind.valueParameters, d + 1);
    var b := DumpOptional(r, e.kind.body, "", d + 1);
    FunctionLayout(r, e, role, d);
    AppendAssoc(h, a, b);
    AppendAssoc(start, h, a + b);
  }

  lemma ErrorCallPrinted(r: Renderer, e: Element, role: string, d: nat, start: seq<Line>, l0: seq<Line>, l1: seq<Line>)
    requires e.kind.ErrorCall?
    requires l0 == start + [Line(d, WithLabel(r.element(e), role))]
    requires l1 == l0 + (DumpOptional(r, e.kind.explicitReceiver, "receiver", d + 1) +
                         DumpEach(r, e.kind.arguments, d + 1))
    ensures l1 == start + Dump(r, e, role, d)
  {
    var h := [Head(r, e, role, d)];
    var a := DumpOptional(r, e.kind.explicitReceiver, "receiver", d + 1);
    var b := DumpEach(r, e.kind.arguments, d + 1);
    ErrorCallLayout(r, e, role, d);
    AppendAssoc(h, a, b);
    AppendAssoc(start, h, a + b);
  }

  lemma EnumEntryPrinted(r: Renderer, e: Element, role: string, d: nat, start: seq<Line>, l0: seq<Line>, l1: seq<Line>)
    requires e.kind.EnumEntry?
    requires l0 == start + [Line(d, WithLabel(r.element(e), role))]
    requires l1 == l0 + (Dump(r, e.kind.initializerExpression, "init", d + 1) +
                         DumpOptional(r, e.kind.correspondingClass, "class", d + 1))
    ensures l1 == start + Dump(r, e, role, d)
  {
    var h := [Head(r, e, role, d)];
    var a := Dump(r, e.kind.initializerExpression, "init", d + 1);
    var b := DumpOptional(r, e.kind.correspondingClass, "class", d + 1);
    EnumEntryLayout(r, e, role, d);
    AppendAssoc(h, a, b);
    AppendAssoc(start, h, a + b);
  }

  lemma MemberAccessPrinted(r: Renderer, e: Element, role: string, d: nat, start: seq<Line>, l0: seq<Line>, l1: seq<Line>)
    requires e.kind.MemberAccess?
    requires l0 == start + [Line(d, WithLabel(r.element(e), role))]
    requires l1 == l0 + (TypeArgumentLines(r, e.kind.typeArguments, d + 1) +
                         DumpOptional(r, e.kind.dispatchReceiver, "$this", d + 1) +
                         DumpOptional(r, e.kind.extensionReceiver, "$receiver", d + 1) +
                         DumpArguments(r, e.kind.valueArguments, d + 1))
    ensures l1 == start + Dump(r, e, role, d)
  {
    var h := [Head(r, e, role, d)];
    var a := TypeArgumentLines(r, e.kind.typeArguments, d + 1);
    var b := DumpOptional(r, e.kind.dispatchReceiver, "$this", d + 1);
    var c := DumpOptional(r, e.kind.extensionReceiver, "$receiver", d + 1);
    var x := DumpArguments(r, e.kind.valueArguments, d + 1);
    MemberAccessLayout(r, e, role, d);
    AppendAssoc(h, a, b);
    AppendAssoc(h, a + b, c);
    AppendAssoc(h, a + b + c, x);
    AppendAssoc(start, h, a + b + c + x);
  }

  lemma GetFieldPrinted(r: Renderer, e: Element, role: string, d: nat, start: seq<Line>, l0: seq<Line>, l1: seq<Line>)
    requires e.kind.GetField?
    requires l0 == start + [Line(d, WithLabel(r.element(e), role))]
    requires l1 == l0 + DumpOptional(r, e.kind.receiver, "receiver", d + 1)
    ensures l1 == start + Dump(r, e, role, d)
  {
    var h := [Head(r, e, role, d)];
    var a := DumpOptional(r, e.kind.receiver, "receiver", d + 1);
    GetFieldLayout(r, e, role, d);
    Printed1(start, h, a, Dump(r, e, role, d));
  }

  lemma SetFieldPrinted(r: Renderer, e: Element, role: string, d: nat, start: seq<Line>, l0: seq<Line>, l1: seq<Line>)
    requires e.kind.SetField?
    requires l0 == start + [Line(d, WithLabel(r.element(e), role))]
    requires l1 == l0 + (DumpOptional(r, e.kind.receiver, "receiver", d + 1) +
                         Dump(r, e.kind.value, "value", d + 1))
    ensures l1 == start + Dump(r, e, role, d)
  {
    var h := [Head(r, e, role, d)];
    var a := DumpOptional(r, e.kind.receiver, "receiver", d + 1);
    var b := Dump(r, e.kind.value, "value", d + 1);
    SetFieldLayout(r, e, role, d);
    AppendAssoc(h, a, b);
    AppendAssoc(start, h, a + b);
  }

  lemma WhenPrinted(r: Renderer, e: Element, role: string, d: nat, start: seq<Line>, l0: seq<Line>, l1: seq<Line>)
    requires e.kind.When?
    requires l0 == start + [Line(d, WithLabel(r.element(e), role))]
    requires l1 == l0 + DumpEach(r, e.kind.branches, d + 1)
    ensures l1 == start + Dump(r, e, role, d)
  {
    var h := [Head(r, e, role, d)];
    var a := DumpEach(r, e.kind.branches, d + 1);
    WhenLayout(r, e, role, d);
    Printed1(start, h, a, Dump(r, e, role, d));
  }

  lemma BranchPrinted(r: Renderer, e: Element, role: string, d: nat, start: seq<Line>, l0: seq<Line>, l1: seq<Line>)
    requires e.kind.Branch?
    requires l0 == start + [Line(d, WithLabel(r.element(e), role))]
    requires l1 == l0 + (Dump(r, e.kind.condition, "if", d + 1) + Dump(r, e.kind.result, "then", d + 1))
    ensures l1 == start + Dump(r, e, role, d)
  {
    var h := [Head(r, e, role, d)];
    var a, b := Dump(r, e.kind.condition, "if", d + 1), Dump(r, e.kind.result, "then", d + 1);
    BranchLayout(r, e, role, d);
    AppendAssoc(h, a, b);
    AppendAssoc(start, h, a + b);
  }

  lemma WhileLoopPrinted(r: Renderer, e: Element, role: string, d: nat, start: seq<Line>, l0: seq<Line>, l1: seq<Line>)
    requires e.kind.WhileLoop?
    requires l0 == start + [Line(d, WithLabel(r.element(e), role))]
    requires l1 == l0 + (Dump(r, e.kind.condition, "condition", d + 1) +
                         DumpOptional(r, e.kind.body, "body", d + 1))
    ensures l1 == start + Dump(r, e, role, d)
  {
    var h := [Head(r, e, role, d)];
    var a := Dump(r, e.kind.condition, "condition", d + 1);
    var b := DumpOptional(r, e.kind.body, "body", d + 1);
    WhileLoopLayout(r, e, role, d);
    AppendAssoc(h, a, b);
    AppendAssoc(start, h, a + b);
  }

  lemma DoWhileLoopPrinted(r: Renderer, e: Element, role: string, d: nat, start: seq<Line>, l0: seq<Line>, l1: seq<Line>)
    requires e.kind.DoWhileLoop?
    requires l0 == start + [Line(d, WithLabel(r.element(e), role))]
    requires l1 == l0 + (DumpOptional(r, e.kind.body, "body", d + 1) +
                         Dump(r, e.kind.condition, "condition", d + 1))
    ensures l1 == start + Dump(r, e, role, d)
  {
    var h := [Head(r, e, role, d)];
    var a := DumpOptional(r, e.kind.body, "body", d + 1);
    var b := Dump(r, e.kind.condition, "condition", d + 1);
    DoWhileLoopLayout(r, e, role, d);
    AppendAssoc(h, a, b);
    AppendAssoc(start, h, a + b);
  }

  lemma TryPrinted(r: Renderer, e: Element, role: string, d: nat, start: seq<Line>, l0: seq<Line>, l1: seq<Line>)
    requires e.kind.Try?
    requires l0 == start + [Line(d, WithLabel(r.element(e), role))]
    requires l1 == l0 + (Dump(r, e.kind.tryResult, "try", d + 1) +
                         DumpEach(r, e.kind.catches, d + 1) +
                         DumpOptional(r, e.kind.finallyExpression, "finally", d + 1))
    ensures l1 == start + Dump(r, e, role, d)
  {
    var h := [Head(r, e, role, d)];
    var a := Dump(r, e.kind.tryResult, "try", d + 1);
    var b := DumpEach(r, e.kind.catches, d + 1);
    var c := DumpOptional(r, e.kind.finallyExpression, "finally", d + 1);
    TryLayout(r, e, role, d);
    AppendAssoc(h, a, b);
    AppendAssoc(h, a + b, c);
    AppendAssoc(start, h, a + b + c);
  }

  /** The tree dumper: every visit method appends the lines of the visited
      node's dump to the printer, starting at the printer's current indent,
      and leaves the indent as it found it. */
  class DumpIrTreeVisitor {
    const printer: Printer
    const renderer: Renderer

    constructor (renderer: Renderer)
      ensures fresh(printer) && printer.lines == [] && printer.indent == 0
      ensures this.renderer == renderer
    {
      printer := new Printer();
      this.renderer := renderer;
    }

    /** `e.accept(this, role)`: dispatches on the node's kind. */
    method Accept(e: Element, role: string)
      modifies printer
      ensures printer.lines == old(printer.lines) + Dump(renderer, e, role, old(printer.indent))
      ensures printer.indent == old(printer.indent)
      decreases e, 4
    {
      match e.kind
      case File(_, _, _) => VisitFile(e, role);
      case Function(isConstructor, _, _) =>
        if isConstructor {
          VisitConstructor(e, role);
        } else {
          VisitFunction(e, role);
        }
      case EnumEntry(_, _) => VisitEnumEntry(e, role);
      case MemberAccess(_, _, _, _) => VisitMemberAccess(e, role);
      case GetField(_) => VisitGetField(e, role);
      case SetField(_, _) => VisitSetField(e, role);
      case When(_) => VisitWhen(e, role);
      case Branch(_, _) => VisitBranch(e, role);
      case WhileLoop(_, _) => VisitWhileLoop(e, role);
      case DoWhileLoop(_, _) => VisitDoWhileLoop(e, role);
      case Try(_, _, _) => VisitTry(e, role);
      case ErrorCall(_, _) => VisitErrorCallExpression(e, role);
      case Other(_) => VisitElement(e, role);
    }

    /** `o?.accept(this, role)`: an absent child prints nothing. */
    method AcceptOptional(o: Option<Element>, role: string)
      modifies printer
      ensures printer.lines == old(printer.lines) + DumpOptional(renderer, o, role, old(printer.indent))
      ensures printer.indent == old(printer.indent)
      decreases o, 1
    {
      if o.Some? {
        Accept(o.value, role);
      }
    }

    /** `es.forEach { it.accept(this, "") }`. */
    method AcceptEach(es: seq<Element>)
      modifies printer
      ensures printer.lines == old(printer.lines) + DumpEach(renderer, es, old(printer.indent))
      ensures printer.indent == old(printer.indent)
      decreases es, 1
    {
      ghost var start, d := printer.lines, printer.indent;
      var i := 0;
      while i < |es|
        invariant 0 <= i <= |es|
        invariant printer.lines == start + DumpEach(renderer, es[..i], d)
        invariant printer.indent == d
      {
        DumpEachNext(renderer, es, i, d);
        Accept(es[i], "");
        AppendAssoc(start, DumpEach(renderer, es[..i], d), Dump(renderer, es[i], "", d));
        i := i + 1;
      }
      assert es[..i] == es;
    }

    /** The default value of each parameter, labelled with the parameter's name. */
    method AcceptDefaults(ps: seq<ValueParameter>)
      modifies printer
      ensures printer.lines == old(printer.lines) + DumpDefaults(renderer, ps, old(printer.indent))
      ensures printer.indent == old(printer.indent)
      decreases ps, 1
    {
      ghost var start, d := printer.lines, printer.indent;
      var i := 0;
      while i < |ps|
        invariant 0 <= i <= |ps|
        invariant printer.lines == start + DumpDefaults(renderer, ps[..i], d)
        invariant printer.indent == d
      {
        DumpDefaultsNext(renderer, ps, i, d);
        AcceptOptional(ps[i].defaultValue, ps[i].name);
        AppendAssoc(start, DumpDefaults(renderer, ps[..i], d), DumpOptional(renderer, ps[i].defaultValue, ps[i].name, d));
        i := i + 1;
      }
      assert ps[..i] == ps;
    }

    /** The argument bound to each formal value parameter, labelled with the parameter's name. */
    method AcceptArguments(vs: seq<ValueArgument>)
      modifies printer
      ensures printer.lines == old(printer.lines) + DumpArguments(renderer, vs, old(printer.indent))
      ensures printer.indent == old(printer.indent)
      decreases vs, 1
    {
      ghost var start, d := printer.lines, printer.indent;
      var i := 0;
      while i < |vs|
        invariant 0 <= i <= |vs|
        invariant printer.lines == start + DumpArguments(renderer, vs[..i], d)
        invariant printer.indent == d
      {
        DumpArgumentsNext(renderer, vs, i, d);
        AcceptOptional(vs[i].argument, vs[i].parameterName);
        AppendAssoc(start, DumpArguments(renderer, vs[..i], d), DumpOptional(renderer, vs[i].argument, vs[i].parameterName, d));
        i := i + 1;
      }
      assert vs[..i] == vs;
    }

    /** A line per annotation of a file. */
    method PrintAnnotations(anns: seq<Annotation>)
      modifies printer
      ensures printer.lines == old(printer.lines) + AnnotationLines(renderer, anns, old(printer.indent))
      ensures printer.indent == old(printer.indent)
    {
      ghost var start, d := printer.lines, printer.indent;
      var i := 0;
      while i < |anns|
        invariant 0 <= i <= |anns|
        invariant printer.lines == start + AnnotationLines(renderer, anns[..i], d)
        invariant printer.indent == d
      {
        AnnotationLinesNext(renderer, anns, i, d);
        printer.Println(renderer.annotation(anns[i]));
        AppendAssoc(start, AnnotationLines(renderer, anns[..i], d), [Line(d, renderer.annotation(anns[i]))]);
        i := i + 1;
      }
      assert anns[..i] == anns;
    }

    /** A file's annotations under their header, one level deeper; nothing when it has none. */
    method PrintFileAnnotations(anns: seq<Annotation>)
      modifies printer
      ensures printer.lines == old(printer.lines) + FileAnnotationLines(renderer, anns, old(printer.indent))
      ensures printer.indent == old(printer.indent)
    {
      ghost var start, d := printer.lines, printer.indent;
      if anns != [] {
        printer.Println(FILE_ANNOTATIONS_HEADER);
        printer.PushIndent();
        PrintAnnotations(anns);
        printer.PopIndent();
        AppendAssoc(start, [Line(d, FILE_ANNOTATIONS_HEADER)], AnnotationLines(renderer, anns, d + 1));
      }
    }

    /** A line per type parameter that has a type argument bound to it; the others are skipped. */
    method DumpTypeArguments(tas: seq<TypeArgument>)
      modifies printer
      ensures printer.lines == old(printer.lines) + TypeArgumentLines(renderer, tas, old(printer.indent))
      ensures printer.indent == old(printer.indent)
    {
      ghost var start, d := printer.lines, printer.indent;
      var i := 0;
      while i < |tas|
        invariant 0 <= i <= |tas|
        invariant printer.lines == start + TypeArgumentLines(renderer, tas[..i], d)
        invariant printer.indent == d
      {
        TypeArgumentLinesNext(renderer, tas, i, d);
        match tas[i].argument {
          case None =>
          case Some(t) =>
            var text := renderer.typeParameter(tas[i].parameter) + ": " + renderer.kotlinType(t);
            printer.Println(text);
            AppendAssoc(start, TypeArgumentLines(renderer, tas[..i], d), [Line(d, text)]);
        }
        i := i + 1;
      }
      assert tas[..i] == tas;
    }

    /** Any other node: its line, then all its children unlabelled. */
    method VisitElement(e: Element, role: string)
      requires e.kind.Other?
      modifies printer
      ensures printer.lines == old(printer.lines) + Dump(renderer, e, role, old(printer.indent))
      ensures printer.indent == old(printer.indent)
      decreases e, 2
    {
      ghost var start, d := printer.lines, printer.indent;
      printer.Println(WithLabel(renderer.element(e), role));
      printer.PushIndent();
      ghost var l0 := printer.lines;
      AcceptEach(e.kind.children);
      ghost var l1 := printer.lines;
      printer.PopIndent();
      ElementPrinted(renderer, e, role, d, start, l0, l1);
    }

    /** A file: its line, its annotations under a header when it has any, then its declarations. */
    method VisitFile(e: Element, role: string)
      requires e.kind.File?
      modifies printer
      ensures printer.lines == old(printer.lines) + Dump(renderer, e, role, old(printer.indent))
      ensures printer.indent == old(printer.indent)
      decreases e, 2
    {
      ghost var start, d := printer.lines, printer.indent;
      printer.Println(WithLabel(renderer.element(e), role));
      printer.PushIndent();
      ghost var l0 := printer.lines;
      FileChildren(e);
      ghost var l1 := printer.lines;
      printer.PopIndent();
      FilePrinted(renderer, e, role, d, start, l0, l1);
    }

    /** The block `dumpLabeledElementWith` runs one level deeper for a file. */
    method FileChildren(e: Element)
      requires e.kind.File?
      modifies printer
      ensures printer.lines == old(printer.lines) + (FileAnnotationLines(renderer, e.kind.fileAnnotations, old(printer.indent)) +
        DumpEach(renderer, e.kind.declarations, old(printer.indent)))
      ensures printer.indent == old(printer.indent)
      decreases e, 1
    {
      ghost var start, d := printer.lines, printer.indent;
      ghost var a := FileAnnotationLines(renderer, e.kind.fileAnnotations, d);
      ghost var b := DumpEach(renderer, e.kind.declarations, d);
      PrintFileAnnotations(e.kind.fileAnnotations);
      AcceptEach(e.kind.declarations);
      Printed1(start, a, b, a + b);
    }

    method VisitFunction(e: Element, role: string)
      requires e.kind.Function?
      modifies printer
      ensures printer.lines == old(printer.lines) + Dump(renderer, e, role, old(printer.indent))
      ensures printer.indent == old(printer.indent)
      decreases e, 3
    {
      VisitFunctionWithParameters(e, role);
    }

    method VisitConstructor(e: Element, role: string)
      requires e.kind.Function?
      modifies printer
      ensures printer.lines == old(printer.lines) + Dump(renderer, e, role, old(printer.indent))
      ensures printer.indent == old(printer.indent)
      decreases e, 3
    {
      VisitFunctionWithParameters(e, role);
    }

    /** A function or constructor: its line, the parameters' default values, then its body. */
    method VisitFunctionWithParameters(e: Element, role: string)
      requires e.kind.Function?
      modifies printer
      ensures printer.lines == old(printer.lines) + Dump(renderer, e, role, old(printer.indent))
      ensures printer.indent == old(printer.indent)
      decreases e, 2
    {
      ghost var start, d := printer.lines, printer.indent;
      printer.Println(WithLabel(renderer.element(e), role));
      printer.PushIndent();
      ghost var l0 := printer.lines;
      FunctionChildren(e);
      ghost var l1 := printer.lines;
      printer.PopIndent();
      FunctionPrinted(renderer, e, role, d, start, l0, l1);
    }

    /** The block `dumpLabeledElementWith` runs one level deeper for a function or constructor. */
    method FunctionChildren(e: Element)
      requires e.kind.Function?
      modifies printer
      ensures printer.lines == old(printer.lines) + (DumpDefaults(renderer, e.kind.valueParameters, old(printer.indent)) +
        DumpOptional(renderer, e.kind.body, "", old(printer.indent)))
      ensures printer.indent == old(printer.indent)
      decreases e, 1
    {
      ghost var start, d := printer.lines, printer.indent;
      ghost var a := DumpDefaults(renderer, e.kind.valueParameters, d);
      ghost var b := DumpOptional(renderer, e.kind.body, "", d);
      AcceptDefaults(e.kind.valueParameters);
      AcceptOptional(e.kind.body, "");
      Printed1(start, a, b, a + b);
    }

    method VisitErrorCallExpression(e: Element, role: string)
      requires e.kind.ErrorCall?
      modifies printer
      ensures printer.lines == old(printer.lines) + Dump(renderer, e, role, old(printer.indent))
      ensures printer.indent == old(printer.indent)
      decreases e, 2
    {
      ghost var start, d := printer.lines, printer.indent;
      printer.Println(WithLabel(renderer.element(e), role));
      printer.PushIndent();
      ghost var l0 := printer.lines;
      ErrorCallChildren(e);
      ghost var l1 := printer.lines;
      printer.PopIndent();
      ErrorCallPrinted(renderer, e, role, d, start, l0, l1);
    }

    /** The block `dumpLabeledElementWith` runs one level deeper for an error call. */
    method ErrorCallChildren(e: Element)
      requires e.kind.ErrorCall?
      modifies printer
      ensures printer.lines == old(printer.lines) + (DumpOptional(renderer, e.kind.explicitReceiver, "receiver", old(printer.indent)) +
        DumpEach(renderer, e.kind.arguments, old(printer.indent)))
      ensures printer.indent == old(printer.indent)
      decreases e, 1
    {
      ghost var start, d := printer.lines, printer.indent;
      ghost var a := DumpOptional(renderer, e.kind.explicitReceiver, "receiver", d);
      ghost var b := DumpEach(renderer, e.kind.arguments, d);
      AcceptOptional(e.kind.explicitReceiver, "receiver");
      AcceptEach(e.kind.arguments);
      Printed1(start, a, b, a + b);
    }

    method VisitEnumEntry(e: Element, role: string)
      requires e.kind.EnumEntry?
      modifies printer
      ensures printer.lines == old(printer.lines) + Dump(renderer, e, role, old(printer.indent))
      ensures printer.indent == old(printer.indent)
      decreases e, 2
    {
      ghost var start, d := printer.lines, printer.indent;
      printer.Println(WithLabel(renderer.element(e), role));
      printer.PushIndent();
      ghost var l0 := printer.lines;
      EnumEntryChildren(e);
      ghost var l1 := printer.lines;
      printer.PopIndent();
      EnumEntryPrinted(renderer, e, role, d, start, l0, l1);
    }

    /** The block `dumpLabeledElementWith` runs one level deeper for an enum entry. */
    method EnumEntryChildren(e: Element)
      requires e.kind.EnumEntry?
      modifies printer
      ensures printer.lines == old(printer.lines) + (Dump(renderer, e.kind.initializerExpression, "init", old(printer.indent)) +
        DumpOptional(renderer, e.kind.correspondingClass, "class", old(printer.indent)))
      ensures printer.indent == old(printer.indent)
      decreases e, 1
    {
      ghost var start, d := printer.lines, printer.indent;
      ghost var a := Dump(renderer, e.kind.initializerExpression, "init", d);
      ghost var b := DumpOptional(renderer, e.kind.correspondingClass, "class", d);
      Accept(e.kind.initializerExpression, "init");
      AcceptOptional(e.kind.correspondingClass, "class");
      Printed1(start, a, b, a + b);
    }

    method VisitMemberAccess(e: Element, role: string)
      requires e.kind.MemberAccess?
      modifies printer
      ensures printer.lines == old(printer.lines) + Dump(renderer, e, role, old(printer.indent))
      ensures printer.indent == old(printer.indent)
      decreases e, 2
    {
      ghost var start, d := printer.lines, printer.indent;
      printer.Println(WithLabel(renderer.element(e), role));
      printer.PushIndent();
      ghost var l0 := printer.lines;
      MemberAccessChildren(e);
      ghost var l1 := printer.lines;
      printer.PopIndent();
      MemberAccessPrinted(renderer, e, role, d, start, l0, l1);
    }

    /** The block `dumpLabeledElementWith` runs one level deeper for a member access. */
    method MemberAccessChildren(e: Element)
      requires e.kind.MemberAccess?
      modifies printer
      ensures printer.lines == old(printer.lines) + (TypeArgumentLines(renderer, e.kind.typeArguments, old(printer.indent)) +
        DumpOptional(renderer, e.kind.dispatchReceiver, "$this", old(printer.indent)) +
        DumpOptional(renderer, e.kind.extensionReceiver, "$receiver", old(printer.indent)) +
        DumpArguments(renderer, e.kind.valueArguments, old(printer.indent)))
      ensures printer.indent == old(printer.indent)
      decreases e, 1
    {
      ghost var start, d := printer.lines, printer.indent;
      ghost var a := TypeArgumentLines(renderer, e.kind.typeArguments, d);
      ghost var b := DumpOptional(renderer, e.kind.dispatchReceiver, "$this", d);
      ghost var c := DumpOptional(renderer, e.kind.extensionReceiver, "$receiver", d);
      ghost var x := DumpArguments(renderer, e.kind.valueArguments, d);
      DumpTypeArguments(e.kind.typeArguments);
      AcceptOptional(e.kind.dispatchReceiver, "$this");
      AcceptOptional(e.kind.extensionReceiver, "$receiver");
      AcceptArguments(e.kind.valueArguments);
      Printed3(start, a, b, c, x, a + b + c + x);
    }

    method VisitGetField(e: Element, role: string)
      requires e.kind.GetField?
      modifies printer
      ensures printer.lines == old(printer.lines) + Dump(renderer, e, role, old(printer.indent))
      ensures printer.indent == old(printer.indent)
      decreases e, 2
    {
      ghost var start, d := printer.lines, printer.indent;
      printer.Println(WithLabel(renderer.element(e), role));
      printer.PushIndent();
      ghost var l0 := printer.lines;
      AcceptOptional(e.kind.receiver, "receiver");
      ghost var l1 := printer.lines;
      printer.PopIndent();
      GetFieldPrinted(renderer, e, role, d, start, l0, l1);
    }

    method VisitSetField(e: Element, role: string)
      requires e.kind.SetField?
      modifies printer
      ensures printer.lines == old(printer.lines) + Dump(renderer, e, role, old(printer.indent))
      ensures printer.indent == old(printer.indent)
      decreases e, 2
    {
      ghost var start, d := printer.lines, printer.indent;
      printer.Println(WithLabel(renderer.element(e), role));
      printer.PushIndent();
      ghost var l0 := printer.lines;
      SetFieldChildren(e);
      ghost var l1 := printer.lines;
      printer.PopIndent();
      SetFieldPrinted(renderer, e, role, d, start, l0, l1);
    }

    /** The block `dumpLabeledElementWith` runs one level deeper for a field assignment. */
    method SetFieldChildren(e: Element)
      requires e.kind.SetField?
      modifies printer
      ensures printer.lines == old(printer.lines) + (DumpOptional(renderer, e.kind.receiver, "receiver", old(printer.indent)) +
        Dump(renderer, e.kind.value, "value", old(printer.indent)))
      ensures printer.indent == old(printer.indent)
      decreases e, 1
    {
      ghost var start, d := printer.lines, printer.indent;
      ghost var a := DumpOptional(renderer, e.kind.receiver, "receiver", d);
      ghost var b := Dump(renderer, e.kind.value, "value", d);
      AcceptOptional(e.kind.receiver, "receiver");
      Accept(e.kind.value, "value");
      Printed1(start, a, b, a + b);
    }

    method VisitWhen(e: Element, role: string)
      requires e.kind.When?
      modifies printer
      ensures printer.lines == old(printer.lines) + Dump(renderer, e, role, old(printer.indent))
      ensures printer.indent == old(printer.indent)
      decreases e, 2
    {
      ghost var start, d := printer.lines, printer.indent;
      printer.Println(WithLabel(renderer.element(e), role));
      printer.PushIndent();
      ghost var l0 := printer.lines;
      AcceptEach(e.kind.branches);
      ghost var l1 := printer.lines;
      printer.PopIndent();
      WhenPrinted(renderer, e, role, d, start, l0, l1);
    }

    method VisitBranch(e: Element, role: string)
      requires e.kind.Branch?
      modifies printer
      ensures printer.lines == old(printer.lines) + Dump(renderer, e, role, old(printer.indent))
      ensures printer.indent == old(printer.indent)
      decreases e, 2
    {
      ghost var start, d := printer.lines, printer.indent;
      printer.Println(WithLabel(renderer.element(e), role));
      printer.PushIndent();
      ghost var l0 := printer.lines;
      BranchChildren(e);
      ghost var l1 := printer.lines;
      printer.PopIndent();
      BranchPrinted(renderer, e, role, d, start, l0, l1);
    }

    /** The block `dumpLabeledElementWith` runs one level deeper for a `when` branch. */
    method BranchChildren(e: Element)
      requires e.kind.Branch?
      modifies printer
      ensures printer.lines == old(printer.lines) + (Dump(renderer, e.kind.condition, "if", old(printer.indent)) +
        Dump(renderer, e.kind.result, "then", old(printer.indent)))
      ensures printer.indent == old(printer.indent)
      decreases e, 1
    {
      ghost var start, d := printer.lines, printer.indent;
      ghost var a := Dump(renderer, e.kind.condition, "if", d);
      ghost var b := Dump(renderer, e.kind.result, "then", d);
      Accept(e.kind.condition, "if");
      Accept(e.kind.result, "then");
      Printed1(start, a, b, a + b);
    }

    method VisitWhileLoop(e: Element, role: string)
      requires e.kind.WhileLoop?
      modifies printer
      ensures printer.lines == old(printer.lines) + Dump(renderer, e, role, old(printer.indent))
      ensures printer.indent == old(printer.indent)
      decreases e, 2
    {
      ghost var start, d := printer.lines, printer.indent;
      printer.Println(WithLabel(renderer.element(e), role));
      printer.PushIndent();
      ghost var l0 := printer.lines;
      WhileLoopChildren(e);
      ghost var l1 := printer.lines;
      printer.PopIndent();
      WhileLoopPrinted(renderer, e, role, d, start, l0, l1);
    }

    /** The block `dumpLabeledElementWith` runs one level deeper for a `while` loop. */
    method WhileLoopChildren(e: Element)
      requires e.kind.WhileLoop?
      modifies printer
      ensures printer.lines == old(printer.lines) + (Dump(renderer, e.kind.condition, "condition", old(printer.indent)) +
        DumpOptional(renderer, e.kind.body, "body", old(printer.indent)))
      ensures printer.indent == old(printer.indent)
      decreases e, 1
    {
      ghost var start, d := printer.lines, printer.indent;
      ghost var a := Dump(renderer, e.kind.condition, "condition", d);
      ghost var b := DumpOptional(renderer, e.kind.body, "body", d);
      Accept(e.kind.condition, "condition");
      AcceptOptional(e.kind.body, "body");
      Printed1(start, a, b, a + b);
    }

    method VisitDoWhileLoop(e: Element, role: string)
      requires e.kind.DoWhileLoop?
      modifies printer
      ensures printer.lines == old(printer.lines) + Dump(renderer, e, role, old(printer.indent))
      ensures printer.indent == old(printer.indent)
      decreases e, 2
    {
      ghost var start, d := printer.lines, printer.indent;
      printer.Println(WithLabel(renderer.element(e), role));
      printer.PushIndent();
      ghost var l0 := printer.lines;
      DoWhileLoopChildren(e);
      ghost var l1 := printer.lines;
      printer.PopIndent();
      DoWhileLoopPrinted(renderer, e, role, d, start, l0, l1);
    }

    /** The block `dumpLabeledElementWith` runs one level deeper for a `do`-`while` loop. */
    method DoWhileLoopChildren(e: Element)
      requires e.kind.DoWhileLoop?
      modifies printer
      ensures printer.lines == old(printer.lines) + (DumpOptional(renderer, e.kind.body, "body", old(printer.indent)) +
        Dump(renderer, e.kind.condition, "condition", old(printer.indent)))
      ensures printer.indent == old(printer.indent)
      decreases e, 1
    {
      ghost var start, d := printer.lines, printer.indent;
      ghost var a := DumpOptional(renderer, e.kind.body, "body", d);
      ghost var b := Dump(renderer, e.kind.condition, "condition", d);
      AcceptOptional(e.kind.body, "body");
      Accept(e.kind.condition, "condition");
      Printed1(start, a, b, a + b);
    }

    method VisitTry(e: Element, role: string)
      requires e.kind.Try?
      modifies printer
      ensures printer.lines == old(printer.lines) + Dump(renderer, e, role, old(printer.indent))
      ensures printer.indent == old(printer.indent)
      decreases e, 2
    {
      ghost var start, d := printer.lines, printer.indent;
      printer.Println(WithLabel(renderer.element(e), role));
      printer.PushIndent();
      ghost var l0 := printer.lines;
      TryChildren(e);
      ghost var l1 := printer.lines;
      printer.PopIndent();
      TryPrinted(renderer, e, role, d, start, l0, l1);
    }

    /** The block `dumpLabeledElementWith` runs one level deeper for a `try`. */
    method TryChildren(e: Element)
      requires e.kind.Try?
      modifies printer
      ensures printer.lines == old(printer.lines) + (Dump(renderer, e.kind.tryResult, "try", old(printer.indent)) +
        DumpEach(renderer, e.kind.catches, old(printer.indent)) +
        DumpOptional(renderer, e.kind.finallyExpression, "finally", old(printer.indent)))
      ensures printer.indent == old(printer.indent)
      decreases e, 1
    {
      ghost var start, d := printer.lines, printer.indent;
      ghost var a := Dump(renderer, e.kind.tryResult, "try", d);
      ghost var b := DumpEach(renderer, e.kind.catches, d);
      ghost var c := DumpOptional(renderer, e.kind.finallyExpression, "finally", d);
      Accept(e.kind.tryResult, "try");
      AcceptEach(e.kind.catches);
      AcceptOptional(e.kind.finallyExpression, "finally");
      Printed2(start, a, b, c, a + b + c);
    }
  }

  /** `dump()`: the text of a node's dump from depth zero with no label. */
  method DumpElement(renderer: Renderer, e: Element) returns (s: string)
    ensures s == Text(Dump(renderer, e, "", 0))
  {
    var visitor := new DumpIrTreeVisitor(renderer);
    visitor.Accept(e, "");
    assert [] + Dump(renderer, e, "", 0) == Dump(renderer, e, "", 0);
    s := visitor.printer.Output();
  }

  /** Dumps, whole, each subtree whose root starts on the queried line, with
      a dumper that shares this visitor's output; every other node is
      searched through its children. */
  class DumpTreeFromSourceLineVisitor {
    const query: LineQuery
    const dumper: DumpIrTreeVisitor

    constructor (query: LineQuery, renderer: Renderer)
      ensures this.query == query && dumper.renderer == renderer
      ensures fresh(dumper) && fresh(dumper.printer)
      ensures dumper.printer.lines == [] && dumper.printer.indent == 0
    {
      this.query := query;
      dumper := new DumpIrTreeVisitor(renderer);
    }

    method VisitElement(e: Element)
      requires dumper.printer.indent == 0
      modifies dumper.printer
      ensures dumper.printer.lines == old(dumper.printer.lines) + Select(query, dumper.renderer, e)
      ensures dumper.printer.indent == 0
      decreases e
    {
      var printer, renderer := dumper.printer, dumper.renderer;
      ghost var start := printer.lines;
      if StartsOnLine(query, e) {
        dumper.Accept(e, "");
        assert printer.lines == start + Select(query, renderer, e);
        return;
      }
      var children := Children(e);
      var i := 0;
      while i < |children|
        invariant 0 <= i <= |children|
        invariant printer.lines == start + SelectChildren(query, renderer, e, i)
        invariant printer.indent == 0
      {
        ghost var before := printer.lines;
        VisitElement(children[i]);
        ghost var after := printer.lines;
        assert after == before + Select(query, renderer, children[i]);
        assert after == start + SelectChildren(query, renderer, e, i + 1) by {
          SelectChildrenStep(query, renderer, e, i);
          AppendAssoc(start, SelectChildren(query, renderer, e, i), Select(query, renderer, children[i]));
        }
        i := i + 1;
      }
      assert printer.lines == start + Select(query, renderer, e);
    }
  }

  /** `dumpTreesFromLineNumber`: the text of the dumps of the subtrees of a
      file that start on the given line, in document order. */
  method DumpTreesFromLineNumber(getLineNumber: (FileEntry, int) -> int, renderer: Renderer, file: Element, lineNumber: int)
    returns (s: string)
    requires file.kind.File?
    ensures s == Text(Select(LineQuery(getLineNumber, file.kind.fileEntry, lineNumber), renderer, file))
  {
    var visitor := new DumpTreeFromSourceLineVisitor(LineQuery(getLineNumber, file.kind.fileEntry, lineNumber), renderer);
    visitor.VisitElement(file);
    assert [] + Select(visitor.query, renderer, file) == Select(visitor.query, renderer, file);
    s := visitor.dumper.printer.Output();
  }
}
