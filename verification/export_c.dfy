/**
 * ExportC: the exporter that writes a scene as the source of a C program
 * calling the libYafaRay C API, one call per line.
 *
 * The program is cut into functions section_0, section_1, ... so that no
 * function grows too large: every writer counts the lines it adds in
 * sectionNumLines, and the writers that check it close the current
 * function and open the next one once it reaches sectionMaxLines. Pending
 * parameters sit in a ParamMap and are written, one line each and in key
 * order, by the create* calls, which then clear them.
 *
 * The file is the text written so far. Number formatting of the stream
 * and the colour-space encoding of colour parameters are parameters.
 */
module Export {
  import opened Param

  /** How the stream formats numbers, and the encoding applied to colours. */
  datatype Format = Format(itoa: int -> string, dtoa: real -> string, encode: Rgba -> Rgba)

  /** next_obj_ is an unsigned int. */
  const UInt32: int := 0x1_0000_0000

  function Quoted(s: string): string
  {
    "\"" + s + "\""
  }

  function Tabs(n: nat): string
  {
    if n == 0 then "" else "\t" + Tabs(n - 1)
  }

  /** ++ on an unsigned int: past the largest value it wraps to 0. */
  function NextId(n: int): int
  {
    if n + 1 >= UInt32 then 0 else n + 1
  }

  /** The values written with ", " between them. */
  function Join<T>(vs: seq<T>, show: T -> string): string
  {
    if |vs| == 0 then ""
    else if |vs| == 1 then show(vs[0])
    else show(vs[0]) + ", " + Join(vs[1..], show)
  }

  /** The pieces, one after the other. */
  function Concat(pieces: seq<string>): string
  {
    if |pieces| == 0 then "" else Concat(pieces[..|pieces| - 1]) + pieces[|pieces| - 1]
  }

  /** writeMatrix: the quoted name, then the sixteen entries row by row. */
  function MatrixArgs(name: string, vs: seq<real>, dtoa: real -> string): string
  {
    Quoted(name) + ", " + Join(vs, dtoa)
  }

  function BoolName(b: bool): string
  {
    if b then "YAFARAY_BOOL_TRUE" else "YAFARAY_BOOL_FALSE"
  }

  /**
   * writeParam: the API call that sets one parameter. The call is named
   * after the parameter's type; an empty string and a parameter of no
   * type write nothing.
   */
  function ParamLine(name: string, p: ValidParameter, f: Format): string
  {
    var args := "(yi, " + Quoted(name) + ", ";
    match p.type_
    case Int => "yafaray_paramsSet" + "Int" + args + f.itoa(p.ival) + ");\n"
    case Bool => "yafaray_paramsSet" + "Bool" + args + BoolName(p.bval) + ");\n"
    case Float => "yafaray_paramsSet" + "Float" + args + f.dtoa(p.fval) + ");\n"
    case String => if p.sval == "" then "" else "yafaray_paramsSet" + "String" + args + Quoted(p.sval) + ");\n"
    case Vector => "yafaray_paramsSet" + "Vector" + args + Join(p.vval, f.dtoa) + ");\n"
    case Color =>
      var c := f.encode(Rgba(p.vval[0], p.vval[1], p.vval[2], p.vval[3]));
      "yafaray_paramsSet" + "Color" + args + Join([c.r, c.g, c.b, c.a], f.dtoa) + ");\n"
    case Matrix => "yafaray_paramsSet" + "Matrix" + "(yi, " + MatrixArgs(name, p.vval, f.dtoa) + ", YAFARAY_BOOL_FALSE);\n"
    case None => ""
  }

  /** writeParam writes nothing exactly for an empty string and for a parameter of no type. */
  lemma ParamLineEmpty(name: string, p: Parameter, f: Format)
    requires p.Valid()
    ensures ParamLine(name, p, f) == "" <==> p.type_ == None || (p.type_ == String && p.sval == "")
  {
  }

  /** The call writeParam writes is named after the parameter's type. */
  lemma ParamLineNamesType(name: string, p: Parameter, f: Format)
    requires p.Valid() && ParamLine(name, p, f) != ""
    ensures ParamLine(name, p, f)[..17 + |PrintType(p)|] == "yafaray_paramsSet" + PrintType(p)
  {
  }

  /** A bool is written as YAFARAY_BOOL_TRUE or YAFARAY_BOOL_FALSE, after the quoted name. */
  lemma ParamLineBool(name: string, b: bool, f: Format)
    ensures ParamLine(name, FromBool(b), f)[30 + |name|..] == (if b then "YAFARAY_BOOL_TRUE);\n" else "YAFARAY_BOOL_FALSE);\n")
  {
  }

  /** The create* calls that write the pending parameters, their call line, and check for a split. */
  datatype Creator = Light | Texture | Material | Camera | Background | Integrator
                   | VolumeRegion | Output | RenderView | Image | Object

  function CreatorName(c: Creator): string
  {
    match c
    case Light => "createLight"
    case Texture => "createTexture"
    case Material => "createMaterial"
    case Camera => "createCamera"
    case Background => "createBackground"
    case Integrator => "createIntegrator"
    case VolumeRegion => "createVolumeRegion"
    case Output => "createOutput"
    case RenderView => "createRenderView"
    case Image => "createImage"
    case Object => "createObject"
  }

  /** The calls that write the pending parameters and their call line with no split check. */
  datatype Setup = Scene | Layer | RenderSetup

  function SetupName(s: Setup): string
  {
    match s
    case Scene => "createScene"
    case Layer => "defineLayer"
    case RenderSetup => "setupRender"
  }

  /**
   * One piece of text the exporter writes to its file, as the call that
   * wrote it; LineText gives its exact text.
   */
  datatype Line =
    | Head                                        // generateHeader: opens section_0
    | Split(section: nat)                         // sectionSplit: closes a section, opens section_<section>
    | Vertex(x: real, y: real, z: real)
    | VertexOrco(x: real, y: real, z: real, ox: real, oy: real, oz: real)
    | Normal(x: real, y: real, z: real)
    | Triangle(a: int, b: int, c: int)
    | TriangleUv(a: int, b: int, c: int, uvA: int, uvB: int, uvC: int)
    | UvLine(u: real, v: real)
    | Smooth(name: string, angle: real)
    | Instance(base: string, m: seq<real>)
    | SetMaterial(name: string)
    | ObjectEnd
    | Clear(blank: bool)                          // yafaray_paramsClearAll, with a blank line or not
    | ParamSet(indent: nat, name: string, p: ValidParameter)
    | PushList(indent: nat)
    | EndList(indent: nat)
    | CreateCall(creator: Creator, name: string)
    | SetupCall(setup: Setup)
    | OutputBlock                                 // render's image output, closing the last section
    | Main(calls: string)                         // generateMain around the section calls

  function LineText(l: Line, f: Format): string
  {
    match l
    case Head => Header
    case Split(n) => SplitText(n, f.itoa)
    case Vertex(x, y, z) => "\t" + "yafaray_addVertex(yi, " + Join([x, y, z], f.dtoa) + ");\n"
    case VertexOrco(x, y, z, ox, oy, oz) => "\t" + "yafaray_addVertexWithOrco(yi, " + Join([x, y, z, ox, oy, oz], f.dtoa) + ");\n"
    case Normal(x, y, z) => "\t" + "yafaray_addNormal(yi, " + Join([x, y, z], f.dtoa) + ");\n"
    case Triangle(a, b, c) => "\t" + "yafaray_addTriangle(yi, " + Join([a, b, c], f.itoa) + ");\n"
    case TriangleUv(a, b, c, uvA, uvB, uvC) => "\t" + "yafaray_addTriangleWithUv(yi, " + Join([a, b, c, uvA, uvB, uvC], f.itoa) + ");\n"
    case UvLine(u, v) => "\t" + "yafaray_addUv(yi, " + Join([u, v], f.dtoa) + ");\n"
    case Smooth(name, angle) => "\t" + "yafaray_smoothMesh(yi, " + Quoted(name) + ", " + f.dtoa(angle) + ");\n\n"
    case Instance(base, m) => "\t" + "yafaray_addInstance(yi, " + MatrixArgs(base, m, f.dtoa) + ");\n"
    case SetMaterial(name) => "\t" + "yafaray_setCurrentMaterial(yi, " + Quoted(name) + ");\n"
    case ObjectEnd => "\t" + "yafaray_endObject(yi);\n"
    case Clear(blank) => "\t" + "yafaray_paramsClearAll(yi);\n" + (if blank then "\n" else "")
    case ParamSet(indent, name, p) => Tabs(indent) + ParamLine(name, p, f)
    case PushList(indent) => Tabs(indent) + "yafaray_paramsPushList(yi);\n"
    case EndList(indent) => Tabs(indent) + "yafaray_paramsEndList(yi);\n"
    case CreateCall(c, name) => "\t" + "yafaray_" + CreatorName(c) + "(yi, " + Quoted(name) + ");\n"
    case SetupCall(s) => "\t" + "yafaray_" + SetupName(s) + "(yi);\n"
    case OutputBlock => RenderText
    case Main(calls) => MainHead + calls + MainTail
  }

  /** The pieces the items show as, one after the other. */
  function Joined<T>(xs: seq<T>, show: T -> string): string
  {
    if |xs| == 0 then "" else Joined(xs[..|xs| - 1], show) + show(xs[|xs| - 1])
  }

  lemma {:induction false} JoinedAppend<T>(a: seq<T>, b: seq<T>, show: T -> string)
    ensures Joined(a + b, show) == Joined(a, show) + Joined(b, show)
  {
    if |b| > 0 {
      var init := b[..|b| - 1];
      JoinedAppend(a, init, show);
      assert (a + b)[..|a + b| - 1] == a + init;
    } else {
      assert a + b == a;
    }
  }

  function Shown(f: Format): Line -> string
  {
    l => LineText(l, f)
  }

  /** The text of the file: the text of its lines, one after the other. */
  function Text(lines: seq<Line>, f: Format): string
  {
    Joined(lines, Shown(f))
  }

  /** Writing more lines appends their text: the text of a file is built line by line. */
  lemma TextAppend(a: seq<Line>, b: seq<Line>, f: Format)
    ensures Text(a + b, f) == Text(a, f) + Text(b, f)
  {
    JoinedAppend(a, b, Shown(f));
  }

  /** The line that opens section k: the header for section_0, a split for the others. */
  function Opener(k: nat): Line
  {
    if k == 0 then Head else Split(k)
  }

  predicate IsOpener(l: Line)
  {
    l.Head? || l.Split?
  }

  /** The section an opening line opens. */
  function SectionOf(l: Line): nat
    requires IsOpener(l)
  {
    if l.Head? then 0 else l.section
  }

  /** writeParamMap: per entry, in order, a line of the indentation and its writeParam call. */
  function MapLines(es: seq<Entry>, indent: nat): seq<Line>
  {
    if |es| == 0 then []
    else MapLines(es[..|es| - 1], indent) + [ParamSet(indent, es[|es| - 1].0, es[|es| - 1].1)]
  }

  /** One line per entry, the i-th for the i-th entry in key order. */
  lemma {:induction false} MapLinesOnePerEntry(es: seq<Entry>, indent: nat)
    ensures |MapLines(es, indent)| == |es|
    ensures forall i :: 0 <= i < |es| ==> MapLines(es, indent)[i] == ParamSet(indent, es[i].0, es[i].1)
  {
    if |es| > 0 {
      var init := es[..|es| - 1];
      MapLinesOnePerEntry(init, indent);
      assert forall i :: 0 <= i < |init| ==> init[i] == es[i];
    }
  }

  lemma MapLinesStep(es: seq<Entry>, i: nat, indent: nat)
    requires i < |es|
    ensures MapLines(es[..i + 1], indent) == MapLines(es[..i], indent) + [ParamSet(indent, es[i].0, es[i].1)]
  {
    assert es[..i + 1][..i] == es[..i];
  }

  /** writeParamList's loop: per node map, a push line and its entries one level deeper. */
  function NodesLines(nodes: seq<seq<Entry>>, indent: nat): seq<Line>
  {
    if |nodes| == 0 then []
    else NodesLines(nodes[..|nodes| - 1], indent) + ([PushList(indent)] + MapLines(nodes[|nodes| - 1], indent + 1))
  }

  /** The entries of all the node maps together. */
  function EntryCount(nodes: seq<seq<Entry>>): nat
  {
    if |nodes| == 0 then 0 else EntryCount(nodes[..|nodes| - 1]) + |nodes[|nodes| - 1]|
  }

  lemma NodesStep(nodes: seq<seq<Entry>>, i: nat, indent: nat)
    requires i < |nodes|
    ensures NodesLines(nodes[..i + 1], indent) == NodesLines(nodes[..i], indent) + ([PushList(indent)] + MapLines(nodes[i], indent + 1))
    ensures EntryCount(nodes[..i + 1]) == EntryCount(nodes[..i]) + |nodes[i]|
  {
    assert nodes[..i + 1][..i] == nodes[..i];
  }

  /**
   * The lines writeParamList writes number one more per node map than
   * the entries it counts: the push lines are not counted.
   */
  lemma {:induction false} NodesLinesCount(nodes: seq<seq<Entry>>, indent: nat)
    ensures |NodesLines(nodes, indent)| == EntryCount(nodes) + |nodes|
  {
    if |nodes| > 0 {
      var init := nodes[..|nodes| - 1];
      NodesLinesCount(init, indent);
      MapLinesOnePerEntry(nodes[|nodes| - 1], indent + 1);
    }
  }

  /** sectionSplit's text: close the current function and open section_<n>. */
  function SplitText(n: int, itoa: int -> string): string
  {
    "}\n\n" + "void section_" + itoa(n) + "(yafaray_Interface_t *yi)\n{\n"
  }

  /** The call generateSectionsCalls writes for section k. */
  function CallLine(k: int, itoa: int -> string): string
  {
    "\t" + "section_" + itoa(k) + "(yi);\n"
  }

  /** The calls for sections 0 to n - 1, in that order. */
  function Calls(n: nat, itoa: int -> string): (calls: seq<string>)
    ensures |calls| == n && forall k :: 0 <= k < n ==> calls[k] == CallLine(k, itoa)
  {
    seq(n, k => CallLine(k, itoa))
  }

  /** The split check: at the limit the counter restarts in a new section. */
  function Check(lines: nat, sections: nat, max: nat): (nat, nat)
  {
    if lines >= max then (0, sections + 1) else (lines, sections)
  }

  /** The counter and section number after one counted line and the split check. */
  function Step(lines: nat, sections: nat, max: nat): (nat, nat)
  {
    Check(lines + 1, sections, max)
  }

  /** The counter and section number after n counted lines, each checked. */
  function AfterWrites(lines: nat, sections: nat, n: nat, max: nat): (nat, nat)
  {
    if n == 0 then (lines, sections)
    else var prev := AfterWrites(lines, sections, n - 1, max); Step(prev.0, prev.1, max)
  }

  /**
   * Counted lines split every max lines: starting below the limit, after n
   * lines the counter holds the lines written since the last split, and
   * one section was opened per max lines.
   */
  lemma {:induction false} WritesSplitEvery(lines: nat, sections: nat, n: nat, max: nat)
    requires max >= 1 && lines < max
    ensures var after := AfterWrites(lines, sections, n, max);
      after.0 < max && after.1 >= sections && lines + n == (after.1 - sections) * max + after.0
  {
    if n > 0 {
      WritesSplitEvery(lines, sections, n - 1, max);
      var prev := AfterWrites(lines, sections, n - 1, max);
      var d := prev.1 - sections;
      assert lines + n - 1 == d * max + prev.0;
      if prev.0 + 1 >= max {
        assert (d + 1) * max == d * max + max;
      }
    }
  }

  const Header: string :=
    "/* ANSI C89/C90 file generated by libYafaRay C Export */\n"
    + "/* To build use your favorite ANSI C compiler/linker, pointing to libYafaRay include/library files */\n"
    + "/* For example in Linux using GCC */\n"
    + "/* LD_LIBRARY_PATH=(path to folder with libyafaray libs) gcc -o libyafaray_example_executable -ansi -I(path to folder with libyafaray includes) -L(path to folder with libyafaray libs) (yafaray_scene_exported_source_file_name.c) -O0 -ggdb -lyafaray4 */\n"
    + "/* Note: no optimizations are needed for compiling this source file because it is libYafaRay itself which should be optimized for fastest execution. */\n"
    + "/*       Disabling compiler optimizations should help speeding up compilation of large scenes. */\n"
    + "/* To run the executable */\n"
    + "/* LD_LIBRARY_PATH=(path to folder with libyafaray libs) ./libyafaray_example_executable */\n\n"
    + "#include <yafaray_c_api.h>\n"
    + "#include <stddef.h>\n\n"
    + "void section_0(yafaray_Interface_t *yi)\n{\n"

  /** generateMain, before the section calls: main() creates the interface and sets up logging. */
  const MainHead: string :=
    "int main()\n" + "{\n"
    + "\t" + "yafaray_Interface_t *yi = yafaray_createInterface(YAFARAY_INTERFACE_FOR_RENDERING, NULL, NULL, NULL, YAFARAY_DISPLAY_CONSOLE_NORMAL);\n"
    + "\t" + "yafaray_setConsoleLogColorsEnabled(yi, YAFARAY_BOOL_TRUE);\n"
    + "\t" + "yafaray_setConsoleVerbosityLevel(yi, YAFARAY_LOG_LEVEL_DEBUG);\n\n"

  /** generateMain, after the section calls: render, destroy the interface, return 0. */
  const MainTail: string :=
    "\n\t" + "yafaray_render(yi, NULL, NULL, YAFARAY_DISPLAY_CONSOLE_NORMAL);\n"
    + "\n\t" + "yafaray_destroyInterface(yi);\n\n"
    + "\t" + "return 0;\n"
    + "}\n"

  /** The output setup render writes before main(), closing the last section. */
  const RenderText: string :=
    "\t" + "/* Creating image output */\n"
    + "\t" + "yafaray_paramsSetString(yi, \"image_path\", \"./test01-output1.tga\");\n"
    + "\t" + "yafaray_paramsSetString(yi, \"color_space\", \"sRGB\");\n"
    + "\t" + "yafaray_paramsSetString(yi, \"badge_position\", \"top\");\n"
    + "\t" + "yafaray_createOutput(yi, \"output1_tga\");\n"
    + "\t" + "yafaray_paramsClearAll(yi);\n"
    + "}\n\n"

  /**
   * The exporter. file holds what was written so far, line by line; the
   * program is Text(file, fmt).
   */
  class ExportC {
    var file: seq<Line>
    var currentMaterial: string
    var nUvs: int
    var nextObj: int
    var sectionNumLines: nat
    var numSections: nat
    /** params_: the pending parameter map, as its entries in key order (see Param.ParamMap.Entries). */
    var params: seq<Entry>
    /** nodes_params_: the node parameter maps of a material, each as its entries in key order. */
    var nodes: seq<seq<Entry>>
    const sectionMaxLines: nat
    const fmt: Format
    /** at[k]: the position in file of the line that opens section_<k>. */
    ghost var at: seq<nat>

    /**
     * The file opens section_0 to section_<numSections - 1>, each exactly
     * once, and opens no other section.
     */
    ghost predicate Valid()
      reads this
    {
      sectionMaxLines >= 1 && 0 <= nextObj < UInt32 && |at| == numSections >= 1 &&
      (forall k :: 0 <= k < |at| ==> at[k] < |file| && file[at[k]] == Opener(k)) &&
      (forall i :: 0 <= i < |file| && IsOpener(file[i]) ==> SectionOf(file[i]) < |at| && at[SectionOf(file[i])] == i)
    }

    /** What sectionSplit writes once the counter has reached c: nothing below the limit. */
    function SplitIf(c: int, sections: nat): seq<Line>
    {
      if c >= sectionMaxLines then [Split(sections)] else []
    }

    /** The header opens section_0; none of it is counted. */
    constructor(maxLines: nat, f: Format)
      requires maxLines >= 1
      ensures Valid()
      ensures file == [Head] && params == [] && nodes == []
      ensures currentMaterial == "" && nUvs == 0 && nextObj == 0
      ensures sectionNumLines == 0 && numSections == 1 && sectionMaxLines == maxLines && fmt == f
    {
      sectionMaxLines, fmt := maxLines, f;
      file, currentMaterial, nUvs, nextObj := [Head], "", 0, 0;
      sectionNumLines, numSections, params, nodes := 0, 1, [], [];
      at := [0];
    }

    /** file_ << text, for a line that opens no section; nothing is counted. */
    method Emit(l: Line)
      requires Valid() && !IsOpener(l)
      modifies this
      ensures Valid() && file == old(file) + [l]
      ensures sectionNumLines == old(sectionNumLines) && numSections == old(numSections)
      ensures currentMaterial == old(currentMaterial) && nUvs == old(nUvs) && nextObj == old(nextObj)
      ensures nodes == old(nodes) && params == old(params)
    {
      file := file + [l];
    }

    /** sectionSplit: the text that ends this section and opens the next; the counter restarts. */
    method SectionSplit() returns (line: Line)
      modifies this
      ensures line == Split(old(numSections))
      ensures sectionNumLines == 0 && numSections == old(numSections) + 1 && at == old(at)
      ensures file == old(file) && currentMaterial == old(currentMaterial) && nUvs == old(nUvs)
      ensures nextObj == old(nextObj) && nodes == old(nodes) && params == old(params)
    {
      sectionNumLines := 0;
      line := Split(numSections);
      numSections := numSections + 1;
    }

    /**
     * The split check after a counted write: at the limit the section is
     * closed and the next one opened, so the counter ends below the limit.
     */
    method SplitCheck()
      requires Valid()
      modifies this
      ensures Valid() && sectionNumLines < sectionMaxLines
      ensures file == old(file) + SplitIf(old(sectionNumLines), old(numSections))
      ensures (sectionNumLines, numSections) == Check(old(sectionNumLines), old(numSections), sectionMaxLines)
      ensures currentMaterial == old(currentMaterial) && nUvs == old(nUvs) && nextObj == old(nextObj)
      ensures nodes == old(nodes) && params == old(params)
    {
      if sectionNumLines >= sectionMaxLines {
        at := at + [|file|];
        var line := SectionSplit();
        file := file + [line];
      }
    }

    /** One counted line followed by the split check, as every geometry writer does it. */
    method WriteLine(l: Line)
      requires Valid() && !IsOpener(l)
      modifies this
      ensures Valid() && sectionNumLines < sectionMaxLines
      ensures (sectionNumLines, numSections) == Step(old(sectionNumLines), old(numSections), sectionMaxLines)
      ensures file == old(file) + [l] + SplitIf(old(sectionNumLines) + 1, old(numSections))
      ensures currentMaterial == old(currentMaterial) && nUvs == old(nUvs) && nextObj == old(nextObj)
      ensures nodes == old(nodes) && params == old(params)
    {
      Emit(l);
      sectionNumLines := sectionNumLines + 1;
      SplitCheck();
    }

    /** addVertex: one counted line; the returned index is always 0. */
    method AddVertex(x: real, y: real, z: real) returns (r: int)
      requires Valid()
      modifies this
      ensures Valid() && r == 0
      ensures (sectionNumLines, numSections) == Step(old(sectionNumLines), old(numSections), sectionMaxLines)
      ensures file == old(file) + [Vertex(x, y, z)] + SplitIf(old(sectionNumLines) + 1, old(numSections))
      ensures currentMaterial == old(currentMaterial) && nUvs == old(nUvs) && nextObj == old(nextObj)
      ensures nodes == old(nodes) && params == old(params)
    {
      WriteLine(Vertex(x, y, z));
      r := 0;
    }

    /** addVertex with orco coordinates: one counted line; returns 0. */
    method AddVertexWithOrco(x: real, y: real, z: real, ox: real, oy: real, oz: real) returns (r: int)
      requires Valid()
      modifies this
      ensures Valid() && r == 0
      ensures (sectionNumLines, numSections) == Step(old(sectionNumLines), old(numSections), sectionMaxLines)
      ensures file == old(file) + [VertexOrco(x, y, z, ox, oy, oz)] + SplitIf(old(sectionNumLines) + 1, old(numSections))
      ensures currentMaterial == old(currentMaterial) && nUvs == old(nUvs) && nextObj == old(nextObj)
      ensures nodes == old(nodes) && params == old(params)
    {
      WriteLine(VertexOrco(x, y, z, ox, oy, oz));
      r := 0;
    }

    /** addNormal: one counted line. */
    method AddNormal(x: real, y: real, z: real)
      requires Valid()
      modifies this
      ensures Valid()
      ensures (sectionNumLines, numSections) == Step(old(sectionNumLines), old(numSections), sectionMaxLines)
      ensures file == old(file) + [Normal(x, y, z)] + SplitIf(old(sectionNumLines) + 1, old(numSections))
      ensures currentMaterial == old(currentMaterial) && nUvs == old(nUvs) && nextObj == old(nextObj)
      ensures nodes == old(nodes) && params == old(params)
    {
      WriteLine(Normal(x, y, z));
    }

    /** addFace: one counted line; returns true. */
    method AddFace(a: int, b: int, c: int) returns (ok: bool)
      requires Valid()
      modifies this
      ensures Valid() && ok
      ensures (sectionNumLines, numSections) == Step(old(sectionNumLines), old(numSections), sectionMaxLines)
      ensures file == old(file) + [Triangle(a, b, c)] + SplitIf(old(sectionNumLines) + 1, old(numSections))
      ensures currentMaterial == old(currentMaterial) && nUvs == old(nUvs) && nextObj == old(nextObj)
      ensures nodes == old(nodes) && params == old(params)
    {
      WriteLine(Triangle(a, b, c));
      ok := true;
    }

    /** addFace with uv indices: one counted line; returns true. */
    method AddFaceWithUv(a: int, b: int, c: int, uvA: int, uvB: int, uvC: int) returns (ok: bool)
      requires Valid()
      modifies this
      ensures Valid() && ok
      ensures (sectionNumLines, numSections) == Step(old(sectionNumLines), old(numSections), sectionMaxLines)
      ensures file == old(file) + [TriangleUv(a, b, c, uvA, uvB, uvC)] + SplitIf(old(sectionNumLines) + 1, old(numSections))
      ensures currentMaterial == old(currentMaterial) && nUvs == old(nUvs) && nextObj == old(nextObj)
      ensures nodes == old(nodes) && params == old(params)
    {
      WriteLine(TriangleUv(a, b, c, uvA, uvB, uvC));
      ok := true;
    }

    /** addUv: one counted line; returns the number of uvs added since the last createObject. */
    method AddUv(u: real, v: real) returns (index: int)
      requires Valid()
      modifies this
      ensures Valid() && index == old(nUvs) && nUvs == old(nUvs) + 1
      ensures (sectionNumLines, numSections) == Step(old(sectionNumLines), old(numSections), sectionMaxLines)
      ensures file == old(file) + [UvLine(u, v)] + SplitIf(old(sectionNumLines) + 1, old(numSections))
      ensures currentMaterial == old(currentMaterial) && nextObj == old(nextObj)
      ensures nodes == old(nodes) && params == old(params)
    {
      WriteLine(UvLine(u, v));
      index := nUvs;
      nUvs := nUvs + 1;
    }

    /** smoothMesh: one counted line (its text ends in a blank line); returns true. */
    method SmoothMesh(name: string, angle: real) returns (ok: bool)
      requires Valid()
      modifies this
      ensures Valid() && ok
      ensures (sectionNumLines, numSections) == Step(old(sectionNumLines), old(numSections), sectionMaxLines)
      ensures file == old(file) + [Smooth(name, angle)] + SplitIf(old(sectionNumLines) + 1, old(numSections))
      ensures currentMaterial == old(currentMaterial) && nUvs == old(nUvs) && nextObj == old(nextObj)
      ensures nodes == old(nodes) && params == old(params)
    {
      WriteLine(Smooth(name, angle));
      ok := true;
    }

    /** addInstance: one counted line with the base object and its matrix row by row; returns true. */
    method AddInstance(baseObject: string, objToWorld: Matrix4) returns (ok: bool)
      requires Valid()
      modifies this
      ensures Valid() && ok
      ensures (sectionNumLines, numSections) == Step(old(sectionNumLines), old(numSections), sectionMaxLines)
      ensures file == old(file) + [Instance(baseObject, Flatten(objToWorld))] + SplitIf(old(sectionNumLines) + 1, old(numSections))
      ensures currentMaterial == old(currentMaterial) && nUvs == old(nUvs) && nextObj == old(nextObj)
      ensures nodes == old(nodes) && params == old(params)
    {
      WriteLine(Instance(baseObject, Flatten(objToWorld)));
      ok := true;
    }

    /**
     * setCurrentMaterial: a line, counted but not split on, only when the
     * name differs from the material last set.
     */
    method SetCurrentMaterial(name: string)
      requires Valid()
      modifies this
      ensures Valid() && currentMaterial == name
      ensures old(currentMaterial) == name ==> file == old(file) && sectionNumLines == old(sectionNumLines)
      ensures old(currentMaterial) != name ==>
        file == old(file) + [SetMaterial(name)] && sectionNumLines == old(sectionNumLines) + 1
      ensures numSections == old(numSections) && nUvs == old(nUvs) && nextObj == old(nextObj)
      ensures nodes == old(nodes) && params == old(params)
    {
      if name != currentMaterial {
        Emit(SetMaterial(name));
        currentMaterial := name;
        sectionNumLines := sectionNumLines + 1;
      }
    }

    /** getNextFreeId: next_obj_ pre-incremented, as an unsigned int. */
    method GetNextFreeId() returns (id: int)
      requires Valid()
      modifies this
      ensures Valid() && id == nextObj && nextObj == NextId(old(nextObj))
      ensures file == old(file) && sectionNumLines == old(sectionNumLines) && numSections == old(numSections)
      ensures currentMaterial == old(currentMaterial) && nUvs == old(nUvs)
      ensures nodes == old(nodes) && params == old(params)
    {
      nextObj := NextId(nextObj);
      id := nextObj;
    }

    /** endObject: two counted lines, not split on; returns true. */
    method EndObject() returns (ok: bool)
      requires Valid()
      modifies this
      ensures Valid() && ok
      ensures file == old(file) + [ObjectEnd, Clear(true)]
      ensures sectionNumLines == old(sectionNumLines) + 2 && numSections == old(numSections)
      ensures currentMaterial == old(currentMaterial) && nUvs == old(nUvs) && nextObj == old(nextObj)
      ensures nodes == old(nodes) && params == old(params)
    {
      Emit(ObjectEnd);
      Emit(Clear(true));
      sectionNumLines := sectionNumLines + 2;
      ok := true;
    }

    /** writeParamMap: one counted line per entry, in key order, none split on. */
    method WriteParamMap(es: seq<Entry>, indent: nat)
      requires Valid()
      modifies this
      ensures Valid()
      ensures file == old(file) + MapLines(es, indent)
      ensures sectionNumLines == old(sectionNumLines) + |es| && numSections == old(numSections)
      ensures currentMaterial == old(currentMaterial) && nUvs == old(nUvs) && nextObj == old(nextObj)
      ensures nodes == old(nodes) && params == old(params)
    {
      ghost var start := file;
      for i := 0 to |es|
        invariant Valid() && file == start + MapLines(es[..i], indent)
        invariant sectionNumLines == old(sectionNumLines) + i && numSections == old(numSections)
        invariant currentMaterial == old(currentMaterial) && nUvs == old(nUvs) && nextObj == old(nextObj)
        invariant nodes == old(nodes) && params == old(params)
      {
        MapLinesStep(es, i, indent);
        Emit(ParamSet(indent, es[i].0, es[i].1));
        sectionNumLines := sectionNumLines + 1;
      }
      assert es[..|es|] == es;
    }

    /** One node map of writeParamList: its push line, not counted, then its entries one level deeper. */
    method WriteNode(es: seq<Entry>, indent: nat)
      requires Valid()
      modifies this
      ensures Valid()
      ensures file == old(file) + ([PushList(indent)] + MapLines(es, indent + 1))
      ensures sectionNumLines == old(sectionNumLines) + |es| && numSections == old(numSections)
      ensures currentMaterial == old(currentMaterial) && nUvs == old(nUvs) && nextObj == old(nextObj)
      ensures nodes == old(nodes) && params == old(params)
    {
      Emit(PushList(indent));
      WriteParamMap(es, indent + 1);
    }

    /** writeParamList's loop over the node maps, in order. */
    method WriteNodes(ns: seq<seq<Entry>>, indent: nat)
      requires Valid()
      modifies this
      ensures Valid()
      ensures file == old(file) + NodesLines(ns, indent)
      ensures sectionNumLines == old(sectionNumLines) + EntryCount(ns) && numSections == old(numSections)
      ensures currentMaterial == old(currentMaterial) && nUvs == old(nUvs) && nextObj == old(nextObj)
      ensures nodes == old(nodes) && params == old(params)
    {
      ghost var start := file;
      for i := 0 to |ns|
        invariant Valid() && file == start + NodesLines(ns[..i], indent)
        invariant sectionNumLines == old(sectionNumLines) + EntryCount(ns[..i]) && numSections == old(numSections)
        invariant currentMaterial == old(currentMaterial) && nUvs == old(nUvs) && nextObj == old(nextObj)
        invariant nodes == old(nodes) && params == old(params)
      {
        NodesStep(ns, i, indent);
        ghost var done, node := NodesLines(ns[..i], indent), [PushList(indent)] + MapLines(ns[i], indent + 1);
        WriteNode(ns[i], indent);
        assert file == (start + done) + node;
        assert (start + done) + node == start + (done + node);
      }
      assert ns[..|ns|] == ns;
    }

    /** writeParamList: the node maps, then one counted end line. */
    method WriteParamList(indent: nat)
      requires Valid()
      modifies this
      ensures Valid()
      ensures file == old(file) + NodesLines(nodes, indent) + [EndList(indent)]
      ensures sectionNumLines == old(sectionNumLines) + EntryCount(nodes) + 1 && numSections == old(numSections)
      ensures currentMaterial == old(currentMaterial) && nUvs == old(nUvs) && nextObj == old(nextObj)
      ensures nodes == old(nodes) && params == old(params)
    {
      WriteNodes(nodes, indent);
      Emit(EndList(indent));
      sectionNumLines := sectionNumLines + 1;
    }

    /** The two closing lines of a create* call, counted, then the split check. */
    method CreateTail(c: Creator, name: string)
      requires Valid()
      modifies this
      ensures Valid() && sectionNumLines < sectionMaxLines
      ensures file == old(file) + [CreateCall(c, name), Clear(true)] + SplitIf(old(sectionNumLines) + 2, old(numSections))
      ensures (sectionNumLines, numSections) == Check(old(sectionNumLines) + 2, old(numSections), sectionMaxLines)
      ensures currentMaterial == old(currentMaterial) && nUvs == old(nUvs) && nextObj == old(nextObj)
      ensures nodes == old(nodes) && params == old(params)
    {
      Emit(CreateCall(c, name));
      Emit(Clear(true));
      sectionNumLines := sectionNumLines + 2;
      SplitCheck();
    }

    /**
     * createLight, createTexture, createCamera, createBackground,
     * createIntegrator, createVolumeRegion, createOutput, createRenderView
     * and createImage: the pending parameters, one line each, then they are
     * cleared and the two lines of the call follow.
     */
    method Create(c: Creator, name: string)
      requires Valid() && !c.Material? && !c.Object?
      modifies this
      ensures Valid() && params == [] && sectionNumLines < sectionMaxLines
      ensures file == old(file) + MapLines(old(params), 1) + [CreateCall(c, name), Clear(true)]
                + SplitIf(old(sectionNumLines) + |old(params)| + 2, old(numSections))
      ensures (sectionNumLines, numSections) == Check(old(sectionNumLines) + |old(params)| + 2, old(numSections), sectionMaxLines)
      ensures currentMaterial == old(currentMaterial) && nUvs == old(nUvs) && nextObj == old(nextObj) && nodes == old(nodes)
    {
      WriteParamMap(params, 1);
      params := [];
      CreateTail(c, name);
    }

    /** createMaterial: the node parameter list follows the parameters, and both are cleared. */
    method CreateMaterial(name: string)
      requires Valid()
      modifies this
      ensures Valid() && params == [] && nodes == [] && sectionNumLines < sectionMaxLines
      ensures file == old(file) + MapLines(old(params), 1) + NodesLines(old(nodes), 1) + [EndList(1)]
                + [CreateCall(Material, name), Clear(true)]
                + SplitIf(old(sectionNumLines) + |old(params)| + EntryCount(old(nodes)) + 3, old(numSections))
      ensures (sectionNumLines, numSections)
           == Check(old(sectionNumLines) + |old(params)| + EntryCount(old(nodes)) + 3, old(numSections), sectionMaxLines)
      ensures currentMaterial == old(currentMaterial) && nUvs == old(nUvs) && nextObj == old(nextObj)
    {
      WriteParamMap(params, 1);
      WriteParamList(1);
      params, nodes := [], [];
      CreateTail(Material, name);
    }

    /** createObject: as Create; the uv count restarts and next_obj_ is incremented. */
    method CreateObject(name: string)
      requires Valid()
      modifies this
      ensures Valid() && params == [] && sectionNumLines < sectionMaxLines
      ensures nUvs == 0 && nextObj == NextId(old(nextObj))
      ensures file == old(file) + MapLines(old(params), 1) + [CreateCall(Object, name), Clear(true)]
                + SplitIf(old(sectionNumLines) + |old(params)| + 2, old(numSections))
      ensures (sectionNumLines, numSections) == Check(old(sectionNumLines) + |old(params)| + 2, old(numSections), sectionMaxLines)
      ensures currentMaterial == old(currentMaterial) && nodes == old(nodes)
    {
      nUvs := 0;
      WriteParamMap(params, 1);
      params := [];
      CreateTail(Object, name);
      nextObj := NextId(nextObj);
    }

    /**
     * createScene, defineLayer and setupRender: the pending parameters and
     * two counted lines, with no split check; only createScene writes no
     * blank line after the clearing call.
     */
    method SetUp(s: Setup)
      requires Valid()
      modifies this
      ensures Valid() && params == []
      ensures file == old(file) + MapLines(old(params), 1) + [SetupCall(s), Clear(!s.Scene?)]
      ensures sectionNumLines == old(sectionNumLines) + |old(params)| + 2 && numSections == old(numSections)
      ensures currentMaterial == old(currentMaterial) && nUvs == old(nUvs) && nextObj == old(nextObj) && nodes == old(nodes)
    {
      WriteParamMap(params, 1);
      params := [];
      Emit(SetupCall(s));
      Emit(Clear(!s.Scene?));
      sectionNumLines := sectionNumLines + 2;
    }

    /** clearAll: the pending parameters and node maps are dropped and next_obj_ restarts at 0. */
    method ClearAll()
      requires Valid()
      modifies this
      ensures Valid() && params == [] && nodes == [] && nextObj == 0
      ensures file == old(file) && sectionNumLines == old(sectionNumLines) && numSections == old(numSections)
      ensures currentMaterial == old(currentMaterial) && nUvs == old(nUvs)
    {
      params, nodes := [], [];
      nextObj := 0;
    }

    /** generateSectionsCalls: one call per section, section_0 first. */
    method GenerateSectionsCalls() returns (text: string)
      ensures text == Concat(Calls(numSections, fmt.itoa))
    {
      text := "";
      for k := 0 to numSections
        invariant text == Concat(Calls(k, fmt.itoa))
      {
        assert Calls(k + 1, fmt.itoa)[..k] == Calls(k, fmt.itoa);
        text := text + CallLine(k, fmt.itoa);
      }
    }

    /**
     * render: the output setup closes the last section, then main() calls
     * every section; by Valid, each of them is opened exactly once in the file.
     */
    method Render()
      requires Valid()
      modifies this
      ensures Valid() && params == [] && nodes == []
      ensures file == old(file) + [OutputBlock, Main(Concat(Calls(numSections, fmt.itoa)))]
      ensures sectionNumLines == old(sectionNumLines) && numSections == old(numSections)
      ensures currentMaterial == old(currentMaterial) && nUvs == old(nUvs) && nextObj == old(nextObj)
    {
      Emit(OutputBlock);
      params, nodes := [], [];
      var calls := GenerateSectionsCalls();
      Emit(Main(calls));
    }
  }

  /** Every section call in the generated text names its own section, in increasing order. */
  lemma {:induction false} CallsInOrder(n: nat, k: nat, itoa: int -> string)
    requires k < n
    ensures exists post :: Concat(Calls(n, itoa)) == Concat(Calls(k, itoa)) + CallLine(k, itoa) + post
  {
    if k == n - 1 {
      assert Calls(n, itoa)[..n - 1] == Calls(k, itoa);
      var empty: string := "";
      assert Concat(Calls(n, itoa)) == Concat(Calls(k, itoa)) + CallLine(k, itoa) + empty;
    } else {
      CallsInOrder(n - 1, k, itoa);
      var post :| Concat(Calls(n - 1, itoa)) == Concat(Calls(k, itoa)) + CallLine(k, itoa) + post;
      assert Calls(n, itoa)[..n - 1] == Calls(n - 1, itoa);
      assert Concat(Calls(n, itoa)) == Concat(Calls(k, itoa)) + CallLine(k, itoa) + (post + CallLine(n - 1, itoa));
    }
  }

  /**
   * After render, main() is the last line, and every section it calls is
   * opened by exactly one line written before it.
   */
  method RenderDefinesEverySection(e: ExportC)
    requires e.Valid()
    modifies e
    ensures e.Valid() && |e.file| >= 2 && e.file[|e.file| - 1] == Main(Concat(Calls(e.numSections, e.fmt.itoa)))
    ensures forall k :: 0 <= k < e.numSections ==> e.at[k] < |e.file| - 2 && e.file[e.at[k]] == Opener(k)
    ensures forall i, j :: 0 <= i < j < |e.file| && IsOpener(e.file[i]) && IsOpener(e.file[j]) ==> SectionOf(e.file[i]) != SectionOf(e.file[j])
  {
    e.Render();
  }

  /**
   * After createObject, addUv hands out 0, 1, 2, ... for the uvs of that
   * object, and every counted line leaves the counter below the limit.
   */
  method UvsOfNewObject(e: ExportC, name: string, uvs: seq<(real, real)>) returns (ids: seq<int>)
    requires e.Valid()
    modifies e
    ensures e.Valid()
    ensures ids == seq(|uvs|, i => i)
    ensures e.sectionNumLines < e.sectionMaxLines
  {
    e.CreateObject(name);
    ids := [];
    for i := 0 to |uvs|
      invariant e.Valid() && e.nUvs == i && ids == seq(i, j => j)
      invariant e.sectionNumLines < e.sectionMaxLines
    {
      var id := e.AddUv(uvs[i].0, uvs[i].1);
      ids := ids + [id];
    }
  }

  /** Setting the same material twice writes its line at most once. */
  method SameMaterialTwice(e: ExportC, name: string)
    requires e.Valid()
    modifies e
    ensures e.Valid() && e.currentMaterial == name
    ensures e.sectionNumLines <= old(e.sectionNumLines) + 1
    ensures |e.file| <= |old(e.file)| + 1
  {
    e.SetCurrentMaterial(name);
    e.SetCurrentMaterial(name);
  }
}
