/**
 * The text header of a Radiance RGBE picture: readHeader, which checks the
 * magic line and the FORMAT tag, multiplies the EXPOSURE tags together and
 * turns the size line into the order in which scanlines and pixels are
 * stored, and writeHeader, which writes a header readHeader accepts.
 *
 * Header lines are strings that keep their trailing newline, as fgets
 * returns them. The number conversions and the tokenizer are not part of
 * this model; they are parameters.
 */
module HdrHeader {
  import opened Wrappers

  /** One axis of the stored picture: for (x = min; x != max; x += step). */
  datatype Axis = Axis(min: int, max: int, step: int)

  /** The header fields readHeader fills; axis0 and axis1 are min/max/step[0] and [1]. */
  datatype Header = Header(exposure: real, yFirst: bool, width: int, height: int, axis0: Axis, axis1: Axis)

  // ---------------------------------------------------------------------
  // Substring search (std::string::find)
  // ---------------------------------------------------------------------

  predicate Occurs(s: string, sub: string, i: int)
  {
    0 <= i && i + |sub| <= |s| && s[i..i + |sub|] == sub
  }

  /** The first occurrence of sub in s at or after i. */
  function IndexFrom(s: string, sub: string, i: nat): (r: Option<nat>)
    ensures r.Some? ==> i <= r.value && Occurs(s, sub, r.value)
    ensures r.Some? ==> forall k :: i <= k < r.value ==> !Occurs(s, sub, k)
    ensures r.None? ==> forall k :: i <= k ==> !Occurs(s, sub, k)
    decreases |s| - i
  {
    if i + |sub| > |s| then None
    else if s[i..i + |sub|] == sub then Some(i)
    else IndexFrom(s, sub, i + 1)
  }

  /** std::string::find: the first position of sub in s, if any. */
  function IndexOf(s: string, sub: string): (r: Option<nat>)
    ensures r.Some? ==> Occurs(s, sub, r.value) && forall k :: 0 <= k < r.value ==> !Occurs(s, sub, k)
    ensures r.None? <==> forall k :: !Occurs(s, sub, k)
  {
    IndexFrom(s, sub, 0)
  }

  predicate Contains(s: string, sub: string)
  {
    IndexOf(s, sub).Some?
  }

  /** A substring that holds a character the string lacks is not found. */
  lemma MissingCharNotFound(s: string, sub: string, c: char)
    requires c in sub && c !in s
    ensures IndexOf(s, sub).None?
  {
    var j :| 0 <= j < |sub| && sub[j] == c;
    forall k ensures !Occurs(s, sub, k) {
      OccursHas(s, sub, k, j);
    }
  }

  /** Where sub occurs, its characters are in s. */
  lemma OccursHas(s: string, sub: string, k: int, j: int)
    requires 0 <= j < |sub|
    ensures Occurs(s, sub, k) ==> 0 <= k + j < |s| && s[k + j] == sub[j]
  {
    if Occurs(s, sub, k) {
      assert s[k..k + |sub|][j] == s[k + j];
    }
  }

  /** A substring found at position p is found there or earlier. */
  lemma FoundAt(s: string, sub: string, p: nat)
    requires Occurs(s, sub, p)
    ensures IndexOf(s, sub).Some? && IndexOf(s, sub).value <= p
  {
  }

  // ---------------------------------------------------------------------
  // Tag lines
  // ---------------------------------------------------------------------

  const Rgbe: string := "32-bit_rle_rgbe"

  /** The line that ends the tag section: empty or a lone newline. */
  predicate IsBlank(line: string)
  {
    line == "" || line == "\n"
  }

  /** The exposure after a tag that scales it. */
  function Times(e: real, f: real): real
  {
    e * f
  }

  /** What one tag line does to the header. */
  datatype TagEffect = Reject | Scale(factor: real) | Ignore

  /**
   * A FORMAT= line must name 32-bit_rle_rgbe after the tag; otherwise an
   * EXPOSURE= line scales the exposure by the number after the tag; every
   * other line is ignored.
   */
  function Tag(line: string, toReal: string -> real): TagEffect
  {
    match IndexOf(line, "FORMAT=")
    case Some(p) => if Contains(line[p + 7..], Rgbe) then Ignore else Reject
    case None =>
      match IndexOf(line, "EXPOSURE=")
      case Some(p) => Scale(toReal(line[p + 9..]))
      case None => Ignore
  }

  /** The exposure after one tag line. */
  function Apply(e: real, t: TagEffect): real
  {
    if t.Scale? then Times(e, t.factor) else e
  }

  /** The factor a tag line contributes, if any. */
  function FactorOf(t: TagEffect): seq<real>
  {
    if t.Scale? then [t.factor] else []
  }

  /**
   * The tag section from line i on, the exposure so far being e: the final
   * exposure and the index of the blank line that ends the section. A
   * rejected FORMAT tag fails. Input that ends before the blank line fails
   * here too; readHeader itself never leaves its loop then, since fgets at
   * the end of the file leaves the previous line in the buffer.
   */
  function ParseTags(lines: seq<string>, i: nat, e: real, toReal: string -> real): Option<(real, nat)>
    decreases |lines| - i
  {
    if i >= |lines| then None
    else if IsBlank(lines[i]) then Some((e, i))
    else
      var t := Tag(lines[i], toReal);
      if t.Reject? then None else ParseTags(lines, i + 1, Apply(e, t), toReal)
  }

  /** The factors of the EXPOSURE tags among the lines, in order. */
  function Factors(lines: seq<string>, toReal: string -> real): seq<real>
  {
    if lines == [] then [] else FactorOf(Tag(lines[0], toReal)) + Factors(lines[1..], toReal)
  }

  function Product(fs: seq<real>): real
  {
    if fs == [] then 1.0 else Times(fs[0], Product(fs[1..]))
  }

  /** Applying a tag and then the remaining factors is applying all of them. */
  lemma ApplyProduct(e: real, t: TagEffect, fs: seq<real>)
    ensures Times(Apply(e, t), Product(fs)) == Times(e, Product(FactorOf(t) + fs))
  {
    if t.Scale? {
      assert (FactorOf(t) + fs)[1..] == fs;
      assert Times(Times(e, t.factor), Product(fs)) == Times(e, Times(t.factor, Product(fs)));
    } else {
      assert FactorOf(t) + fs == fs;
    }
  }

  /**
   * The tag section succeeds exactly when a blank line ends it and no
   * FORMAT tag before that line is rejected; the exposure is then the
   * product of all EXPOSURE factors.
   */
  lemma {:induction false} ParseTagsAccepts(lines: seq<string>, i: nat, e: real, toReal: string -> real, b: nat)
    requires i <= b < |lines| && IsBlank(lines[b])
    requires forall k :: i <= k < b ==> !IsBlank(lines[k]) && !Tag(lines[k], toReal).Reject?
    ensures ParseTags(lines, i, e, toReal) == Some((Times(e, Product(Factors(lines[i..b], toReal))), b))
    decreases b - i
  {
    if i == b {
      assert lines[i..b] == [];
    } else {
      var t := Tag(lines[i], toReal);
      var fs := Factors(lines[i + 1..b], toReal);
      assert !IsBlank(lines[i]) && !t.Reject?;
      assert ParseTags(lines, i, e, toReal) == ParseTags(lines, i + 1, Apply(e, t), toReal);
      ParseTagsAccepts(lines, i + 1, Apply(e, t), toReal, b);
      assert lines[i..b][0] == lines[i] && lines[i..b][1..] == lines[i + 1..b];
      assert Factors(lines[i..b], toReal) == FactorOf(t) + fs;
      ApplyProduct(e, t, fs);
    }
  }

  /** A successful tag section ends at a blank line with no rejected tag before it. */
  lemma {:induction false} ParseTagsSucceeded(lines: seq<string>, i: nat, e: real, toReal: string -> real)
    requires ParseTags(lines, i, e, toReal).Some?
    ensures var b := ParseTags(lines, i, e, toReal).value.1;
      i <= b < |lines| && IsBlank(lines[b]) &&
      forall k :: i <= k < b ==> !IsBlank(lines[k]) && !Tag(lines[k], toReal).Reject?
    decreases |lines| - i
  {
    if !IsBlank(lines[i]) {
      ParseTagsSucceeded(lines, i + 1, Apply(e, Tag(lines[i], toReal)), toReal);
    }
  }

  // ---------------------------------------------------------------------
  // The size line and the reading order
  // ---------------------------------------------------------------------

  /** The range of one axis of extent n, read from its start or from its end. */
  function AxisFor(fromStart: bool, n: int): (a: Axis)
    ensures a.step == 1 || a.step == -1
  {
    if fromStart then Axis(0, n, 1) else Axis(n - 1, -1, -1)
  }

  /**
   * The size line, e.g. "-Y 480 +X 640": when the first token names Y the
   * height comes second and the width fourth, otherwise the reverse; a '+'
   * on the X token reads pixels from the left, a '-' on the Y token reads
   * scanlines from the top. Fewer than four tokens fails here; readHeader
   * reads the missing tokens unchecked, so its behaviour there is undefined.
   */
  function ParseSize(line: string, e: real, tokenize: string -> seq<string>, toInt: string -> int): Option<Header>
  {
    var t := tokenize(line);
    if |t| < 4 then None
    else
      var yFirst := Contains(t[0], "Y");
      var width := toInt(if yFirst then t[3] else t[1]);
      var height := toInt(if yFirst then t[1] else t[3]);
      var fromLeft := Contains(if yFirst then t[2] else t[0], "+");
      var fromTop := Contains(if yFirst then t[0] else t[2], "-");
      var rows := AxisFor(fromTop, height);
      var cols := AxisFor(fromLeft, width);
      Some(Header(e, yFirst, width, height, if yFirst then rows else cols, if yFirst then cols else rows))
  }

  /** readHeader's result: the magic line, the tag section, then the size line. */
  function ParseHeader(lines: seq<string>, tokenize: string -> seq<string>, toInt: string -> int, toReal: string -> real): Option<Header>
  {
    if |lines| == 0 || !Contains(lines[0], "#?") then None
    else
      match ParseTags(lines, 1, 1.0, toReal)
      case None => None
      case Some((e, b)) => if b + 1 < |lines| then ParseSize(lines[b + 1], e, tokenize, toInt) else None
  }

  /** One tag line of readHeader's loop: false for a rejected FORMAT tag, else the new exposure. */
  method ReadTag(line: string, exposure: real, toReal: string -> real) returns (ok: bool, e: real)
    ensures ok <==> !Tag(line, toReal).Reject?
    ensures ok ==> e == Apply(exposure, Tag(line, toReal))
  {
    var p := IndexOf(line, "FORMAT=");
    if p.Some? {
      if IndexOf(line[p.value + 7..], Rgbe).None? {
        return false, exposure;
      }
      return true, exposure;
    }
    var q := IndexOf(line, "EXPOSURE=");
    if q.Some? {
      return true, Times(exposure, toReal(line[q.value + 9..]));
    }
    return true, exposure;
  }

  /** The size line of readHeader: the picture size and the two reading ranges. */
  method ReadSize(line: string, exposure: real, tokenize: string -> seq<string>, toInt: string -> int)
      returns (h: Option<Header>)
    ensures h == ParseSize(line, exposure, tokenize, toInt)
  {
    var t := tokenize(line);
    if |t| < 4 {
      return None;
    }
    var yFirst := IndexOf(t[0], "Y").Some?;
    var w, hi, x, y, f := 3, 1, 2, 0, 0;
    if !yFirst {
      w, hi, x, y, f := 1, 3, 0, 2, 1;
    }
    var width := toInt(t[w]);
    var height := toInt(t[hi]);
    var fromLeft := IndexOf(t[x], "+").Some?;
    var fromTop := IndexOf(t[y], "-").Some?;
    var rows := Axis(0, height, 1);
    var cols := Axis(0, width, 1);
    if !fromLeft {
      cols := Axis(width - 1, -1, -1);
    }
    if !fromTop {
      rows := Axis(height - 1, -1, -1);
    }
    if f == 0 {
      h := Some(Header(exposure, yFirst, width, height, rows, cols));
    } else {
      h := Some(Header(exposure, yFirst, width, height, cols, rows));
    }
  }

  /**
   * readHeader: the magic line, then the tag lines one at a time until the
   * blank line that ends them, then the size line.
   */
  method ReadHeader(lines: seq<string>, tokenize: string -> seq<string>, toInt: string -> int, toReal: string -> real)
      returns (h: Option<Header>)
    ensures h == ParseHeader(lines, tokenize, toInt, toReal)
  {
    if |lines| == 0 || IndexOf(lines[0], "#?").None? {
      return None;
    }
    var exposure := 1.0;
    var i := 1;
    while true
      invariant 1 <= i <= |lines|
      invariant ParseTags(lines, 1, 1.0, toReal) == ParseTags(lines, i, exposure, toReal)
      decreases |lines| - i
    {
      if i == |lines| {
        return None;
      }
      if IsBlank(lines[i]) {
        break;
      }
      var ok;
      ok, exposure := ReadTag(lines[i], exposure, toReal);
      if !ok {
        return None;
      }
      i := i + 1;
    }
    if i + 1 == |lines| {
      return None;
    }
    h := ReadSize(lines[i + 1], exposure, tokenize, toInt);
  }

  /**
   * The loop for (x = min; x != max; x += step) over an axis readHeader set
   * up: it visits every position of the extent exactly once, in increasing
   * order from the start or in decreasing order from the end. Only
   * non-negative extents are covered: with a negative size from the header
   * the loop never meets `max`.
   */
  method Traverse(fromStart: bool, n: nat) returns (visited: seq<int>)
    ensures |visited| == n
    ensures forall i :: 0 <= i < n ==> visited[i] == if fromStart then i else n - 1 - i
    ensures forall i :: 0 <= i < n ==> 0 <= visited[i] < n
    ensures forall i, j :: 0 <= i < j < n ==> visited[i] != visited[j]
  {
    var a := AxisFor(fromStart, n);
    visited := [];
    var x := a.min;
    while x != a.max
      invariant |visited| <= n
      invariant x == if fromStart then |visited| else n - 1 - |visited|
      invariant forall i :: 0 <= i < |visited| ==> visited[i] == if fromStart then i else n - 1 - i
      decreases n - |visited|
    {
      visited := visited + [x];
      x := x + a.step;
    }
  }

  // ---------------------------------------------------------------------
  // writeHeader
  // ---------------------------------------------------------------------

  const Credit: string := "# Image created with YafaRay\n"

  /** The size line writeHeader writes: scanlines top to bottom, pixels left to right. */
  function SizeLine(width: int, height: int, itoa: int -> string): string
  {
    "-Y " + itoa(height) + " +X " + itoa(width) + "\n"
  }

  /**
   * writeHeader: refuses a picture without pixels, and otherwise writes the
   * magic line, a comment, the exposure, the format, the blank line and the
   * size line.
   */
  function WriteHeader(programType: string, exposure: real, width: int, height: int,
                       ftoa: real -> string, itoa: int -> string): (r: Option<seq<string>>)
    ensures r.Some? <==> height > 0 && width > 0
    ensures r.Some? ==> |r.value| == 6 && IsBlank(r.value[4])
  {
    if height <= 0 || width <= 0 then None
    else Some([
      "#?" + programType + "\n",
      Credit,
      "EXPOSURE=" + ftoa(exposure) + "\n",
      "FORMAT=" + Rgbe + "\n",
      "\n",
      SizeLine(width, height, itoa)])
  }

  /** The characters a formatted number may use. */
  predicate Numeral(s: string)
  {
    forall c :: c in s ==> c in "0123456789.-+e"
  }

  /** The exposure line carries the exposure and no FORMAT tag. */
  lemma ExposureLine(digits: string, toReal: string -> real)
    requires Numeral(digits)
    ensures Tag("EXPOSURE=" + digits + "\n", toReal) == Scale(toReal(digits + "\n"))
  {
    var line := "EXPOSURE=" + digits + "\n";
    assert '=' !in "0123456789.-+e";
    forall k ensures !Occurs(line, "FORMAT=", k) {
      if 0 <= k && k + 7 <= |line| {
        if k == 2 {
          assert line[k..k + 7][0] == 'P';
        } else {
          assert line[k..k + 7][6] == line[k + 6];
          if k + 6 < 9 {
            assert line[k + 6] == "EXPOSURE="[k + 6];
          } else if k + 6 < 9 + |digits| {
            assert line[k + 6] == digits[k + 6 - 9];
          } else {
            assert line[k + 6] == '\n';
          }
        }
      }
    }
    assert IndexOf(line, "FORMAT=").None?;
    FoundAt(line, "EXPOSURE=", 0);
    assert line[9..] == digits + "\n";
  }

  /** The comment line carries no tag. */
  lemma CreditIgnored(toReal: string -> real)
    ensures Tag(Credit, toReal) == Ignore
  {
    assert '=' !in Credit;
    MissingCharNotFound(Credit, "FORMAT=", '=');
    MissingCharNotFound(Credit, "EXPOSURE=", '=');
  }

  /** The format line names the RGBE format. */
  lemma FormatAccepted(toReal: string -> real)
    ensures Tag("FORMAT=" + Rgbe + "\n", toReal) == Ignore
  {
    var line := "FORMAT=" + Rgbe + "\n";
    FoundAt(line, "FORMAT=", 0);
    assert line[7..] == Rgbe + "\n";
    FoundAt(line[7..], Rgbe, 0);
  }

  /** A tag section of an ignored line, an exposure line and another ignored line. */
  lemma WrittenTags(lines: seq<string>, exposure: real, toReal: string -> real)
    requires |lines| == 6 && IsBlank(lines[4])
    requires !IsBlank(lines[1]) && !IsBlank(lines[2]) && !IsBlank(lines[3])
    requires Tag(lines[1], toReal) == Ignore && Tag(lines[2], toReal) == Scale(exposure) && Tag(lines[3], toReal) == Ignore
    ensures ParseTags(lines, 1, 1.0, toReal) == Some((exposure, 4))
  {
    forall k | 1 <= k < 4
      ensures !IsBlank(lines[k]) && !Tag(lines[k], toReal).Reject?
    {
      assert k == 1 || k == 2 || k == 3;
    }
    ParseTagsAccepts(lines, 1, 1.0, toReal, 4);
    var tags := lines[1..4];
    assert tags[0] == lines[1] && tags[1] == lines[2] && tags[2] == lines[3];
    WrittenFactors(tags, exposure, toReal);
  }

  /** The three tag lines contribute the exposure as their only factor. */
  lemma WrittenFactors(tags: seq<string>, x: real, toReal: string -> real)
    requires |tags| == 3
    requires Tag(tags[0], toReal) == Ignore && Tag(tags[1], toReal) == Scale(x) && Tag(tags[2], toReal) == Ignore
    ensures Times(1.0, Product(Factors(tags, toReal))) == x
  {
    assert tags[1..][1..][1..] == [];
    assert Factors(tags[1..][1..], toReal) == [];
    assert Factors(tags[1..], toReal) == [x];
    assert Factors(tags, toReal) == [x];
    assert Product([x]) == Times(x, 1.0);
  }

  /** The size line writeHeader writes reads back as the picture size, both axes forwards. */
  lemma SizeLineRoundTrip(e: real, width: int, height: int, itoa: int -> string,
                          tokenize: string -> seq<string>, toInt: string -> int)
    requires toInt(itoa(width)) == width && toInt(itoa(height)) == height
    requires tokenize(SizeLine(width, height, itoa)) == ["-Y", itoa(height), "+X", itoa(width)]
    ensures ParseSize(SizeLine(width, height, itoa), e, tokenize, toInt)
         == Some(Header(e, true, width, height, Axis(0, height, 1), Axis(0, width, 1)))
  {
    FoundAt("-Y", "Y", 1);
    FoundAt("+X", "+", 0);
    FoundAt("-Y", "-", 0);
  }

  /** The tag section writeHeader writes: the exposure, ended by the blank line at index 4. */
  lemma WrittenHeaderTags(lines: seq<string>, programType: string, exposure: real, width: int, height: int,
                          ftoa: real -> string, itoa: int -> string, toReal: string -> real)
    requires height > 0 && width > 0
    requires lines == WriteHeader(programType, exposure, width, height, ftoa, itoa).value
    requires Numeral(ftoa(exposure)) && toReal(ftoa(exposure) + "\n") == exposure
    ensures Contains(lines[0], "#?")
    ensures ParseTags(lines, 1, 1.0, toReal) == Some((exposure, 4))
    ensures lines[5] == SizeLine(width, height, itoa)
  {
    FoundAt(lines[0], "#?", 0);
    CreditIgnored(toReal);
    ExposureLine(ftoa(exposure), toReal);
    FormatAccepted(toReal);
    assert |lines[1]| > 1 && |lines[2]| > 1 && |lines[3]| > 1;
    WrittenTags(lines, exposure, toReal);
  }

  /**
   * What writeHeader writes, readHeader reads back: the exposure, the
   * picture size, scanlines stored first and both axes read forwards,
   * given number conversions that undo each other and a tokenizer that
   * splits the size line at its spaces.
   */
  lemma HeaderRoundTrip(programType: string, exposure: real, width: int, height: int,
                        ftoa: real -> string, itoa: int -> string,
                        tokenize: string -> seq<string>, toInt: string -> int, toReal: string -> real)
    requires height > 0 && width > 0
    requires Numeral(ftoa(exposure)) && toReal(ftoa(exposure) + "\n") == exposure
    requires toInt(itoa(width)) == width && toInt(itoa(height)) == height
    requires tokenize(SizeLine(width, height, itoa)) == ["-Y", itoa(height), "+X", itoa(width)]
    ensures ParseHeader(WriteHeader(programType, exposure, width, height, ftoa, itoa).value, tokenize, toInt, toReal)
         == Some(Header(exposure, true, width, height, Axis(0, height, 1), Axis(0, width, 1)))
  {
    var lines := WriteHeader(programType, exposure, width, height, ftoa, itoa).value;
    WrittenHeaderTags(lines, programType, exposure, width, height, ftoa, itoa, toReal);
    SizeLineRoundTrip(exposure, width, height, itoa, tokenize, toInt);
  }
}
