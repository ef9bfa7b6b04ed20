/**
 * Parameter, the tagged value scene descriptions are built from, and
 * ParamMap, the name-ordered dictionary of parameters.
 *
 * A Parameter holds a type tag and the fields of every type: a string, an
 * int, a bool, a double, and a vector of reals that holds the three
 * components of a Vector, the four r, g, b, a entries of a Color or the
 * sixteen entries of a Matrix row by row. C++ copies a Parameter by value,
 * so here it is a datatype; assignment yields the new value.
 *
 * Number formatting (std::to_string) is a parameter: itoa for ints and
 * ftoa for floating point values.
 */
module Param {

  datatype Type = None | Int | Bool | Float | String | Vector | Color | Matrix

  datatype Vec3 = Vec3(x: real, y: real, z: real)
  datatype Rgb = Rgb(r: real, g: real, b: real)
  datatype Rgba = Rgba(r: real, g: real, b: real, a: real)

  /** A 4x4 matrix, m[i][j] being row i, column j. */
  type Matrix4 = m: seq<seq<real>> | |m| == 4 && |m[0]| == 4 && |m[1]| == 4 && |m[2]| == 4 && |m[3]| == 4
    witness [[0.0, 0.0, 0.0, 0.0], [0.0, 0.0, 0.0, 0.0], [0.0, 0.0, 0.0, 0.0], [0.0, 0.0, 0.0, 0.0]]

  datatype Parameter = Parameter(type_: Type, sval: string, ival: int, bval: bool, fval: real, vval: seq<real>)
  {
    /** The vector entries a Vector, Color or Matrix needs are present. */
    predicate Valid()
    {
      (type_ == Vector ==> |vval| == 3) &&
      (type_ == Color ==> |vval| == 4) &&
      (type_ == Matrix ==> |vval| == 16)
    }
  }

  /** A parameter nothing was stored in: the type tag None and empty fields. */
  const Empty: Parameter := Parameter(None, "", 0, false, 0.0, [])

  /** A parameter whose value vector has the length its type needs. */
  type ValidParameter = p: Parameter | p.Valid() witness Parameter(None, "", 0, false, 0.0, [])

  /** One entry of a parameter map: a key and its parameter. */
  type Entry = (string, ValidParameter)

  // ---------------------------------------------------------------------
  // Constructors
  // ---------------------------------------------------------------------

  function FromString(s: string): (p: Parameter)
    ensures p.Valid() && p.type_ == String && p.sval == s
  {
    Empty.(type_ := String, sval := s)
  }

  function FromInt(i: int): (p: Parameter)
    ensures p.Valid() && p.type_ == Int && p.ival == i
  {
    Empty.(type_ := Int, ival := i)
  }

  function FromBool(b: bool): (p: Parameter)
    ensures p.Valid() && p.type_ == Bool && p.bval == b
  {
    Empty.(type_ := Bool, bval := b)
  }

  /** Both the float and the double constructor store a Float. */
  function FromFloat(f: real): (p: Parameter)
    ensures p.Valid() && p.type_ == Float && p.fval == f
  {
    Empty.(type_ := Float, fval := f)
  }

  function FromVector(v: Vec3): (p: Parameter)
    ensures p.Valid() && p.type_ == Vector
    ensures p.vval[0] == v.x && p.vval[1] == v.y && p.vval[2] == v.z
  {
    Empty.(type_ := Vector, vval := [v.x, v.y, v.z])
  }

  function FromColor(c: Rgba): (p: Parameter)
    ensures p.Valid() && p.type_ == Color
    ensures p.vval[0] == c.r && p.vval[1] == c.g && p.vval[2] == c.b && p.vval[3] == c.a
  {
    Empty.(type_ := Color, vval := [c.r, c.g, c.b, c.a])
  }

  /** The matrix constructor: sixteen entries filled row by row, m[i][j] at i*4+j. */
  method FromMatrix(m: Matrix4) returns (p: Parameter)
    ensures p.Valid() && p.type_ == Matrix
    ensures forall i, j :: 0 <= i < 4 && 0 <= j < 4 ==> p.vval[i * 4 + j] == m[i][j]
  {
    var vval := seq(16, _ => 0.0);
    for i := 0 to 4
      invariant |vval| == 16
      invariant forall r, c :: 0 <= r < i && 0 <= c < 4 ==> vval[r * 4 + c] == m[r][c]
    {
      for j := 0 to 4
        invariant |vval| == 16
        invariant forall r, c :: 0 <= r < i && 0 <= c < 4 ==> vval[r * 4 + c] == m[r][c]
        invariant forall c :: 0 <= c < j ==> vval[i * 4 + c] == m[i][c]
      {
        vval := vval[i * 4 + j := m[i][j]];
      }
    }
    p := Empty.(type_ := Matrix, vval := vval);
  }

  // ---------------------------------------------------------------------
  // getVal: the value when the type matches, else the caller's value kept
  // ---------------------------------------------------------------------

  /** getVal(std::string &). */
  function GetString(p: Parameter, s0: string): (r: (bool, string))
    ensures r.0 <==> p.type_ == String
    ensures r.1 == if r.0 then p.sval else s0
  {
    if p.type_ == String then (true, p.sval) else (false, s0)
  }

  /** getVal(int &). */
  function GetInt(p: Parameter, i0: int): (r: (bool, int))
    ensures r.0 <==> p.type_ == Int
    ensures r.1 == if r.0 then p.ival else i0
  {
    if p.type_ == Int then (true, p.ival) else (false, i0)
  }

  /** getVal(bool &). */
  function GetBool(p: Parameter, b0: bool): (r: (bool, bool))
    ensures r.0 <==> p.type_ == Bool
    ensures r.1 == if r.0 then p.bval else b0
  {
    if p.type_ == Bool then (true, p.bval) else (false, b0)
  }

  /** getVal(double &); the float overload also rounds to single precision. */
  function GetFloat(p: Parameter, f0: real): (r: (bool, real))
    ensures r.0 <==> p.type_ == Float
    ensures r.1 == if r.0 then p.fval else f0
  {
    if p.type_ == Float then (true, p.fval) else (false, f0)
  }

  /** getVal(Vec3 &). */
  function GetVector(p: Parameter, v0: Vec3): (r: (bool, Vec3))
    requires p.Valid()
    ensures r.0 <==> p.type_ == Vector
    ensures r.0 ==> r.1 == Vec3(p.vval[0], p.vval[1], p.vval[2])
    ensures !r.0 ==> r.1 == v0
  {
    if p.type_ == Vector then (true, Vec3(p.vval[0], p.vval[1], p.vval[2])) else (false, v0)
  }

  /** getVal(Rgb &): the first three entries; alpha is not read. */
  function GetRgb(p: Parameter, c0: Rgb): (r: (bool, Rgb))
    requires p.Valid()
    ensures r.0 <==> p.type_ == Color
    ensures r.0 ==> r.1 == Rgb(p.vval[0], p.vval[1], p.vval[2])
    ensures !r.0 ==> r.1 == c0
  {
    if p.type_ == Color then (true, Rgb(p.vval[0], p.vval[1], p.vval[2])) else (false, c0)
  }

  /** getVal(Rgba &). */
  function GetRgba(p: Parameter, c0: Rgba): (r: (bool, Rgba))
    requires p.Valid()
    ensures r.0 <==> p.type_ == Color
    ensures r.0 ==> r.1 == Rgba(p.vval[0], p.vval[1], p.vval[2], p.vval[3])
    ensures !r.0 ==> r.1 == c0
  {
    if p.type_ == Color then (true, Rgba(p.vval[0], p.vval[1], p.vval[2], p.vval[3])) else (false, c0)
  }

  /** getVal(Matrix4 &): entry i*4+j into m[i][j], row by row. */
  method GetMatrix(p: Parameter, m0: Matrix4) returns (ok: bool, m: Matrix4)
    requires p.Valid()
    ensures ok <==> p.type_ == Matrix
    ensures ok ==> forall i, j :: 0 <= i < 4 && 0 <= j < 4 ==> m[i][j] == p.vval[i * 4 + j]
    ensures !ok ==> m == m0
  {
    if p.type_ != Matrix {
      return false, m0;
    }
    m := m0;
    for i := 0 to 4
      invariant forall r, c :: 0 <= r < i && 0 <= c < 4 ==> m[r][c] == p.vval[r * 4 + c]
    {
      for j := 0 to 4
        invariant forall r, c :: 0 <= r < i && 0 <= c < 4 ==> m[r][c] == p.vval[r * 4 + c]
        invariant forall c :: 0 <= c < j ==> m[i][c] == p.vval[i * 4 + c]
      {
        m := m[i := m[i][j := p.vval[i * 4 + j]]];
      }
    }
    ok := true;
  }

  /** Each constructor's value is what the getter of its type gives back. */
  lemma ConstructThenGet(s: string, i: int, b: bool, f: real, v: Vec3, c: Rgba,
                         s0: string, i0: int, b0: bool, f0: real, v0: Vec3, c0: Rgba, rgb0: Rgb)
    ensures GetString(FromString(s), s0) == (true, s)
    ensures GetInt(FromInt(i), i0) == (true, i)
    ensures GetBool(FromBool(b), b0) == (true, b)
    ensures GetFloat(FromFloat(f), f0) == (true, f)
    ensures GetVector(FromVector(v), v0) == (true, v)
    ensures GetRgba(FromColor(c), c0) == (true, c)
    ensures GetRgb(FromColor(c), rgb0) == (true, Rgb(c.r, c.g, c.b))
  {
  }

  /** A matrix stored and read back is the same matrix. */
  method MatrixRoundTrip(m: Matrix4, m0: Matrix4) returns (ok: bool, back: Matrix4)
    ensures ok && back == m
  {
    var p := FromMatrix(m);
    ok, back := GetMatrix(p, m0);
    assert forall i :: 0 <= i < 4 ==> back[i] == m[i];
  }

  // ---------------------------------------------------------------------
  // operator=
  // ---------------------------------------------------------------------

  /** The values a Parameter can be assigned. */
  datatype Value =
    | StringV(s: string) | IntV(i: int) | BoolV(b: bool) | FloatV(f: real)
    | VectorV(v: Vec3) | RgbV(rgb: Rgb) | RgbaV(rgba: Rgba) | MatrixV(m: Matrix4)

  /** The type an assignment of v leaves. */
  function TypeOf(v: Value): Type
  {
    match v
    case StringV(_) => String
    case IntV(_) => Int
    case BoolV(_) => Bool
    case FloatV(_) => Float
    case VectorV(_) => Vector
    case RgbV(_) => Color
    case RgbaV(_) => Color
    case MatrixV(_) => Matrix
  }

  /** The sixteen entries of a matrix, row by row. */
  function Flatten(m: Matrix4): (vs: seq<real>)
    ensures |vs| == 16
    ensures forall i, j :: 0 <= i < 4 && 0 <= j < 4 ==> vs[i * 4 + j] == m[i][j]
  {
    m[0] + m[1] + m[2] + m[3]
  }

  /**
   * operator=: a change of type switches the tag and clears the fields the
   * new type does not use (a string assignment clears only the vector,
   * vector-valued assignments reshape it); then the value is stored. An Rgb
   * is stored with alpha 1.
   */
  function Assign(p: Parameter, v: Value): (q: Parameter)
    ensures q.Valid() && q.type_ == TypeOf(v)
  {
    var changed := p.type_ != TypeOf(v);
    match v
    case StringV(s) => (if changed then p.(type_ := String, vval := []) else p).(sval := s)
    case IntV(i) => (if changed then p.(type_ := Int, vval := [], sval := "") else p).(ival := i)
    case BoolV(b) => (if changed then p.(type_ := Bool, vval := [], sval := "") else p).(bval := b)
    case FloatV(f) => (if changed then p.(type_ := Float, vval := [], sval := "") else p).(fval := f)
    case VectorV(x) => (if changed then p.(type_ := Vector, sval := "") else p).(vval := [x.x, x.y, x.z])
    case RgbV(c) => (if changed then p.(type_ := Color, sval := "") else p).(vval := [c.r, c.g, c.b, 1.0])
    case RgbaV(c) => (if changed then p.(type_ := Color, sval := "") else p).(vval := [c.r, c.g, c.b, c.a])
    case MatrixV(m) => (if changed then p.(type_ := Matrix, sval := "") else p).(vval := Flatten(m))
  }

  /**
   * After an assignment the getter of the assigned type gives the assigned
   * value back, and the getter of any other type fails.
   */
  lemma AssignThenGet(p: Parameter, v: Value, s0: string, i0: int, b0: bool, f0: real, x0: Vec3, c0: Rgba)
    ensures var q := Assign(p, v);
      (GetString(q, s0).0 <==> v.StringV?) &&
      (GetInt(q, i0).0 <==> v.IntV?) &&
      (GetBool(q, b0).0 <==> v.BoolV?) &&
      (GetFloat(q, f0).0 <==> v.FloatV?) &&
      (GetVector(q, x0).0 <==> v.VectorV?) &&
      (GetRgba(q, c0).0 <==> v.RgbV? || v.RgbaV?)
    ensures v.StringV? ==> GetString(Assign(p, v), s0).1 == v.s
    ensures v.IntV? ==> GetInt(Assign(p, v), i0).1 == v.i
    ensures v.BoolV? ==> GetBool(Assign(p, v), b0).1 == v.b
    ensures v.FloatV? ==> GetFloat(Assign(p, v), f0).1 == v.f
    ensures v.VectorV? ==> GetVector(Assign(p, v), x0).1 == v.v
    ensures v.RgbaV? ==> GetRgba(Assign(p, v), c0).1 == v.rgba
    ensures v.RgbV? ==> GetRgba(Assign(p, v), c0).1 == Rgba(v.rgb.r, v.rgb.g, v.rgb.b, 1.0)
  {
  }

  /** Assigning a matrix stores it row by row. */
  lemma AssignMatrix(p: Parameter, m: Matrix4)
    ensures forall i, j :: 0 <= i < 4 && 0 <= j < 4 ==> Assign(p, MatrixV(m)).vval[i * 4 + j] == m[i][j]
  {
  }

  // ---------------------------------------------------------------------
  // print and printType
  // ---------------------------------------------------------------------

  /** printType: the name of the type tag. */
  function PrintType(p: Parameter): (s: string)
    ensures p.type_ == None <==> s == "None/Unknown"
  {
    match p.type_
    case Int => "Int"
    case Bool => "Bool"
    case Float => "Float"
    case String => "String"
    case Vector => "Vector"
    case Color => "Color"
    case Matrix => "Matrix"
    case None => "None/Unknown"
  }

  /** Distinct type tags print as distinct names. */
  lemma PrintTypeInjective(p: Parameter, q: Parameter)
    ensures PrintType(p) == PrintType(q) <==> p.type_ == q.type_
  {
  }

  /** A bool prints as "true" or "false". */
  function PrintBool(b: bool): (s: string)
    ensures s == "true" || s == "false"
    ensures s == "true" <==> b
  {
    if b then "true" else "false"
  }

  /** print of a Vector as written: the y slot shows the x component. */
  function PrintVectorAsWritten(v: Vec3, ftoa: real -> string): string
  {
    "(x:" + ftoa(v.x) + ", y:" + ftoa(v.x) + ", z:" + ftoa(v.z) + ")"
  }

  /** As written, vectors that differ only in y print the same. */
  lemma PrintVectorLosesY(ftoa: real -> string)
    ensures PrintVectorAsWritten(Vec3(1.0, 2.0, 3.0), ftoa) == PrintVectorAsWritten(Vec3(1.0, 5.0, 3.0), ftoa)
  {
  }

  /**
   * print itself shows the x component in the y slot: a stored vector's
   * text never depends on its y component.
   */
  lemma PrintIgnoresY(v: Vec3, y: real, itoa: int -> string, ftoa: real -> string)
    ensures PrintSpec(FromVector(v), itoa, ftoa) == PrintSpec(FromVector(v.(y := y)), itoa, ftoa)
    ensures PrintSpec(FromVector(v), itoa, ftoa) == PrintVectorAsWritten(v, ftoa)
  {
  }

  /** print of a Vector with its y component in the y slot. */
  function PrintVector(v: Vec3, ftoa: real -> string): string
  {
    "(x:" + ftoa(v.x) + ", y:" + ftoa(v.y) + ", z:" + ftoa(v.z) + ")"
  }

  /**
   * Each component is printed in its own slot: two vectors with the same
   * text have components with the same text.
   */
  lemma PrintVectorFaithful(v: Vec3, w: Vec3, ftoa: real -> string)
    requires |ftoa(v.x)| == |ftoa(w.x)| && |ftoa(v.y)| == |ftoa(w.y)|
    requires PrintVector(v, ftoa) == PrintVector(w, ftoa)
    ensures ftoa(v.x) == ftoa(w.x) && ftoa(v.y) == ftoa(w.y) && ftoa(v.z) == ftoa(w.z)
  {
    var a, b := PrintVector(v, ftoa), PrintVector(w, ftoa);
    var x, y := |ftoa(v.x)|, |ftoa(v.y)|;
    assert a[3..3 + x] == ftoa(v.x) && b[3..3 + x] == ftoa(w.x);
    assert a[7 + x..7 + x + y] == ftoa(v.y) && b[7 + x..7 + x + y] == ftoa(w.y);
    assert a[11 + x + y..|a| - 1] == ftoa(v.z) && b[11 + x + y..|b| - 1] == ftoa(w.z);
  }

  /** One matrix entry: "m<i>,<j>:<value>". */
  function MatrixEntry(i: int, j: int, x: real, itoa: int -> string, ftoa: real -> string): string
  {
    "m" + itoa(i) + "," + itoa(j) + ":" + ftoa(x)
  }

  /** The separator print writes after entry (i, j): only when neither index is 3. */
  function Separator(i: int, j: int): string
  {
    if i != 3 && j != 3 then ", " else ""
  }

  /** The text print writes for a matrix up to its k-th entry: "(" and then each entry with its separator, in row order. */
  function MatrixText(vs: seq<real>, k: nat, itoa: int -> string, ftoa: real -> string): string
    requires k <= 16 && |vs| == 16
  {
    if k == 0 then "("
    else MatrixText(vs, k - 1, itoa, ftoa) + MatrixEntry((k - 1) / 4, (k - 1) % 4, vs[k - 1], itoa, ftoa) + Separator((k - 1) / 4, (k - 1) % 4)
  }

  /** Entry (i, j) is entry i * 4 + j in row order. */
  lemma MatrixTextStep(vs: seq<real>, i: nat, j: nat, itoa: int -> string, ftoa: real -> string)
    requires i < 4 && j < 4 && |vs| == 16
    ensures MatrixText(vs, i * 4 + j + 1, itoa, ftoa)
         == MatrixText(vs, i * 4 + j, itoa, ftoa) + MatrixEntry(i, j, vs[i * 4 + j], itoa, ftoa) + Separator(i, j)
  {
    var k := i * 4 + j;
    assert k / 4 == i && k % 4 == j;
  }

  /** One pass of print's inner loop: the four entries of row i appended. */
  method PrintRow(vs: seq<real>, i: nat, prefix: string, itoa: int -> string, ftoa: real -> string) returns (result: string)
    requires i < 4 && |vs| == 16
    requires prefix == MatrixText(vs, i * 4, itoa, ftoa)
    ensures result == MatrixText(vs, i * 4 + 4, itoa, ftoa)
  {
    result := prefix;
    for j := 0 to 4
      invariant result == MatrixText(vs, i * 4 + j, itoa, ftoa)
    {
      MatrixTextStep(vs, i, j, itoa, ftoa);
      var entry := MatrixEntry(i, j, vs[i * 4 + j], itoa, ftoa);
      result := result + entry;
      ghost var withEntry := result;
      if i != 3 && j != 3 {
        result := result + ", ";
        assert result == withEntry + Separator(i, j);
      } else {
        assert result == withEntry + Separator(i, j) by {
          assert Separator(i, j) == [];
        }
      }
    }
  }

  /** print of a Matrix: "(" and the entries row by row; no closing parenthesis is written. */
  method PrintMatrix(p: Parameter, itoa: int -> string, ftoa: real -> string) returns (result: string)
    requires p.Valid() && p.type_ == Matrix
    ensures result == MatrixText(p.vval, |p.vval|, itoa, ftoa)
  {
    result := "(";
    for i := 0 to 4
      invariant result == MatrixText(p.vval, i * 4, itoa, ftoa)
    {
      result := PrintRow(p.vval, i, result, itoa, ftoa);
    }
  }

  /** print: the value as text; a parameter of no type prints as "". */
  method PrintValue(p: Parameter, itoa: int -> string, ftoa: real -> string) returns (s: string)
    requires p.Valid()
    ensures p.type_ == Int ==> s == itoa(p.ival)
    ensures p.type_ == Bool ==> s == PrintBool(p.bval)
    ensures p.type_ == Float ==> s == ftoa(p.fval)
    ensures p.type_ == String ==> s == p.sval
    ensures p.type_ == Vector ==> s == PrintVectorAsWritten(Vec3(p.vval[0], p.vval[1], p.vval[2]), ftoa)
    ensures p.type_ == Color ==> s == "(r:" + ftoa(p.vval[0]) + ", g:" + ftoa(p.vval[1]) + ", b:" + ftoa(p.vval[2]) + ", a:" + ftoa(p.vval[3]) + ")"
    ensures p.type_ == Matrix ==> s == MatrixText(p.vval, |p.vval|, itoa, ftoa)
    ensures p.type_ == None ==> s == ""
    ensures s == PrintSpec(p, itoa, ftoa)
  {
    match p.type_
    case Int => s := itoa(GetInt(p, 0).1);
    case Bool => s := PrintBool(GetBool(p, false).1);
    case Float => s := ftoa(GetFloat(p, 0.0).1);
    case String => s := GetString(p, "").1;
    case Vector => s := PrintVectorAsWritten(GetVector(p, Vec3(0.0, 0.0, 0.0)).1, ftoa);
    case Color =>
      var c := GetRgba(p, Rgba(0.0, 0.0, 0.0, 0.0)).1;
      s := "(r:" + ftoa(c.r) + ", g:" + ftoa(c.g) + ", b:" + ftoa(c.b) + ", a:" + ftoa(c.a) + ")";
    case Matrix => s := PrintMatrix(p, itoa, ftoa);
    case None => s := "";
  }

  // ---------------------------------------------------------------------
  // ParamMap: a std::map, so iterated in increasing key order
  // ---------------------------------------------------------------------

  /** std::string's ordering: lexicographic by character. */
  predicate Less(a: string, b: string)
  {
    if |a| == 0 then |b| > 0
    else if |b| == 0 then false
    else if a[0] != b[0] then a[0] < b[0]
    else Less(a[1..], b[1..])
  }

  lemma {:induction false} LessIrreflexive(a: string)
    ensures !Less(a, a)
  {
    if |a| > 0 {
      LessIrreflexive(a[1..]);
    }
  }

  lemma {:induction false} LessTransitive(a: string, b: string, c: string)
    requires Less(a, b) && Less(b, c)
    ensures Less(a, c)
  {
    if |a| > 0 && |b| > 0 && |c| > 0 && a[0] == b[0] && b[0] == c[0] {
      LessTransitive(a[1..], b[1..], c[1..]);
    }
  }

  lemma {:induction false} LessTotal(a: string, b: string)
    requires a != b
    ensures Less(a, b) || Less(b, a)
  {
    if |a| > 0 && |b| > 0 && a[0] == b[0] {
      assert a == [a[0]] + a[1..] && b == [b[0]] + b[1..];
      LessTotal(a[1..], b[1..]);
    }
  }

  /** Keys in strictly increasing order. */
  predicate Sorted(keys: seq<string>)
  {
    forall i, j :: 0 <= i < j < |keys| ==> Less(keys[i], keys[j])
  }

  /** One line of ParamMap::print: 'name' (Type) = 'value'. */
  function Line(name: string, typeName: string, value: string): string
  {
    "'" + name + "' (" + typeName + ") = '" + value + "'\n"
  }

  class ParamMap {
    /** The keys in map order, and the parameter stored under each. */
    var keys: seq<string>
    var params: map<string, Parameter>

    ghost predicate Valid()
      reads this
    {
      Sorted(keys) && (forall k :: k in params <==> k in keys) &&
      forall k :: k in params ==> params[k].Valid()
    }

    constructor()
      ensures Valid() && keys == [] && params == map[]
    {
      keys, params := [], map[];
    }

    /** clear: no parameters are left. */
    method Clear()
      modifies this
      ensures Valid() && keys == [] && params == map[]
    {
      keys, params := [], map[];
    }

    /**
     * operator[]: the parameter under key, inserting an empty one, at its
     * place in key order, when the key is new.
     */
    method Index(key: string) returns (p: Parameter)
      requires Valid()
      modifies this
      ensures Valid()
      ensures p == if key in old(params) then old(params)[key] else Empty
      ensures params == old(params)[key := p]
      ensures forall k :: k in keys <==> k in old(keys) || k == key
    {
      var i := 0;
      while i < |keys| && Less(keys[i], key)
        invariant 0 <= i <= |keys|
        invariant forall j :: 0 <= j < i ==> Less(keys[j], key)
      {
        i := i + 1;
      }
      if i < |keys| && keys[i] == key {
        return params[key];
      }
      if i < |keys| {
        LessTotal(key, keys[i]);
        forall j | i < j < |keys|
          ensures Less(key, keys[j])
        {
          LessTransitive(key, keys[i], keys[j]);
        }
      }
      LessIrreflexive(key);
      keys := keys[..i] + [key] + keys[i..];
      params := params[key := Empty];
      p := Empty;
    }

    /**
     * operator[] followed by operator=: the parameter under key (a fresh
     * one when the key is new) is assigned v; no other entry changes.
     */
    method Set(key: string, v: Value)
      requires Valid()
      modifies this
      ensures Valid()
      ensures params == old(params)[key := Assign(if key in old(params) then old(params)[key] else Empty, v)]
      ensures forall k :: k in keys <==> k in old(keys) || k == key
    {
      var p := Index(key);
      params := params[key := Assign(p, v)];
    }

    /** The entries in map order: each key with its parameter. */
    function Entries(): (es: seq<Entry>)
      reads this
      requires Valid()
      ensures |es| == |keys|
      ensures forall i :: 0 <= i < |es| ==> es[i].0 == keys[i] && es[i].1 == params[keys[i]]
    {
      var ks, ps := keys, params;
      seq(|ks|, i requires 0 <= i < |ks| && ks[i] in ps => (ks[i], ps[ks[i]]))
    }

    /** print: one line per key, in increasing key order. */
    method Print(itoa: int -> string, ftoa: real -> string) returns (result: string)
      requires Valid()
      ensures result == EntriesText(Entries(), |keys|, itoa, ftoa)
    {
      result := PrintEntries(Entries(), itoa, ftoa);
    }
  }

  /** The text of ParamMap::print for the first k entries: one line each, in order. */
  function EntriesText(es: seq<Entry>, k: nat, itoa: int -> string, ftoa: real -> string): string
    requires k <= |es|
  {
    if k == 0 then ""
    else EntriesText(es, k - 1, itoa, ftoa) + Line(es[k - 1].0, PrintType(es[k - 1].1), PrintSpec(es[k - 1].1, itoa, ftoa))
  }

  lemma EntriesTextStep(es: seq<Entry>, i: nat, itoa: int -> string, ftoa: real -> string)
    requires i < |es|
    ensures EntriesText(es, i + 1, itoa, ftoa) == EntriesText(es, i, itoa, ftoa) + Line(es[i].0, PrintType(es[i].1), PrintSpec(es[i].1, itoa, ftoa))
  {
  }

  /** The loop of ParamMap::print over the entries in map order. */
  method PrintEntries(es: seq<Entry>, itoa: int -> string, ftoa: real -> string) returns (result: string)
    ensures result == EntriesText(es, |es|, itoa, ftoa)
  {
    result := "";
    for i := 0 to |es|
      invariant result == EntriesText(es, i, itoa, ftoa)
    {
      var value := PrintValue(es[i].1, itoa, ftoa);
      EntriesTextStep(es, i, itoa, ftoa);
      result := result + Line(es[i].0, PrintType(es[i].1), value);
    }
  }

  /** The text print gives, as a function. */
  function PrintSpec(p: Parameter, itoa: int -> string, ftoa: real -> string): string
    requires p.Valid()
  {
    match p.type_
    case Int => itoa(p.ival)
    case Bool => PrintBool(p.bval)
    case Float => ftoa(p.fval)
    case String => p.sval
    case Vector => PrintVectorAsWritten(Vec3(p.vval[0], p.vval[1], p.vval[2]), ftoa)
    case Color => "(r:" + ftoa(p.vval[0]) + ", g:" + ftoa(p.vval[1]) + ", b:" + ftoa(p.vval[2]) + ", a:" + ftoa(p.vval[3]) + ")"
    case Matrix => MatrixText(p.vval, |p.vval|, itoa, ftoa)
    case None => ""
  }
}
