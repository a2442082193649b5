/** JavaScript values as the planner's screens see them: the primitives stored
    in task records and form fields, records as string-keyed maps, and the
    coercions the screens rely on (Number(), truthiness, `||`, `===`, trim). */
module JsValues {

  /** The outcome of Number(): a finite number or NaN. */
  datatype Num = Real(value: real) | NaN

  /** A JavaScript primitive. A string carries, next to its text, the number
      Number() reads from it; that grammar is an input of the model, except
      that a blank string always reads as 0 (see ToNumber). */
  datatype JsValue =
    | Undefined
    | Null
    | Bool(b: bool)
    | Number(n: Num)
    | Str(text: string, numeral: Num)

  /** A value that may be null: an edited task, a prompt answer, a fetched row. */
  datatype Option<T> = None | Some(value: T)

  /** A JavaScript object with primitive properties: task rows, form data. */
  type Object = map<string, JsValue>

  /** A string literal of the source that is not a numeral ('Tempo Livre', '#3b82f6', ''). */
  function Text(s: string): JsValue
  {
    Str(s, NaN)
  }

  /** A number literal of the source. */
  function Lit(r: real): JsValue
  {
    Number(Real(r))
  }

  /** Property access `o.k`: a missing property reads as undefined. */
  function Get(o: Object, k: string): JsValue
  {
    if k in o then o[k] else Undefined
  }

  /** The characters String.prototype.trim and Number() strip: white space and line terminators. */
  predicate IsWhitespace(c: char)
  {
    c == ' ' || c == '\t' || c == '\n' || c == '\r' || c == '\U{000B}' || c == '\U{000C}'
    || c == '\U{00A0}' || c == '\U{1680}' || ('\U{2000}' <= c <= '\U{200A}')
    || c == '\U{2028}' || c == '\U{2029}' || c == '\U{202F}' || c == '\U{205F}'
    || c == '\U{3000}' || c == '\U{FEFF}'
  }

  predicate IsBlank(s: string)
  {
    forall i :: 0 <= i < |s| ==> IsWhitespace(s[i])
  }

  /** Number(v). */
  function ToNumber(v: JsValue): Num
  {
    match v
    case Undefined => NaN
    case Null => Real(0.0)
    case Bool(b) => Real(if b then 1.0 else 0.0)
    case Number(n) => n
    case Str(s, n) => if IsBlank(s) then Real(0.0) else n
  }

  /** Boolean(v): the falsy values are undefined, null, false, 0, NaN and ''. */
  predicate Truthy(v: JsValue)
  {
    match v
    case Undefined => false
    case Null => false
    case Bool(b) => b
    case Number(n) => n.Real? && n.value != 0.0
    case Str(s, _) => s != ""
  }

  /** `a || b`: the left operand when it is truthy, otherwise the right one. */
  function Or(a: JsValue, b: JsValue): JsValue
  {
    if Truthy(a) then a else b
  }

  /** `Number(v) || 0`, the number the screens use wherever a value may not be numeric. */
  function NumberOrZero(v: JsValue): real
  {
    match ToNumber(v)
    case Real(r) => r
    case NaN => 0.0
  }

  /** NumberOrZero is exactly what `Number(v) || 0` evaluates to, and it is 0
      precisely when Number(v) is 0 or NaN. */
  lemma NumberOrZeroIsOrZero(v: JsValue)
    ensures Or(Number(ToNumber(v)), Lit(0.0)) == Lit(NumberOrZero(v))
    ensures NumberOrZero(v) == 0.0 <==> !Truthy(Number(ToNumber(v)))
  {
  }

  /** `a === b`: primitives of one type with the same value; NaN equals nothing. */
  predicate StrictEquals(a: JsValue, b: JsValue)
  {
    match (a, b)
    case (Undefined, Undefined) => true
    case (Null, Null) => true
    case (Bool(x), Bool(y)) => x == y
    case (Number(Real(x)), Number(Real(y))) => x == y
    case (Str(s, _), Str(t, _)) => s == t
    case _ => false
  }

  /** `===` is symmetric, and a value other than NaN is strictly equal to itself. */
  lemma StrictEqualsSymmetric(a: JsValue, b: JsValue)
    ensures StrictEquals(a, b) <==> StrictEquals(b, a)
    ensures StrictEquals(a, a) <==> a != Number(NaN)
  {
  }

  /** s.replace(/^\s+/, ''): the leading white space removed. */
  function TrimStart(s: string): (r: string)
    ensures |r| <= |s| && r == s[|s| - |r|..]
    ensures r == [] || !IsWhitespace(r[0])
    ensures IsBlank(s[..|s| - |r|])
  {
    if s != [] && IsWhitespace(s[0]) then TrimStart(s[1..]) else s
  }

  /** s.replace(/\s+$/, ''): the trailing white space removed. */
  function TrimEnd(s: string): (r: string)
    ensures |r| <= |s| && r == s[..|r|]
    ensures r == [] || !IsWhitespace(r[|r| - 1])
    ensures IsBlank(s[|r|..])
  {
    if s != [] && IsWhitespace(s[|s| - 1]) then TrimEnd(s[..|s| - 1]) else s
  }

  /** String.prototype.trim. */
  function Trim(s: string): string
  {
    TrimEnd(TrimStart(s))
  }

  /** `!s.trim()` holds exactly for the strings made only of white space. */
  lemma {:induction false} TrimEmptyIffBlank(s: string)
    ensures Trim(s) == "" <==> IsBlank(s)
  {
    var t := TrimStart(s);
    if Trim(s) == "" {
      assert t[0..] == t;
      assert t == [];
      forall i | 0 <= i < |s| ensures IsWhitespace(s[i]) {
        assert s[i] == s[..|s|][i];
      }
    } else {
      var r := Trim(s);
      assert r == t[..|r|];
      assert !IsWhitespace(r[|r| - 1]);
      assert s[|s| - |t| + |r| - 1] == r[|r| - 1];
    }
  }
}
