/** JavaScript values and the few JavaScript operators the ClubWise client relies on:
    truthiness, `||`, optional chaining, strict equality, template-string conversion,
    default parameters and `String.prototype.trim`. */
module JsValue {

  datatype Option<+T> = None | Some(value: T)

  /** A JavaScript value as the client sees it. Numbers are integers (the client only
      counts and compares lengths). A `Blob` is a File picked in a file input; a `Form`
      is a `FormData` object, kept as the list of its appended entries. */
  datatype Value =
    | Undefined
    | Null
    | Bool(b: bool)
    | Num(n: int)
    | Str(s: string)
    | Arr(elems: seq<Value>)
    | Obj(fields: map<string, Value>)
    | Blob(fileName: string)
    | Form(entries: seq<Entry>)

  datatype Entry = Entry(name: string, value: Value)

  /** A plain object whose fields are the given texts, such as the state of a form. */
  function TextObject(m: map<string, string>): (v: Value)
    ensures v.Obj? && v.fields.Keys == m.Keys
    ensures forall k :: k in m ==> v.fields[k] == Str(m[k])
  {
    Obj(map k | k in m :: Str(m[k]))
  }

  /** `!!v`: undefined, null, false, 0 and "" are falsy, everything else is truthy. */
  predicate Truthy(v: Value) {
    match v
    case Undefined => false
    case Null => false
    case Bool(b) => b
    case Num(n) => n != 0
    case Str(s) => s != ""
    case _ => true
  }

  /** `a || b`: the first operand when it is truthy, else the second. */
  function Or(a: Value, b: Value): (r: Value)
    ensures Truthy(a) ==> r == a
    ensures !Truthy(a) ==> r == b
    ensures Truthy(r) <==> Truthy(a) || Truthy(b)
  {
    if Truthy(a) then a else b
  }

  /** `v?.key`: an own field of an object, `undefined` for everything else. */
  function Get(v: Value, key: string): (r: Value)
    ensures r != Undefined ==> v.Obj? && key in v.fields && r == v.fields[key]
  {
    if v.Obj? && key in v.fields then v.fields[key] else Undefined
  }

  /** Whether `v.key` (without `?.`) throws a TypeError: it does exactly on null and undefined. */
  predicate AccessThrows(v: Value) {
    v.Undefined? || v.Null?
  }

  /** The value a TypeError carries when thrown: an object without a `response` field. */
  const TypeErrorValue: Value := Obj(map["name" := Str("TypeError")])

  /** A parameter with a default: the default replaces `undefined` only, never `null`. */
  function Default(arg: Value, fallback: Value): (r: Value)
    ensures arg != Undefined ==> r == arg
    ensures arg == Undefined ==> r == fallback
  {
    if arg.Undefined? then fallback else arg
  }

  /** `a === b` on the primitive values. Objects, arrays and files are compared by
      identity in JavaScript, which the model does not track: they are never equal here. */
  predicate StrictEq(a: Value, b: Value) {
    a == b && IsPrimitive(a)
  }

  /** The values compared by content: everything but arrays, objects and files. */
  predicate IsPrimitive(v: Value) {
    !v.Arr? && !v.Obj? && !v.Blob? && !v.Form?
  }

  function DigitChar(d: nat): char
    requires d < 10
  {
    "0123456789"[d]
  }

  /** Decimal text of a natural number, most significant digit first. */
  function NatText(n: nat): (t: string)
    ensures |t| >= 1
    ensures forall i :: 0 <= i < |t| ==> '0' <= t[i] <= '9'
  {
    if n < 10 then [DigitChar(n)] else NatText(n / 10) + [DigitChar(n % 10)]
  }

  /** `${v}`: the text a value turns into inside a template literal (and as a property key). */
  function TemplateText(v: Value): (t: string)
    ensures v.Str? ==> t == v.s
  {
    match v
    case Undefined => "undefined"
    case Null => "null"
    case Bool(b) => if b then "true" else "false"
    case Num(n) => if n < 0 then "-" + NatText(-n) else NatText(n)
    case Str(s) => s
    case Arr(elems) => JoinText(elems)
    case Obj(_) => "[object Object]"
    case Blob(_) => "[object File]"
    case Form(_) => "[object FormData]"
  }

  /** `elems.join(",")`, where null and undefined elements contribute the empty text. */
  function JoinText(elems: seq<Value>): string
  {
    if elems == [] then ""
    else
      var head := if elems[0].Undefined? || elems[0].Null? then "" else TemplateText(elems[0]);
      if |elems| == 1 then head else head + "," + JoinText(elems[1..])
  }

  /** The characters `String.prototype.trim` removes: ECMAScript WhiteSpace (tab, vertical tab,
      form feed, space, no-break space, byte order mark and the Unicode space separators) and
      LineTerminator (line feed, carriage return, line and paragraph separators). */
  predicate IsWhiteSpace(c: char) {
    || c == '\t' || c == '\n' || c == '\U{000B}' || c == '\U{000C}' || c == '\r'
    || c == ' ' || c == '\U{00A0}' || c == '\U{1680}' || ('\U{2000}' <= c <= '\U{200A}')
    || c == '\U{2028}' || c == '\U{2029}' || c == '\U{202F}' || c == '\U{205F}'
    || c == '\U{3000}' || c == '\U{FEFF}'
  }

  /** Length of the white-space prefix of `s`. */
  function LeadingSpace(s: string): (n: nat)
    ensures n <= |s|
    ensures forall i :: 0 <= i < n ==> IsWhiteSpace(s[i])
    ensures n < |s| ==> !IsWhiteSpace(s[n])
  {
    if s != [] && IsWhiteSpace(s[0]) then 1 + LeadingSpace(s[1..]) else 0
  }

  /** Length of the white-space suffix of `s`. */
  function TrailingSpace(s: string): (n: nat)
    ensures n <= |s|
    ensures forall i :: |s| - n <= i < |s| ==> IsWhiteSpace(s[i])
    ensures n < |s| ==> !IsWhiteSpace(s[|s| - 1 - n])
  {
    if s != [] && IsWhiteSpace(s[|s| - 1]) then 1 + TrailingSpace(s[..|s| - 1]) else 0
  }

  /** `s.trim()`: the longest slice of `s` that neither starts nor ends with white space,
      taken after the white-space prefix. */
  function Trim(s: string): (r: string)
    ensures LeadingSpace(s) + |r| <= |s|
    ensures r == s[LeadingSpace(s)..LeadingSpace(s) + |r|]
    ensures r != [] ==> !IsWhiteSpace(r[0]) && !IsWhiteSpace(r[|r| - 1])
    ensures forall i :: 0 <= i < LeadingSpace(s) ==> IsWhiteSpace(s[i])
    ensures forall i :: LeadingSpace(s) + |r| <= i < |s| ==> IsWhiteSpace(s[i])
  {
    var rest := s[LeadingSpace(s)..];
    rest[..|rest| - TrailingSpace(rest)]
  }

  /** `s.trim()` is empty exactly when every character of `s` is white space. */
  lemma TrimEmptyIffBlank(s: string)
    ensures Trim(s) == [] <==> forall i :: 0 <= i < |s| ==> IsWhiteSpace(s[i])
  {
    var a := LeadingSpace(s);
    if forall i :: 0 <= i < |s| ==> IsWhiteSpace(s[i]) {
      assert a == |s|;
    }
  }

  /** Trimming a string that has no surrounding white space leaves it unchanged. */
  lemma TrimUnpadded(s: string)
    requires s != [] ==> !IsWhiteSpace(s[0]) && !IsWhiteSpace(s[|s| - 1])
    ensures Trim(s) == s
  {
    var rest := s[LeadingSpace(s)..];
    assert LeadingSpace(s) == 0;
    assert rest == s;
    if s != [] {
      assert TrailingSpace(rest) == 0;
    }
  }

  /** Whether a character lies beyond the Basic Multilingual Plane, where UTF-16 needs a
      surrogate pair for it. */
  predicate IsAstral(c: char) {
    c > '\U{FFFF}'
  }

  /** `s.length`: JavaScript strings are sequences of UTF-16 code units, so a character
      beyond U+FFFF counts twice. */
  function Utf16Length(s: string): (n: nat)
    ensures |s| <= n <= 2 * |s|
    ensures (forall i :: 0 <= i < |s| ==> !IsAstral(s[i])) ==> n == |s|
    ensures (forall i :: 0 <= i < |s| ==> IsAstral(s[i])) ==> n == 2 * |s|
  {
    if s == [] then 0
    else
      var front := s[..|s| - 1];
      assert forall i :: 0 <= i < |front| ==> front[i] == s[i];
      Utf16Length(front) + (if IsAstral(s[|s| - 1]) then 2 else 1)
  }
}
