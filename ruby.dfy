/** The Ruby values and standard-library objects the REST adapter handles,
    with the few pieces of Ruby semantics it relies on: truthiness, `Hash#[]`
    with a Symbol key, `to_i`, string interpolation (`to_s`), `String#<=>`
    and `String#delete`. Symbols and strings used as hash keys are both
    modelled as strings. */
module Ruby {

  datatype Option<+T> = None | Some(value: T)

  /** An HTTP response (`Net::HTTPResponse`): status code string, reason
      phrase, media type of the body (`content_type`, nil when absent) and
      the raw body. */
  datatype Response = Response(code: string, message: string, contentType: Option<string>, body: string)

  /** A parsed URI (`URI::Generic`): everything before the path
      (scheme and authority), the path, and everything after it. */
  datatype Uri = Uri(origin: string, path: string, query: string)

  /** `URI#to_s` */
  function UriText(u: Uri): (s: string)
    ensures |s| == |u.origin| + |u.path| + |u.query|
    ensures s[|u.origin|..|u.origin| + |u.path|] == u.path
  {
    u.origin + u.path + u.query
  }

  /** Ruby exceptions the adapter raises, rescues or lets pass.
      UnauthorizedAccess (HTTP 401) and BadRequest (HTTP 400) carry the
      response; any other exception class is known by its name. */
  datatype Error =
    | UnauthorizedAccess(response: Response)
    | BadRequest(response: Response)
    | Other(name: string)

  const NoMethodError := Other("NoMethodError")
  const TypeError := Other("TypeError")
  const ParseError := Other("MultiJson::ParseError")
  const InvalidUriError := Other("URI::InvalidURIError")

  /** What a Ruby call does: return a value or raise an exception. */
  datatype Outcome<+T> = Returned(value: T) | Raised(error: Error)

  /** The objects JSON loads into, and the hashes the adapter builds. */
  datatype Value =
    | Nil
    | Bool(b: bool)
    | Int(i: int)
    | Str(s: string)
    | Arr(items: seq<Value>)
    | Hash(entries: map<string, Value>)

  /** Only nil and false are false in a condition, `and`, `||` or `||=`. */
  predicate Truthy(v: Value) {
    !v.Nil? && v != Bool(false)
  }

  /** `recv[key]` with a Symbol key: a Hash answers with the entry, or nil
      when the key is absent; nil and booleans have no `[]`; Integer, String
      and Array refuse a Symbol index. */
  function Index(recv: Value, key: string): (r: Outcome<Value>)
    ensures r.Returned? <==> recv.Hash?
    ensures r.Returned? && key !in recv.entries ==> r.value == Nil
    ensures r.Returned? && key in recv.entries ==> r.value == recv.entries[key]
    ensures r.Raised? ==> r.error == (if recv.Nil? || recv.Bool? then NoMethodError else TypeError)
  {
    match recv
    case Hash(m) => Returned(if key in m then m[key] else Nil)
    case Nil => Raised(NoMethodError)
    case Bool(_) => Raised(NoMethodError)
    case _ => Raised(TypeError)
  }

  /** `v.to_i`: Integer is itself, String is parsed, nil is 0; booleans,
      arrays and hashes have no `to_i`. */
  function ToI(v: Value): (r: Outcome<int>)
    ensures r.Raised? <==> v.Bool? || v.Arr? || v.Hash?
    ensures r.Raised? ==> r.error == NoMethodError
    ensures v.Int? ==> r == Returned(v.i)
    ensures v.Str? ==> r == Returned(StrToI(v.s))
    ensures v.Nil? ==> r == Returned(0)
  {
    match v
    case Int(n) => Returned(n)
    case Str(s) => Returned(StrToI(s))
    case Nil => Returned(0)
    case _ => Raised(NoMethodError)
  }

  // ---------------------------------------------------------------------
  // Decimal digits, `String#to_i` and `Integer#to_s`

  predicate IsDigit(c: char) {
    '0' <= c <= '9'
  }

  predicate AllDigits(s: string) {
    forall i :: 0 <= i < |s| ==> IsDigit(s[i])
  }

  /** The characters `String#to_i` skips before the number. */
  predicate IsSpace(c: char) {
    c == ' ' || c == '\t' || c == '\n' || c == '\U{B}' || c == '\U{C}' || c == '\r'
  }

  function DigitChar(d: nat): (c: char)
    requires d < 10
    ensures IsDigit(c)
  {
    ('0' as int + d) as char
  }

  /** Value of a string of decimal digits, most significant first. */
  function DigitsValue(s: string): nat
    requires AllDigits(s)
  {
    if s == [] then 0
    else DigitsValue(s[..|s| - 1]) * 10 + (s[|s| - 1] as int - '0' as int)
  }

  function SkipSpace(s: string): (r: string)
    ensures |r| <= |s| && r == s[|s| - |r|..]
    ensures forall i :: 0 <= i < |s| - |r| ==> IsSpace(s[i])
    ensures r != [] ==> !IsSpace(r[0])
  {
    if s != [] && IsSpace(s[0]) then SkipSpace(s[1..]) else s
  }

  /** The longest prefix of `s` made of decimal digits. */
  function LeadingDigits(s: string): (r: string)
    ensures |r| <= |s| && r == s[..|r|]
    ensures AllDigits(r)
    ensures |r| < |s| ==> !IsDigit(s[|r|])
  {
    if s != [] && IsDigit(s[0]) then [s[0]] + LeadingDigits(s[1..]) else []
  }

  /** `String#to_i`: leading white space, an optional sign, then the
      longest run of decimal digits; anything else reads as 0. */
  function StrToI(s: string): int {
    var t := SkipSpace(s);
    if t != [] && t[0] == '-' then -(DigitsValue(LeadingDigits(t[1..])) as int)
    else if t != [] && t[0] == '+' then DigitsValue(LeadingDigits(t[1..]))
    else DigitsValue(LeadingDigits(t))
  }

  /** `Integer#to_s` of a non-negative integer. */
  function NatToS(n: nat): (s: string)
    ensures s != [] && AllDigits(s)
  {
    if n < 10 then [DigitChar(n)] else NatToS(n / 10) + [DigitChar(n % 10)]
  }

  /** `Integer#to_s` */
  function IntToS(n: int): string {
    if n < 0 then "-" + NatToS(-n) else NatToS(n)
  }

  lemma {:induction false} DigitsValueOfNatToS(n: nat)
    ensures DigitsValue(NatToS(n)) == n
  {
    if n >= 10 {
      var s := NatToS(n);
      assert s[..|s| - 1] == NatToS(n / 10);
      DigitsValueOfNatToS(n / 10);
    }
  }

  lemma {:induction false} LeadingDigitsOfDigits(s: string)
    requires AllDigits(s)
    ensures LeadingDigits(s) == s
  {
    if s != [] {
      LeadingDigitsOfDigits(s[1..]);
    }
  }

  /** `n.to_s.to_i == n` for every Integer. */
  lemma {:induction false} StrToIOfIntToS(n: int)
    ensures StrToI(IntToS(n)) == n
  {
    var m: nat := if n < 0 then -n else n;
    var d := NatToS(m);
    DigitsValueOfNatToS(m);
    LeadingDigitsOfDigits(d);
    assert !IsSpace(d[0]) && d[0] != '-' && d[0] != '+';
    if n < 0 {
      var s := "-" + d;
      assert s == IntToS(n);
      assert !IsSpace(s[0]);
      assert SkipSpace(s) == s;
      assert s[1..] == d;
    } else {
      assert d == IntToS(n);
      assert SkipSpace(d) == d;
    }
  }

  /** `"#{v}"`: the `to_s` of a value. Arrays and hashes render through
      `inspect`, which is not modelled. */
  function Interpolate(v: Value, inspect: Value -> string): (s: string)
    ensures v.Nil? ==> s == ""
    ensures v.Str? ==> s == v.s
    ensures v.Int? ==> StrToI(s) == v.i
  {
    match v
    case Nil => ""
    case Bool(b) => if b then "true" else "false"
    case Int(n) => StrToIOfIntToS(n); IntToS(n)
    case Str(s) => s
    case _ => inspect(v)
  }

  /** `Option<string>` interpolated: nil reads as the empty string. */
  function InterpolateOpt(v: Option<string>): (s: string)
    ensures v.None? ==> s == ""
    ensures v.Some? ==> s == v.value
  {
    if v.Some? then v.value else ""
  }

  // ---------------------------------------------------------------------
  // `String#<=>` and `String#delete`

  /** `a <= b` for Ruby strings: lexicographic by character code. */
  predicate StrLe(a: string, b: string) {
    a == [] || (b != [] && (a[0] < b[0] || (a[0] == b[0] && StrLe(a[1..], b[1..]))))
  }

  /** `s.delete("\r\n")`: every carriage return and line feed removed,
      every other character kept as often as it occurs. */
  function DeleteCrLf(s: string): (r: string)
    ensures '\r' !in r && '\n' !in r
    ensures |r| <= |s|
    ensures forall ch :: ch != '\r' && ch != '\n' ==> multiset(r)[ch] == multiset(s)[ch]
    ensures '\r' !in s && '\n' !in s ==> r == s
  {
    if s == [] then []
    else if s[0] == '\r' || s[0] == '\n' then
      assert s == [s[0]] + s[1..];
      DeleteCrLf(s[1..])
    else
      assert s == [s[0]] + s[1..];
      [s[0]] + DeleteCrLf(s[1..])
  }

  /** Deletion works piece by piece, so the kept characters stay in their
      order. */
  lemma {:induction false} DeleteCrLfAppend(a: string, b: string)
    ensures DeleteCrLf(a + b) == DeleteCrLf(a) + DeleteCrLf(b)
  {
    if a == [] {
      assert a + b == b;
    } else {
      var ab := a + b;
      assert ab[0] == a[0] && ab[1..] == a[1..] + b;
      DeleteCrLfAppend(a[1..], b);
      if a[0] != '\r' && a[0] != '\n' {
        var x, y := DeleteCrLf(a[1..]), DeleteCrLf(b);
        assert [a[0]] + (x + y) == ([a[0]] + x) + y;
      }
    }
  }
}
