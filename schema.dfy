/**
 * The parts of the schema-validation library that the domain schemas use:
 * the shape of a raw input property, validation issues and their paths, the
 * primitive field rules (string length, positive number, optional UUID,
 * optional date) and the string transformations the schemas apply.
 */
module Schema {
  import opened Wrappers

  /** A timestamp, supplied by the caller instead of being read from a clock. */
  type Time = int

  /**
   * One property of a raw input object as the validator sees it: absent
   * (`undefined`), present with the JavaScript type the rule expects, or
   * present with a value of some other type (a number where a string is
   * expected, `null`, ...).
   */
  datatype Field<T> = Missing | Given(value: T) | WrongType

  /** One step of an issue path: an object key or an array index. */
  datatype PathSegment = Key(name: string) | Index(index: nat)

  /** A validation issue: where it was raised and its message key. */
  datatype Issue = Issue(path: seq<PathSegment>, message: string)

  // ---------------------------------------------------------------------------
  // Issue paths, joined with '.' as `path.join('.')` does
  // ---------------------------------------------------------------------------

  function DigitChar(d: nat): (c: char)
    requires d < 10
    ensures '0' <= c <= '9' && (c as int) - ('0' as int) == d
  {
    ('0' as int + d) as char
  }

  /** The decimal numeral of `n`, as JavaScript prints an array index. */
  function DecimalString(n: nat): (s: string)
    ensures |s| > 0
    ensures forall i :: 0 <= i < |s| ==> '0' <= s[i] <= '9'
  {
    if n < 10 then [DigitChar(n)] else DecimalString(n / 10) + [DigitChar(n % 10)]
  }

  /** The number a string of decimal digits denotes. */
  function DecimalValue(s: string): nat
    requires forall i :: 0 <= i < |s| ==> '0' <= s[i] <= '9'
  {
    if s == [] then 0
    else DecimalValue(s[..|s| - 1]) * 10 + ((s[|s| - 1] as int) - ('0' as int))
  }

  /** Array indices in issue paths can be read back from the joined field name. */
  lemma {:induction false} DecimalRoundTrip(n: nat)
    ensures DecimalValue(DecimalString(n)) == n
  {
    if n >= 10 {
      var s := DecimalString(n);
      assert s[..|s| - 1] == DecimalString(n / 10);
      DecimalRoundTrip(n / 10);
    }
  }

  function SegmentText(p: PathSegment): string {
    match p
    case Key(name) => name
    case Index(i) => DecimalString(i)
  }

  /** `path.join('.')`. */
  function JoinPath(path: seq<PathSegment>): string {
    if |path| == 0 then ""
    else if |path| == 1 then SegmentText(path[0])
    else SegmentText(path[0]) + "." + JoinPath(path[1..])
  }

  /** The field of an issue raised inside a nested object is the outer path, a dot, and the inner path. */
  lemma {:induction false} JoinPathAppend(p: seq<PathSegment>, q: seq<PathSegment>)
    requires p != [] && q != []
    ensures JoinPath(p + q) == JoinPath(p) + "." + JoinPath(q)
  {
    assert (p + q)[0] == p[0];
    if |p| == 1 {
      assert (p + q)[1..] == q;
    } else {
      assert (p + q)[1..] == p[1..] + q;
      JoinPathAppend(p[1..], q);
    }
  }

  // ---------------------------------------------------------------------------
  // Primitive field rules
  // ---------------------------------------------------------------------------

  predicate IsHexDigit(c: char) {
    '0' <= c <= '9' || 'a' <= c <= 'f' || 'A' <= c <= 'F'
  }

  /**
   * The textual layout of a UUID (section 3 of RFC 4122): 32 hexadecimal
   * digits in groups of 8-4-4-4-12 separated by hyphens, in either case.
   */
  predicate IsUuid(s: string) {
    && |s| == 36
    && (forall i :: 0 <= i < 36 && (i == 8 || i == 13 || i == 18 || i == 23) ==> s[i] == '-')
    && (forall i :: 0 <= i < 36 && i != 8 && i != 13 && i != 18 && i != 23 ==> IsHexDigit(s[i]))
  }

  /** A required string of any length. */
  function RequiredStringRule(f: Field<string>, at: seq<PathSegment>, message: string): (r: Result<string, Issue>)
    ensures r.Success? <==> f.Given?
    ensures r.Success? ==> r.value == f.value
    ensures r.Failure? ==> r.error == Issue(at, message)
  {
    if f.Given? then Success(f.value) else Failure(Issue(at, message))
  }

  /** A required string whose length lies in `min..max`. */
  function StringRule(f: Field<string>, min: nat, max: nat, at: seq<PathSegment>, message: string): (r: Result<string, Issue>)
    ensures r.Success? <==> f.Given? && min <= |f.value| <= max
    ensures r.Success? ==> r.value == f.value
    ensures r.Failure? ==> r.error == Issue(at, message)
  {
    if f.Given? && min <= |f.value| <= max then Success(f.value) else Failure(Issue(at, message))
  }

  /** An optional string that must be a UUID when present. */
  function OptionalUuidRule(f: Field<string>, at: seq<PathSegment>, message: string): (r: Result<Option<string>, Issue>)
    ensures r.Success? <==> f.Missing? || (f.Given? && IsUuid(f.value))
    ensures r.Success? ==> r.value == (if f.Given? then Some(f.value) else None)
    ensures r.Failure? ==> r.error == Issue(at, message)
  {
    match f
    case Missing => Success(None)
    case Given(s) => if IsUuid(s) then Success(Some(s)) else Failure(Issue(at, message))
    case WrongType => Failure(Issue(at, message))
  }

  /** A required number that must be strictly positive. */
  function PositiveRule(f: Field<int>, at: seq<PathSegment>, message: string): (r: Result<int, Issue>)
    ensures r.Success? <==> f.Given? && f.value > 0
    ensures r.Success? ==> r.value == f.value
    ensures r.Failure? ==> r.error == Issue(at, message)
  {
    if f.Given? && f.value > 0 then Success(f.value) else Failure(Issue(at, message))
  }

  /** An optional number that must be strictly positive when present. */
  function OptionalPositiveRule(f: Field<int>, at: seq<PathSegment>, message: string): (r: Result<Option<int>, Issue>)
    ensures r.Success? <==> f.Missing? || (f.Given? && f.value > 0)
    ensures r.Success? ==> r.value == (if f.Given? then Some(f.value) else None)
    ensures r.Failure? ==> r.error == Issue(at, message)
  {
    match f
    case Missing => Success(None)
    case Given(n) => if n > 0 then Success(Some(n)) else Failure(Issue(at, message))
    case WrongType => Failure(Issue(at, message))
  }

  /** An optional date. */
  function OptionalDateRule(f: Field<Time>, at: seq<PathSegment>, message: string): (r: Result<Option<Time>, Issue>)
    ensures r.Success? <==> !f.WrongType?
    ensures r.Success? ==> r.value == (if f.Given? then Some(f.value) else None)
    ensures r.Failure? ==> r.error == Issue(at, message)
  {
    match f
    case Missing => Success(None)
    case Given(t) => Success(Some(t))
    case WrongType => Failure(Issue(at, message))
  }

  /** The issues one rule contributes to the collected list: none, or its one issue. */
  function Violation<T>(r: Result<T, Issue>): seq<Issue> {
    if r.Failure? then [r.error] else []
  }

  /** An optional value as a raw input property. */
  function AsField<T>(o: Option<T>): (f: Field<T>)
    ensures f.Given? <==> o.Some?
    ensures f.Given? ==> f.value == o.value
    ensures !f.WrongType?
  {
    if o.Some? then Given(o.value) else Missing
  }

  // ---------------------------------------------------------------------------
  // The `||` defaulting used by the update paths
  // ---------------------------------------------------------------------------

  /** `given || current` for a string: `undefined` and `''` are falsy. */
  function OrString(given: Option<string>, current: string): (r: string)
    ensures given.Some? && given.value != "" ==> r == given.value
    ensures given == None || given == Some("") ==> r == current
  {
    if given.Some? && given.value != "" then given.value else current
  }

  /** `given || current` for a number: `undefined` and `0` are falsy. */
  function OrNumber(given: Option<int>, current: int): (r: int)
    ensures given.Some? && given.value != 0 ==> r == given.value
    ensures given == None || given == Some(0) ==> r == current
  {
    if given.Some? && given.value != 0 then given.value else current
  }

  /** `given || current` for an object or an array: every object, even `[]`, is truthy. */
  function OrObject<T>(given: Option<T>, current: T): (r: T)
    ensures given.Some? ==> r == given.value
    ensures given.None? ==> r == current
  {
    if given.Some? then given.value else current
  }

  // ---------------------------------------------------------------------------
  // Upper-casing
  // ---------------------------------------------------------------------------

  /**
   * The upper-case form of one character, for Basic Latin and the Latin-1
   * letters whose upper-case form is one code point 0x20 lower.
   */
  function UpperChar(c: char): (u: char)
    ensures 'a' <= c <= 'z' ==> u as int == c as int - 32
    ensures !('a' <= c <= 'z') && !('à' <= c <= 'þ' && c != '÷') ==> u == c
  {
    if 'a' <= c <= 'z' || ('à' <= c <= 'þ' && c != '÷') then (c as int - 32) as char else c
  }

  /** `s.toUpperCase()`, character by character. */
  function ToUpperCase(s: string): (r: string)
    ensures |r| == |s|
    ensures forall i :: 0 <= i < |s| ==> r[i] == UpperChar(s[i])
  {
    if s == [] then [] else [UpperChar(s[0])] + ToUpperCase(s[1..])
  }

  /** Upper-casing twice is upper-casing once, so a stored upper-cased value survives re-validation. */
  lemma ToUpperCaseIdempotent(s: string)
    ensures ToUpperCase(ToUpperCase(s)) == ToUpperCase(s)
  {
    var u := ToUpperCase(s);
    forall i | 0 <= i < |s|
      ensures UpperChar(u[i]) == u[i]
    {
      assert u[i] == UpperChar(s[i]);
    }
  }
}
