/**
 * Python's `int(x)` applied to the decoded `vehicle_count` value (fog_handler.py line 118).
 * The decoded value is whatever `json.loads` produced for that key.
 */
module PyInt {
  import opened Wrappers

  /** The JSON value found under `vehicle_count`, as Python sees it after `json.loads`. */
  datatype CountValue =
    | IntNumber(i: int)          // a JSON integer literal
    | FloatNumber(x: real)       // a finite JSON number with a fraction or an exponent
    | NonFinite                  // Infinity, -Infinity or NaN, which `json.loads` accepts
    | Text(s: string)            // a JSON string
    | Boolean(b: bool)           // true / false (a Python bool is an int)
    | Null                       // null
    | Container                  // an array or an object

  /** Why `int()` raised. */
  datatype CoerceError =
    | NotFinite                  // OverflowError (infinity) or ValueError (NaN)
    | InvalidLiteral             // ValueError: the string is not a base-10 integer literal
    | WrongType                  // TypeError: None, list or dict

  /** `int(x)` of a finite float: truncation toward zero, not Dafny's floor. */
  function Truncate(x: real): (r: int)
    ensures 0.0 <= x ==> r as real <= x < r as real + 1.0
    ensures x < 0.0 ==> r as real - 1.0 < x <= r as real
  {
    if x >= 0.0 then x.Floor else -((-x).Floor)
  }

  /** The ASCII characters Python's `int()` strips around a literal. */
  predicate IsSpace(c: char) {
    // tab, line feed, vertical tab, form feed, carriage return, space
    9 <= c as int <= 13 || c == ' '
  }

  predicate IsDigit(c: char) {
    '0' <= c <= '9'
  }

  function DigitValue(c: char): nat
    requires IsDigit(c)
  {
    (c - '0') as nat
  }

  function DigitChar(d: nat): (c: char)
    requires d < 10
    ensures IsDigit(c) && DigitValue(c) == d
  {
    '0' + d as char
  }

  /** `s` without its leading whitespace. */
  function TrimStart(s: string): (t: string)
    ensures |t| <= |s| && t == s[|s| - |t|..]
    ensures |t| > 0 ==> !IsSpace(t[0])
    ensures forall k :: 0 <= k < |s| - |t| ==> IsSpace(s[k])
  {
    if |s| > 0 && IsSpace(s[0]) then TrimStart(s[1..]) else s
  }

  /** `s` without its trailing whitespace. */
  function TrimEnd(s: string): (t: string)
    ensures |t| <= |s| && t == s[..|t|]
    ensures |t| > 0 ==> !IsSpace(t[|t| - 1])
    ensures forall k :: |t| <= k < |s| ==> IsSpace(s[k])
  {
    if |s| > 0 && IsSpace(s[|s| - 1]) then TrimEnd(s[..|s| - 1]) else s
  }

  /**
   * The digit part of a base-10 literal: digits, with single underscores allowed
   * only between two digits. Read from the right: a final digit, preceded by
   * either nothing, a group, or an underscore and a group.
   */
  predicate IsDigitGroup(d: string)
    decreases |d|
  {
    && |d| > 0
    && IsDigit(d[|d| - 1])
    && (|d| == 1 ||
        if d[|d| - 2] == '_' then IsDigitGroup(d[..|d| - 2]) else IsDigitGroup(d[..|d| - 1]))
  }

  /** The value of a digit group; underscores carry no value. */
  function GroupValue(d: string): nat
    requires IsDigitGroup(d)
    decreases |d|
  {
    var last := DigitValue(d[|d| - 1]);
    if |d| == 1 then last
    else if d[|d| - 2] == '_' then GroupValue(d[..|d| - 2]) * 10 + last
    else GroupValue(d[..|d| - 1]) * 10 + last
  }

  /** A whitespace-free literal: an optional sign followed by a digit group. */
  function ParseSigned(t: string): (r: Result<int, CoerceError>)
    ensures r.Ok? <==> (IsDigitGroup(t) || (|t| > 0 && (t[0] == '+' || t[0] == '-') && IsDigitGroup(t[1..])))
  {
    if |t| > 0 && t[0] == '-' && IsDigitGroup(t[1..]) then Ok(0 - GroupValue(t[1..]))
    else if |t| > 0 && t[0] == '+' && IsDigitGroup(t[1..]) then Ok(GroupValue(t[1..]))
    else if IsDigitGroup(t) then Ok(GroupValue(t))
    else Err(InvalidLiteral)
  }

  function Pow10(k: nat): (p: nat)
    ensures p > 0
  {
    if k == 0 then 1 else 10 * Pow10(k - 1)
  }

  /** The digit characters of `d`, in order: for a digit group, `d` with its underscores dropped. */
  function DigitsOnly(d: string): (ds: string)
    ensures forall k :: 0 <= k < |ds| ==> IsDigit(ds[k])
  {
    if |d| == 0 then []
    else DigitsOnly(d[..|d| - 1]) + (if IsDigit(d[|d| - 1]) then [d[|d| - 1]] else [])
  }

  /** Reference value of a digit string: each digit times ten to the power of its place. */
  function Positional(ds: string): nat
    requires forall k :: 0 <= k < |ds| ==> IsDigit(ds[k])
  {
    if |ds| == 0 then 0 else DigitValue(ds[0]) * Pow10(|ds| - 1) + Positional(ds[1..])
  }

  lemma {:induction false} PositionalSnoc(ds: string, c: char)
    requires forall k :: 0 <= k < |ds| ==> IsDigit(ds[k])
    requires IsDigit(c)
    ensures Positional(ds + [c]) == Positional(ds) * 10 + DigitValue(c)
  {
    if |ds| > 0 {
      assert (ds + [c])[1..] == ds[1..] + [c];
      PositionalSnoc(ds[1..], c);
      assert Pow10(|ds|) == 10 * Pow10(|ds| - 1);
    } else {
      assert Positional([c]) == DigitValue(c) * Pow10(0) + Positional([]);
    }
  }

  /** A digit group starts with a digit and holds only digits and underscores. */
  lemma {:induction false} GroupShape(d: string)
    requires IsDigitGroup(d)
    ensures IsDigit(d[0])
    ensures forall k :: 0 <= k < |d| ==> IsDigit(d[k]) || d[k] == '_'
    decreases |d|
  {
    if |d| > 1 {
      var init := if d[|d| - 2] == '_' then d[..|d| - 2] else d[..|d| - 1];
      GroupShape(init);
      assert forall k :: 0 <= k < |init| ==> d[k] == init[k];
    }
  }

  /** The value of a digit group is the positional value of its digits; underscores are ignored. */
  lemma {:induction false} GroupValueIsPositional(d: string)
    requires IsDigitGroup(d)
    ensures GroupValue(d) == Positional(DigitsOnly(d))
    decreases |d|
  {
    var last := d[|d| - 1];
    var init := d[..|d| - 1];
    assert DigitsOnly(d) == DigitsOnly(init) + [last];
    if |d| == 1 {
      assert DigitsOnly(init) == [];
      assert Positional([last]) == DigitValue(last) * Pow10(0) + Positional([]);
    } else if d[|d| - 2] == '_' {
      GroupValueIsPositional(d[..|d| - 2]);
      assert init[..|init| - 1] == d[..|d| - 2];
      assert !IsDigit(init[|init| - 1]);
      assert DigitsOnly(init) == DigitsOnly(d[..|d| - 2]) + [];
      assert DigitsOnly(d[..|d| - 2]) + [] == DigitsOnly(d[..|d| - 2]);
      PositionalSnoc(DigitsOnly(d[..|d| - 2]), last);
      assert GroupValue(d) == GroupValue(d[..|d| - 2]) * 10 + DigitValue(last);
    } else {
      GroupValueIsPositional(init);
      PositionalSnoc(DigitsOnly(init), last);
    }
  }

  /**
   * The value of a stripped literal: a digit group means its positional value, a leading
   * `+` changes nothing and a leading `-` negates it (so `"-0"`, `"+7"`, `"007"` and `"1_000"`
   * read 0, 7, 7 and 1000).
   */
  lemma ParseSignedValue(d: string)
    requires IsDigitGroup(d)
    ensures ParseSigned(d) == Ok(Positional(DigitsOnly(d)))
    ensures ParseSigned("+" + d) == ParseSigned(d)
    ensures ParseSigned("-" + d) == Ok(0 - Positional(DigitsOnly(d)))
  {
    GroupShape(d);
    GroupValueIsPositional(d);
    assert ("+" + d)[1..] == d;
    assert ("-" + d)[1..] == d;
  }

  /** `int(s)` for a string `s`. */
  function ParseInt(s: string): Result<int, CoerceError> {
    ParseSigned(TrimEnd(TrimStart(s)))
  }

  /** `int(v)` for every kind of value `json.loads` can put under `vehicle_count`. */
  function Coerce(v: CountValue): (r: Result<int, CoerceError>)
    ensures v.IntNumber? ==> r == Ok(v.i)
    ensures v.Boolean? ==> r == Ok(if v.b then 1 else 0)
    ensures v.FloatNumber? ==> r.Ok? && -r.value == Truncate(-v.x)
    ensures (v.Null? || v.Container?) ==> r == Err(WrongType)
    ensures v.NonFinite? ==> r == Err(NotFinite)
    ensures v.Text? ==> r == ParseInt(v.s)
  {
    match v
    case IntNumber(i) => Ok(i)
    case FloatNumber(x) => Ok(Truncate(x))
    case NonFinite => Err(NotFinite)
    case Text(s) => ParseInt(s)
    case Boolean(b) => Ok(if b then 1 else 0)
    case Null => Err(WrongType)
    case Container => Err(WrongType)
  }

  /** Python's `str(n)` for a non-negative integer: its decimal digits, most significant first. */
  function Digits(n: nat): (d: string)
    ensures |d| > 0
    ensures forall k :: 0 <= k < |d| ==> IsDigit(d[k])
  {
    if n < 10 then [DigitChar(n)] else Digits(n / 10) + [DigitChar(n % 10)]
  }

  /** Python's `str(n)`. */
  function Render(n: int): string {
    if n < 0 then "-" + Digits(-n) else Digits(n)
  }

  /** Reading back the digits of `n` gives `n`. */
  lemma {:induction false} GroupValueOfDigits(n: nat)
    ensures IsDigitGroup(Digits(n))
    ensures GroupValue(Digits(n)) == n
  {
    var d := Digits(n);
    if n >= 10 {
      GroupValueOfDigits(n / 10);
      assert d[..|d| - 1] == Digits(n / 10);
    }
  }

  /** `int(str(n)) == n`: the coercion reads back every rendered integer. */
  lemma {:induction false} ParseRenderRoundTrip(n: int)
    ensures ParseInt(Render(n)) == Ok(n)
  {
    var s := Render(n);
    TrimStartKeeps(s);
    TrimEndKeeps(s);
    if n < 0 {
      GroupValueOfDigits(-n);
      assert s[1..] == Digits(-n);
    } else {
      GroupValueOfDigits(n);
    }
  }

  /** Surrounding whitespace never changes what `int()` makes of a string. */
  lemma {:induction false} ParseIgnoresPadding(pre: string, s: string, post: string)
    requires forall k :: 0 <= k < |pre| ==> IsSpace(pre[k])
    requires forall k :: 0 <= k < |post| ==> IsSpace(post[k])
    ensures ParseInt(pre + s + post) == ParseInt(s)
  {
    assert pre + s + post == pre + (s + post);
    TrimStartSkipsSpace(pre, s + post);
    TrimStartAppend(s, post);
    var a := TrimStart(s);
    if |a| > 0 {
      TrimEndSkipsSpace(a, post);
    } else {
      TrimStartSkipsSpace(post, []);
      assert post + [] == post;
    }
  }

  lemma TrimStartKeeps(s: string)
    requires |s| > 0 && !IsSpace(s[0])
    ensures TrimStart(s) == s
  {
  }

  lemma TrimEndKeeps(s: string)
    requires |s| > 0 && !IsSpace(s[|s| - 1])
    ensures TrimEnd(s) == s
  {
  }

  lemma {:induction false} TrimStartAppend(s: string, post: string)
    ensures |TrimStart(s)| > 0 ==> TrimStart(s + post) == TrimStart(s) + post
    ensures |TrimStart(s)| == 0 ==> TrimStart(s + post) == TrimStart(post)
  {
    if |s| == 0 {
      assert s + post == post;
    } else if IsSpace(s[0]) {
      assert (s + post)[1..] == s[1..] + post;
      TrimStartAppend(s[1..], post);
    } else {
      TrimStartKeeps(s);
      TrimStartKeeps(s + post);
    }
  }

  lemma {:induction false} TrimStartSkipsSpace(pre: string, s: string)
    requires forall k :: 0 <= k < |pre| ==> IsSpace(pre[k])
    ensures TrimStart(pre + s) == TrimStart(s)
  {
    if |pre| > 0 {
      assert (pre + s)[1..] == pre[1..] + s;
      TrimStartSkipsSpace(pre[1..], s);
    } else {
      assert pre + s == s;
    }
  }

  lemma {:induction false} TrimEndSkipsSpace(s: string, post: string)
    requires forall k :: 0 <= k < |post| ==> IsSpace(post[k])
    ensures TrimEnd(s + post) == TrimEnd(s)
  {
    if |post| > 0 {
      assert (s + post)[..|s + post| - 1] == s + post[..|post| - 1];
      TrimEndSkipsSpace(s, post[..|post| - 1]);
    } else {
      assert s + post == s;
    }
  }
}
