/**
 * Helpers shared by every part of the model: optional values, the text
 * operations the Python and JavaScript code leans on (strip/trim, lower and
 * upper case, substring search, `str(int)`), two-place decimal rounding as
 * Python's `round(x, 2)` does it, and the `_id` that the Django models
 * assign once on their first save.
 */
module Common {

  datatype Option<T> = None | Some(value: T)

  // ---------------------------------------------------------------------
  // Characters and case

  /** Whose notion of white space a trim follows. */
  datatype Runtime = Python | JavaScript

  /**
   * The ASCII characters Python's `str.strip()` or JavaScript's `trim()`
   * removes: both strip space, tab, line feed, carriage return, vertical
   * tab and form feed; Python also strips the four information separators
   * U+001C to U+001F, which JavaScript keeps.
   */
  predicate IsSpace(c: char, rt: Runtime) {
    c == ' ' || c == '\t' || c == '\n' || c == '\r' || c == '\U{000B}' || c == '\U{000C}'
    || (rt == Python && '\U{001C}' <= c <= '\U{001F}')
  }

  function LowerChar(c: char): (r: char)
    ensures 'A' <= c <= 'Z' ==> 'a' <= r <= 'z'
    ensures !('A' <= c <= 'Z') ==> r == c
  {
    if 'A' <= c <= 'Z' then (c as int + 32) as char else c
  }

  function UpperChar(c: char): (r: char)
    ensures 'a' <= c <= 'z' ==> 'A' <= r <= 'Z'
    ensures !('a' <= c <= 'z') ==> r == c
  {
    if 'a' <= c <= 'z' then (c as int - 32) as char else c
  }

  /** `s.lower()` / `s.toLowerCase()` on ASCII letters. */
  function Lower(s: string): (r: string)
    ensures |r| == |s| && forall i :: 0 <= i < |s| ==> r[i] == LowerChar(s[i])
  {
    if s == [] then [] else [LowerChar(s[0])] + Lower(s[1..])
  }

  /** `s.toUpperCase()` on ASCII letters. */
  function Upper(s: string): (r: string)
    ensures |r| == |s| && forall i :: 0 <= i < |s| ==> r[i] == UpperChar(s[i])
  {
    if s == [] then [] else [UpperChar(s[0])] + Upper(s[1..])
  }

  // ---------------------------------------------------------------------
  // Trimming

  function TrimLeft(s: string, rt: Runtime): (r: string)
    ensures |r| <= |s| && r == s[|s| - |r|..]
    ensures r == [] || !IsSpace(r[0], rt)
    ensures forall i :: 0 <= i < |s| - |r| ==> IsSpace(s[i], rt)
  {
    if s != [] && IsSpace(s[0], rt) then TrimLeft(s[1..], rt) else s
  }

  function TrimRight(s: string, rt: Runtime): (r: string)
    ensures |r| <= |s| && r == s[..|r|]
    ensures r == [] || !IsSpace(r[|r| - 1], rt)
    ensures forall i :: |r| <= i < |s| ==> IsSpace(s[i], rt)
  {
    if s != [] && IsSpace(s[|s| - 1], rt) then TrimRight(s[..|s| - 1], rt) else s
  }

  /** `s.strip()` in Python, `s.trim()` in JavaScript. */
  function Trim(s: string, rt: Runtime): (r: string)
  {
    TrimRight(TrimLeft(s, rt), rt)
  }

  predicate AllSpace(s: string, rt: Runtime) {
    forall i :: 0 <= i < |s| ==> IsSpace(s[i], rt)
  }

  /** Trimming leaves text that neither starts nor ends with blank space,
      and it is empty exactly when the input is all blank. */
  lemma TrimShape(s: string, rt: Runtime)
    ensures Trim(s, rt) != [] ==> !IsSpace(Trim(s, rt)[0], rt) && !IsSpace(Trim(s, rt)[|Trim(s, rt)| - 1], rt)
    ensures Trim(s, rt) == [] <==> AllSpace(s, rt)
  {
    var l := TrimLeft(s, rt);
    var t := TrimRight(l, rt);
    assert Trim(s, rt) == t;
    StrippedEdges(s, l, t, rt);
  }

  /** The JavaScript test `!text.trim()`: nothing but blank space. */
  predicate Blank(s: string)
    ensures Blank(s) <==> AllSpace(s, JavaScript)
  {
    TrimShape(s, JavaScript);
    Trim(s, JavaScript) == []
  }

  /**
   * The two runtimes part ways on the information separators: Python strips
   * a leading U+001F, JavaScript keeps it.
   */
  lemma SeparatorsStrippedByPythonOnly()
    ensures Trim("\U{001F}bob", Python) == "bob"
    ensures Trim("\U{001F}bob", JavaScript) == "\U{001F}bob"
  {
    assert "\U{001F}bob"[1..] == "bob";
    assert !IsSpace("bob"[2], Python);
  }

  /** The same facts about any `l` and `t` cut from `s` the way `TrimLeft` and `TrimRight` cut. */
  lemma StrippedEdges(s: string, l: string, t: string, rt: Runtime)
    requires |l| <= |s| && l == s[|s| - |l|..] && (l == [] || !IsSpace(l[0], rt))
    requires forall i :: 0 <= i < |s| - |l| ==> IsSpace(s[i], rt)
    requires |t| <= |l| && t == l[..|t|] && (t == [] || !IsSpace(t[|t| - 1], rt))
    requires forall i :: |t| <= i < |l| ==> IsSpace(l[i], rt)
    ensures t != [] ==> !IsSpace(t[0], rt) && !IsSpace(t[|t| - 1], rt)
    ensures t == [] <==> AllSpace(s, rt)
  {
    if l != [] {
      assert l[0] == s[|s| - |l|];
    }
    if t != [] {
      assert t[0] == l[0];
    }
  }

  // ---------------------------------------------------------------------
  // Filtering

  /** `xs.filter(p)`: the elements satisfying `p`, in their order. */
  function Keep<T(!new)>(xs: seq<T>, p: T -> bool): (r: seq<T>)
    ensures |r| <= |xs|
    ensures forall x :: x in r <==> x in xs && p(x)
  {
    if xs == [] then []
    else (if p(xs[0]) then [xs[0]] else []) + Keep(xs[1..], p)
  }

  /** Filtering after appending one element keeps it exactly when it satisfies the test. */
  lemma {:induction false} KeepAppend<T(!new)>(xs: seq<T>, x: T, p: T -> bool)
    ensures Keep(xs + [x], p) == Keep(xs, p) + (if p(x) then [x] else [])
  {
    var tail: seq<T> := if p(x) then [x] else [];
    if xs == [] {
      assert [x][1..] == [];
    } else {
      var ys := xs + [x];
      var head: seq<T> := if p(xs[0]) then [xs[0]] else [];
      assert ys[0] == xs[0] && ys[1..] == xs[1..] + [x];
      KeepAppend(xs[1..], x, p);
      calc {
        Keep(ys, p);
        head + Keep(xs[1..] + [x], p);
        head + (Keep(xs[1..], p) + tail);
        { assert head + (Keep(xs[1..], p) + tail) == (head + Keep(xs[1..], p)) + tail; }
        Keep(xs, p) + tail;
      }
    }
  }

  /** A test every element passes keeps the whole list. */
  lemma {:induction false} KeepAll<T(!new)>(xs: seq<T>, p: T -> bool)
    requires forall k :: 0 <= k < |xs| ==> p(xs[k])
    ensures Keep(xs, p) == xs
  {
    if xs != [] {
      KeepAll(xs[1..], p);
    }
  }

  // ---------------------------------------------------------------------
  // Substrings (`kw in text` in Python, `text.includes(q)` in JavaScript)

  /** `needle` occurs in `hay` at position `i`. */
  predicate OccursAt(needle: string, hay: string, i: int) {
    0 <= i && i + |needle| <= |hay| && hay[i..i + |needle|] == needle
  }

  /** A left-to-right scan for `needle`; the executable form of substring search. */
  function Contains(needle: string, hay: string): bool
    decreases |hay|
  {
    if |needle| > |hay| then false
    else if hay[..|needle|] == needle then true
    else Contains(needle, hay[1..])
  }

  /** The scan finds `needle` exactly when it occurs somewhere in `hay`. */
  lemma {:induction false} ContainsIff(needle: string, hay: string)
    ensures Contains(needle, hay) <==> exists i :: OccursAt(needle, hay, i)
    decreases |hay|
  {
    if |needle| > |hay| {
    } else if hay[..|needle|] == needle {
      assert OccursAt(needle, hay, 0);
    } else {
      ContainsIff(needle, hay[1..]);
      if Contains(needle, hay[1..]) {
        var i :| OccursAt(needle, hay[1..], i);
        assert hay[1..][i..i + |needle|] == hay[i + 1..i + 1 + |needle|];
        assert OccursAt(needle, hay, i + 1);
      } else {
        forall i | OccursAt(needle, hay, i) ensures false {
          if i != 0 {
            assert hay[1..][i - 1..i - 1 + |needle|] == hay[i..i + |needle|];
            assert OccursAt(needle, hay[1..], i - 1);
          }
        }
      }
    }
  }

  /** The empty string is found in every string, as `"" in s` and `s.includes("")` are. */
  lemma EmptyAlwaysContained(hay: string)
    ensures Contains("", hay)
  {
    assert hay[..0] == "";
  }

  /** Case-insensitive search as the front-end filters write it: both sides lower-cased. */
  function ContainsIgnoringCase(needle: string, hay: string): bool
  {
    Contains(Lower(needle), Lower(hay))
  }

  // ---------------------------------------------------------------------
  // str(int)

  function DigitChar(d: nat): (c: char)
    requires d < 10
    ensures '0' <= c <= '9'
  {
    ('0' as int + d) as char
  }

  /** Decimal digits of a natural number, most significant first, no leading zero. */
  function NatToString(n: nat): (s: string)
    ensures |s| >= 1
    ensures forall i :: 0 <= i < |s| ==> '0' <= s[i] <= '9'
    ensures n > 0 ==> s[0] != '0'
    decreases n
  {
    if n < 10 then [DigitChar(n)] else NatToString(n / 10) + [DigitChar(n % 10)]
  }

  /** `str(i)` for a Python int, `String(i)` for a JavaScript integer. */
  function IntToString(i: int): string
  {
    if i < 0 then "-" + NatToString(-i) else NatToString(i)
  }

  /** The value of a string of decimal digits. */
  function ParseDigits(s: string): int
    decreases |s|
  {
    if s == [] then 0 else ParseDigits(s[..|s| - 1]) * 10 + (s[|s| - 1] as int - '0' as int)
  }

  /** Reading back the decimal text of `n` gives `n`. */
  lemma {:induction false} NatToStringRoundTrip(n: nat)
    ensures ParseDigits(NatToString(n)) == n
    decreases n
  {
    if n >= 10 {
      NatToStringRoundTrip(n / 10);
      var s := NatToString(n);
      assert s[..|s| - 1] == NatToString(n / 10);
      assert s[|s| - 1] as int - '0' as int == n % 10;
    }
  }

  /** Different numbers have different decimal texts. */
  lemma NatToStringInjective(m: nat, n: nat)
    requires NatToString(m) == NatToString(n)
    ensures m == n
  {
    NatToStringRoundTrip(m);
    NatToStringRoundTrip(n);
  }

  // ---------------------------------------------------------------------
  // Two-place decimal rounding

  /** `x` has at most two digits after the decimal point. */
  predicate IsCents(x: real) {
    (x * 100.0).Floor as real == x * 100.0
  }

  /**
   * `round(x, 2)`: the nearest multiple of 0.01, ties to the even last digit
   * (Python rounds a `Decimal` with ROUND_HALF_EVEN and a float's exact value
   * half-to-even as well).
   */
  function RoundHalfEven2(x: real): (r: real)
    ensures IsCents(r)
    ensures -0.005 <= r - x <= 0.005
  {
    var y := x * 100.0;
    var f := y.Floor;
    var frac := y - f as real;
    var n := if frac < 0.5 then f
             else if frac > 0.5 then f + 1
             else if f % 2 == 0 then f else f + 1;
    assert -0.5 <= n as real - y <= 0.5;
    Cents(n)
  }

  /** `n` hundredths. */
  function Cents(n: int): (r: real)
    ensures IsCents(r) && r * 100.0 == n as real
  {
    n as real / 100.0
  }

  /** Rounding never reverses the order of two amounts. */
  lemma RoundHalfEven2Monotone(x: real, y: real)
    requires x <= y
    ensures RoundHalfEven2(x) <= RoundHalfEven2(y)
  {
    var fx, fy := (x * 100.0).Floor, (y * 100.0).Floor;
    assert fx <= fy;
    if fx == fy {
      var tx, ty := x * 100.0 - fx as real, y * 100.0 - fx as real;
      assert tx <= ty;
    } else {
      assert fx + 1 <= fy;
    }
  }

  /** An amount that already has two places is left as it is. */
  lemma RoundHalfEven2Exact(x: real)
    requires IsCents(x)
    ensures RoundHalfEven2(x) == x
  {
    var f := (x * 100.0).Floor;
    assert x * 100.0 - f as real == 0.0;
  }

  /** Ties go to the even cent: 0.125 rounds down, 0.135 rounds up. */
  lemma RoundHalfEven2Ties()
    ensures RoundHalfEven2(0.125) == 0.12
    ensures RoundHalfEven2(0.135) == 0.14
  {
    assert (0.125 * 100.0).Floor == 12;
    assert (0.135 * 100.0).Floor == 13;
  }

  /**
   * `str(d)` for a `Decimal` with two places, as a value read back from a
   * `DecimalField(decimal_places=2)` prints: optional minus sign, the whole
   * part, a point and exactly two digits.
   */
  function Fixed2Text(x: real): (s: string)
    requires IsCents(x)
    ensures |s| >= 4 && s[|s| - 3] == '.'
  {
    var n := (x * 100.0).Floor;
    var a := if n < 0 then -n else n;
    (if n < 0 then "-" else "") + NatToString(a / 100) + "." + [DigitChar((a % 100) / 10), DigitChar(a % 10)]
  }

  // ---------------------------------------------------------------------
  // Public ids assigned on first save

  predicate IsLowerHex(s: string) {
    forall i :: 0 <= i < |s| ==> ('0' <= s[i] <= '9' || 'a' <= s[i] <= 'f')
  }

  /** `uuid.uuid4().hex`: 32 lower-case hexadecimal digits. */
  predicate IsUuidHex(s: string) {
    |s| == 32 && IsLowerHex(s)
  }

  /**
   * The `_id` a model's `save()` leaves behind: an id that is already set is
   * kept; an empty one becomes the prefix followed by the first twelve
   * hexadecimal digits of a fresh UUID.
   */
  function SetOnceId(current: string, prefix: string, uuidHex: string): (r: string)
    requires IsUuidHex(uuidHex)
    ensures current != "" ==> r == current
    ensures current == "" ==> |r| == |prefix| + 12 && r[..|prefix|] == prefix
                               && IsLowerHex(r[|prefix|..]) && r[|prefix|..] == uuidHex[..12]
  {
    if current == "" then prefix + uuidHex[..12] else current
  }

  /** Saving twice assigns the id only once. */
  lemma SetOnceIdIdempotent(current: string, prefix: string, u1: string, u2: string)
    requires IsUuidHex(u1) && IsUuidHex(u2) && prefix != ""
    ensures SetOnceId(SetOnceId(current, prefix, u1), prefix, u2) == SetOnceId(current, prefix, u1)
  {
  }

  // ---------------------------------------------------------------------
  // Sums

  function SumReals(xs: seq<real>): real
  {
    if xs == [] then 0.0 else SumReals(xs[..|xs| - 1]) + xs[|xs| - 1]
  }

  lemma {:induction false} SumRealsAppend(xs: seq<real>, ys: seq<real>)
    ensures SumReals(xs + ys) == SumReals(xs) + SumReals(ys)
    decreases |ys|
  {
    if ys != [] {
      SumRealsAppend(xs, ys[..|ys| - 1]);
      assert (xs + ys)[..|xs + ys| - 1] == xs + ys[..|ys| - 1];
    } else {
      assert xs + ys == xs;
    }
  }

  // ---------------------------------------------------------------------
  // Times of day

  const SecondsPerDay := 86400

  /** A character outside the Basic Multilingual Plane, which UTF-16 writes as a surrogate pair. */
  predicate Astral(c: char) {
    c as int >= 0x1_0000
  }

  /**
   * JavaScript's `s.length`: the number of UTF-16 code units, two for each
   * astral character and one for every other.
   */
  function Utf16Length(s: string): (n: nat)
    ensures |s| <= n <= 2 * |s|
    ensures (forall i :: 0 <= i < |s| ==> !Astral(s[i])) ==> n == |s|
    ensures (forall i :: 0 <= i < |s| ==> Astral(s[i])) ==> n == 2 * |s|
  {
    if s == [] then 0
    else Utf16Length(s[..|s| - 1]) + (if Astral(s[|s| - 1]) then 2 else 1)
  }

  /** A time of day, to the second. */
  type TimeOfDay = t: int | 0 <= t < SecondsPerDay

  /**
   * Length of a shift from `start` to `end`, both seconds after midnight; an
   * end before the start is read as the next day.
   */
  function ShiftSeconds(start: int, end: int): (d: int)
    requires 0 <= start < SecondsPerDay && 0 <= end < SecondsPerDay
    ensures 0 <= d < SecondsPerDay
    ensures (start + d) % SecondsPerDay == end
  {
    if end < start then end + SecondsPerDay - start else end - start
  }

  /** The wrap-around reading is the only one: any shorter-than-a-day gap that
      ends at `end` is the one `ShiftSeconds` gives. */
  lemma ShiftSecondsUnique(start: int, end: int, d: int)
    requires 0 <= start < SecondsPerDay && 0 <= end < SecondsPerDay
    requires 0 <= d < SecondsPerDay && (start + d) % SecondsPerDay == end
    ensures d == ShiftSeconds(start, end)
  {
    if start + d >= SecondsPerDay {
      assert (start + d) % SecondsPerDay == start + d - SecondsPerDay;
    } else {
      assert (start + d) % SecondsPerDay == start + d;
    }
  }
}
