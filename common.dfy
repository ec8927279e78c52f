/** JavaScript values and string operations shared by every view: optional values,
    the `number | ""` form slots, `Number(...)`, truthiness, ASCII lower-casing,
    `trim`, `includes`, `a || b` on strings, and the array `filter` / `find` methods. */
module Common {

  datatype Option<+T> = None | Some(value: T)

  /** A JavaScript number as the form code produces it: an integer, or NaN when
      `Number` is applied to a string that is not a decimal integer. */
  datatype Num = Int(n: int) | NaN

  /** A form slot typed `number | ""`: either the raw string a control delivered,
      or the number it was coerced to. */
  datatype Field = Text(s: string) | Number(v: Num)

  const Blank: Field := Text("")

  // ---------------------------------------------------------------------------
  // Decimal numbers

  predicate IsDigit(c: char) { '0' <= c <= '9' }

  predicate AllDigits(s: string) { forall i | 0 <= i < |s| :: IsDigit(s[i]) }

  function DigitValue(c: char): nat
    requires IsDigit(c)
  {
    c as int - '0' as int
  }

  function DigitChar(d: nat): char
    requires d < 10
  {
    ('0' as int + d) as char
  }

  /** The value of a string of decimal digits, read most significant digit first. */
  function DigitsValue(s: string): nat
    requires AllDigits(s)
  {
    if s == [] then 0 else DigitsValue(s[..|s| - 1]) * 10 + DigitValue(s[|s| - 1])
  }

  /** `String(n)` for a natural number: its decimal digits without leading zeros. */
  function NatDecimal(n: nat): (s: string)
    ensures s != [] && AllDigits(s)
  {
    if n < 10 then [DigitChar(n)] else NatDecimal(n / 10) + [DigitChar(n % 10)]
  }

  /** `String(n)`, the text React renders for a number and puts in an option's value. */
  function Decimal(n: int): string
  {
    if n < 0 then "-" + NatDecimal(-n) else NatDecimal(n)
  }

  /** `Number(s)` on the strings the forms deliver: "" is 0, a decimal integer with an
      optional leading '-' is its value, anything else is NaN. */
  function ToNumber(s: string): Num
  {
    if AllDigits(s) then Int(DigitsValue(s))
    else if |s| > 1 && s[0] == '-' && AllDigits(s[1..]) then Int(-(DigitsValue(s[1..]) as int))
    else NaN
  }

  lemma {:induction false} NatDecimalValue(n: nat)
    ensures DigitsValue(NatDecimal(n)) == n
  {
    if n >= 10 {
      var s := NatDecimal(n / 10);
      var t := s + [DigitChar(n % 10)];
      assert t[..|t| - 1] == s;
      NatDecimalValue(n / 10);
    }
  }

  /** Reading back the text of a number gives the number: an option whose value is
      `String(id)` yields `id` again under `Number`. */
  lemma DecimalRoundTrip(n: int)
    ensures ToNumber(Decimal(n)) == Int(n)
  {
    if n < 0 {
      var s := "-" + NatDecimal(-n);
      assert s[1..] == NatDecimal(-n);
      assert !IsDigit(s[0]);
      NatDecimalValue(-n);
    } else {
      NatDecimalValue(n);
    }
  }

  /** `value === "" ? "" : Number(value)`, applied by the forms to their numeric controls. */
  function Coerce(value: string): (f: Field)
    ensures f == Blank <==> value == ""
  {
    if value == "" then Blank else Number(ToNumber(value))
  }

  /** Selecting the option rendered for `id` stores the number `id` in the slot. */
  lemma CoerceOption(id: int)
    ensures Coerce(Decimal(id)) == Number(Int(id))
  {
    DecimalRoundTrip(id);
  }

  /** `Number(x)` for a value held in a form slot (`Number("")` is 0). */
  function NumberOf(f: Field): Num
  {
    match f
    case Text(s) => ToNumber(s)
    case Number(v) => v
  }

  /** JavaScript truthiness of a form slot: "", 0 and NaN are falsy. */
  predicate Truthy(f: Field)
  {
    match f
    case Text(s) => s != ""
    case Number(v) => v.Int? && v.n != 0
  }

  /** `x || ""` for a nullable id: null and 0 become "", any other id becomes that number. */
  function IdOrBlank(x: Option<int>): (f: Field)
    ensures Truthy(f) <==> x.Some? && x.value != 0
    ensures Truthy(f) ==> NumberOf(f) == Int(x.value)
  {
    if x.Some? && x.value != 0 then Number(Int(x.value)) else Blank
  }

  /** `x ?? ""` for a nullable id: only null becomes "", while 0 stays a number. */
  function IdOrEmpty(x: Option<int>): (f: Field)
    ensures f == Blank <==> x.None?
    ensures x.Some? ==> NumberOf(f) == Int(x.value)
  {
    if x.Some? then Number(Int(x.value)) else Blank
  }

  /** A `number | "all"` filter select. */
  datatype Selector = All | Only(value: Num)

  /** `value === "all" ? "all" : Number(value)`, the change handler of every filter
      select. */
  function SelectorOf(value: string): (sel: Selector)
    ensures sel.All? <==> value == "all"
  {
    if value == "all" then All else Only(ToNumber(value))
  }

  /** `sel === "all" || x === sel`. */
  predicate Selects(sel: Selector, x: int)
  {
    sel.All? || sel.value == Int(x)
  }

  /** The same comparison against a nullable field: null equals no number. */
  predicate SelectsOption(sel: Selector, x: Option<int>)
  {
    sel.All? || (x.Some? && sel.value == Int(x.value))
  }

  /** Picking the option rendered for `id` keeps exactly the entries carrying `id`. */
  lemma PickOption(id: int, x: int)
    ensures Selects(SelectorOf(Decimal(id)), x) <==> x == id
    ensures SelectsOption(SelectorOf(Decimal(id)), Some(x)) <==> x == id
    ensures !SelectsOption(SelectorOf(Decimal(id)), None)
  {
    DecimalRoundTrip(id);
    assert Decimal(id) != "all" by {
      if id < 0 {
        assert Decimal(id)[0] == '-';
      } else {
        assert IsDigit(Decimal(id)[0]);
      }
    }
  }

  /** A `toast(title, { description })` notification. */
  datatype Toast = Toast(title: string, description: string)

  /** What a handler shows the user: nothing, a toast, or an `alert` box. */
  datatype Notice = Silent | Toasted(toast: Toast) | Alerted(message: string)

  // ---------------------------------------------------------------------------
  // Strings

  /** `a || b` for strings: the empty string is falsy. */
  function Or(a: string, b: string): (r: string)
    ensures r == a || r == b
    ensures r == a <==> a != "" || a == b
  {
    if a != "" then a else b
  }

  /** `s ?? ""`, `s || ""` for a nullable string. */
  function OrBlank(s: Option<string>): (r: string)
    ensures s.None? ==> r == ""
    ensures s.Some? ==> r == s.value
  {
    if s.Some? then s.value else ""
  }

  /** Lower-casing, over ASCII only. */
  function LowerChar(c: char): char
  {
    if 'A' <= c <= 'Z' then (c as int + 32) as char else c
  }

  function Lower(s: string): (r: string)
    ensures |r| == |s|
  {
    seq(|s|, i requires 0 <= i < |s| => LowerChar(s[i]))
  }

  /** The characters matched by `\s` and removed by `trim`: white space and line terminators. */
  predicate IsSpace(c: char)
  {
    var k := c as int;
    (9 <= k <= 13) || k == 32 || k == 0xA0 || k == 0x1680 || (0x2000 <= k <= 0x200A)
    || k == 0x2028 || k == 0x2029 || k == 0x202F || k == 0x205F || k == 0x3000 || k == 0xFEFF
  }

  predicate AllSpace(s: string) { forall i | 0 <= i < |s| :: IsSpace(s[i]) }

  function TrimStart(s: string): (r: string)
    ensures |r| <= |s| && r == s[|s| - |r|..]
    ensures AllSpace(s[..|s| - |r|])
    ensures r != [] ==> !IsSpace(r[0])
  {
    if s != [] && IsSpace(s[0]) then
      var r := TrimStart(s[1..]);
      assert s[..|s| - |r|] == [s[0]] + s[1..][..|s| - 1 - |r|];
      r
    else s
  }

  function TrimEnd(s: string): (r: string)
    ensures |r| <= |s| && r == s[..|r|]
    ensures AllSpace(s[|r|..])
    ensures r != [] ==> !IsSpace(r[|r| - 1])
  {
    if s != [] && IsSpace(s[|s| - 1]) then
      var r := TrimEnd(s[..|s| - 1]);
      assert s[|r|..] == s[..|s| - 1][|r|..] + [s[|s| - 1]];
      r
    else s
  }

  /** `s.trim()`. */
  function Trim(s: string): string
  {
    TrimEnd(TrimStart(s))
  }

  /** A string trims to "" exactly when it is all white space. */
  lemma TrimEmpty(s: string)
    ensures Trim(s) == "" <==> AllSpace(s)
  {
    var a := TrimStart(s);
    if !AllSpace(s) {
      var k :| 0 <= k < |s| && !IsSpace(s[k]);
      assert a[k - (|s| - |a|)] == s[k];
    }
  }

  /** Lower-casing keeps white space where it is. */
  lemma LowerKeepsSpace(s: string)
    ensures AllSpace(Lower(s)) <==> AllSpace(s)
  {
    assert forall i | 0 <= i < |s| :: IsSpace(Lower(s)[i]) <==> IsSpace(s[i]);
  }

  /** Lower-casing twice is lower-casing once. */
  lemma LowerIdempotent(s: string)
    ensures Lower(Lower(s)) == Lower(s)
  {
  }

  /** `hay.includes(needle)`. */
  predicate Contains(hay: string, needle: string)
  {
    exists i | 0 <= i <= |hay| - |needle| :: OccursAt(hay, needle, i)
  }

  predicate OccursAt(hay: string, needle: string, i: nat)
  {
    i + |needle| <= |hay| && hay[i..i + |needle|] == needle
  }

  /** `xs.split(" ")[0]`: the text before the first space, or all of `s` when it has none. */
  function FirstWord(s: string): (r: string)
    ensures ' ' !in r
    ensures |r| <= |s| && r == s[..|r|]
    ensures |r| < |s| ==> s[|r|] == ' '
  {
    if s == [] || s[0] == ' ' then [] else [s[0]] + FirstWord(s[1..])
  }

  /** The first word of a text that starts with a space-free word and a space is that
      word. */
  lemma {:induction false} FirstWordOf(first: string, rest: string)
    requires ' ' !in first
    ensures FirstWord(first + " " + rest) == first
  {
    if first != [] {
      assert (first + " " + rest)[1..] == first[1..] + " " + rest;
      FirstWordOf(first[1..], rest);
    }
  }

  // ---------------------------------------------------------------------------
  // Arrays

  /** `xs.filter(p)`: the elements satisfying `p`, in their original order. */
  function Filter<T(!new)>(xs: seq<T>, p: T -> bool): (r: seq<T>)
    ensures |r| <= |xs|
    ensures forall x :: x in r <==> x in xs && p(x)
    ensures (forall i | 0 <= i < |xs| :: p(xs[i])) ==> r == xs
    ensures (forall i | 0 <= i < |xs| :: !p(xs[i])) ==> r == []
  {
    if xs == [] then [] else (if p(xs[0]) then [xs[0]] else []) + Filter(xs[1..], p)
  }

  /** Filtering a list with one more element at the end filters that element last. */
  lemma {:induction false} FilterSnoc<T(!new)>(xs: seq<T>, x: T, p: T -> bool)
    ensures Filter(xs + [x], p) == Filter(xs, p) + (if p(x) then [x] else [])
  {
    if xs == [] {
      assert [x][1..] == [];
    } else {
      var ys := xs + [x];
      assert ys[0] == xs[0] && ys[1..] == xs[1..] + [x];
      FilterSnoc(xs[1..], x, p);
      var head := if p(xs[0]) then [xs[0]] else [];
      calc {
        Filter(ys, p);
        head + Filter(xs[1..] + [x], p);
        head + (Filter(xs[1..], p) + (if p(x) then [x] else []));
        (head + Filter(xs[1..], p)) + (if p(x) then [x] else []);
      }
    }
  }

  /** Filtering by two tests that agree on every element gives the same list. */
  lemma {:induction false} FilterSame<T(!new)>(xs: seq<T>, p: T -> bool, q: T -> bool)
    requires forall i | 0 <= i < |xs| :: p(xs[i]) == q(xs[i])
    ensures Filter(xs, p) == Filter(xs, q)
  {
    if xs != [] {
      assert forall i | 0 <= i < |xs[1..]| :: xs[1..][i] == xs[i + 1];
      FilterSame(xs[1..], p, q);
    }
  }

  /** `xs.find(p)`: the first element satisfying `p`, if any. */
  function Find<T>(xs: seq<T>, p: T -> bool): (r: Option<T>)
    ensures r.None? <==> forall i | 0 <= i < |xs| :: !p(xs[i])
    ensures r.Some? ==> exists i | 0 <= i < |xs| :: xs[i] == r.value && p(xs[i])
                          && forall j | 0 <= j < i :: !p(xs[j])
    ensures forall k | 0 <= k < |xs| && p(xs[k]) && (forall j | 0 <= j < k :: !p(xs[j])) :: r == Some(xs[k])
  {
    if xs == [] then None
    else if p(xs[0]) then Some(xs[0])
    else
      var r := Find(xs[1..], p);
      assert r.Some? ==> exists i | 1 <= i < |xs| :: xs[i] == r.value && p(xs[i])
                           && forall j | 0 <= j < i :: !p(xs[j]);
      r
  }
}
