/** Shared vocabulary of the fan hub model: optional values and outcomes,
    the decimal rendering JavaScript uses for non-negative integers,
    String.prototype.trim, and Array.prototype.filter. */
module Common {

  /** A value that may be absent (`null` / `undefined` in the source). */
  datatype Option<+T> = None | Some(value: T)

  /** The result of an operation that may fail with an error of type E. */
  datatype Outcome<+E> = Pass | Fail(error: E)

  // ---------------------------------------------------------------------------
  // Decimal rendering of non-negative integers (`n.toString()`, `${n}`)
  // ---------------------------------------------------------------------------

  predicate IsDigit(c: char) {
    '0' <= c <= '9'
  }

  predicate AllDigits(s: string) {
    forall i :: 0 <= i < |s| ==> IsDigit(s[i])
  }

  function DigitChar(d: nat): (c: char)
    requires d < 10
    ensures IsDigit(c) && c as int - '0' as int == d
  {
    "0123456789"[d]
  }

  function DigitValue(c: char): (d: nat)
    requires IsDigit(c)
    ensures d < 10
  {
    c as int - '0' as int
  }

  /** The shortest decimal spelling of `n`: digits only, no leading zero. */
  function Decimal(n: nat): (s: string)
    ensures 1 <= |s| && AllDigits(s)
    ensures s[0] == '0' ==> n == 0
    ensures n < 10 <==> |s| == 1
    decreases n
  {
    if n < 10 then [DigitChar(n)] else Decimal(n / 10) + [DigitChar(n % 10)]
  }

  /** Reads a string of decimal digits back as a number (an independent reading
      of what `Decimal` writes). */
  function ParseDecimal(s: string): nat
    requires AllDigits(s)
  {
    if s == [] then 0 else ParseDecimal(s[..|s| - 1]) * 10 + DigitValue(s[|s| - 1])
  }

  /** Reading back what `Decimal` writes gives the number again. */
  lemma {:induction false} DecimalRoundTrip(n: nat)
    ensures ParseDecimal(Decimal(n)) == n
  {
    if n >= 10 {
      var s := Decimal(n);
      assert s[..|s| - 1] == Decimal(n / 10);
      DecimalRoundTrip(n / 10);
    }
  }

  /** Two different numbers never have the same spelling. */
  lemma DecimalInjective(m: nat, n: nat)
    requires Decimal(m) == Decimal(n)
    ensures m == n
  {
    DecimalRoundTrip(m);
    DecimalRoundTrip(n);
  }

  // ---------------------------------------------------------------------------
  // String.prototype.trim
  // ---------------------------------------------------------------------------

  /** The characters ECMAScript's `trim` removes: WhiteSpace (TAB, VT, FF,
      SPACE, NBSP, ZWNBSP and the Unicode space separators) and
      LineTerminator (LF, CR, LS, PS). */
  predicate IsJsWhitespace(c: char) {
    c == '\t' || c == '\U{B}' || c == '\U{C}' || c == ' ' || c == '\U{A0}' || c == '\U{FEFF}'
    || c == '\U{1680}' || ('\U{2000}' <= c <= '\U{200A}') || c == '\U{202F}' || c == '\U{205F}'
    || c == '\U{3000}' || c == '\n' || c == '\r' || c == '\U{2028}' || c == '\U{2029}'
  }

  function TrimStart(s: string): (r: string)
    ensures |r| <= |s|
  {
    if s != [] && IsJsWhitespace(s[0]) then TrimStart(s[1..]) else s
  }

  function TrimEnd(s: string): (r: string)
    ensures |r| <= |s|
    ensures r != [] ==> !IsJsWhitespace(r[|r| - 1])
  {
    if s != [] && IsJsWhitespace(s[|s| - 1]) then TrimEnd(s[..|s| - 1]) else s
  }

  /** `s.trim()`: leading and trailing whitespace removed. The result is
      empty exactly when every character is whitespace, which is when the
      source treats a chat message as blank; otherwise it neither starts
      nor ends with whitespace. */
  function Trim(s: string): (r: string)
    ensures |r| <= |s|
    ensures r == [] <==> AllWhitespace(s)
    ensures r != [] ==> !IsJsWhitespace(r[0]) && !IsJsWhitespace(r[|r| - 1])
  {
    TrimStartResult(s);
    if TrimStart(s) != [] then
      TrimEndKeepsFirst(TrimStart(s));
      TrimEnd(TrimStart(s))
    else
      TrimEnd(TrimStart(s))
  }

  predicate AllWhitespace(s: string) {
    forall i :: 0 <= i < |s| ==> IsJsWhitespace(s[i])
  }

  lemma {:induction false} TrimStartResult(s: string)
    ensures TrimStart(s) == [] <==> AllWhitespace(s)
    ensures TrimStart(s) != [] ==> !IsJsWhitespace(TrimStart(s)[0])
  {
    if s != [] && IsJsWhitespace(s[0]) {
      TrimStartResult(s[1..]);
      if AllWhitespace(s[1..]) {
        forall i | 0 <= i < |s| ensures IsJsWhitespace(s[i]) {
          if i > 0 { assert s[i] == s[1..][i - 1]; }
        }
      }
    }
  }

  lemma {:induction false} TrimEndKeepsFirst(s: string)
    requires s != [] && !IsJsWhitespace(s[0])
    ensures TrimEnd(s) != [] && TrimEnd(s)[0] == s[0]
  {
    if IsJsWhitespace(s[|s| - 1]) {
      TrimEndKeepsFirst(s[..|s| - 1]);
    }
  }

  // ---------------------------------------------------------------------------
  // Array.prototype.filter
  // ---------------------------------------------------------------------------

  /** The elements of `s` that `keep` accepts, in their original order. */
  function Filter<T>(s: seq<T>, keep: T -> bool): (r: seq<T>)
    ensures |r| <= |s|
  {
    if s == [] then [] else (if keep(s[0]) then [s[0]] else []) + Filter(s[1..], keep)
  }

  /** An element is kept exactly when it occurs in the input and is accepted. */
  lemma {:induction false} FilterMembership<T>(s: seq<T>, keep: T -> bool)
    ensures forall i :: 0 <= i < |Filter(s, keep)| ==> Filter(s, keep)[i] in s && keep(Filter(s, keep)[i])
    ensures forall i :: 0 <= i < |s| && keep(s[i]) ==> s[i] in Filter(s, keep)
  {
    if s != [] {
      FilterMembership(s[1..], keep);
      assert s == [s[0]] + s[1..];
    }
  }

  /** Filtering a concatenation filters each part and keeps them in order:
      the filter never reorders elements. */
  lemma {:induction false} FilterAppend<T>(a: seq<T>, b: seq<T>, keep: T -> bool)
    ensures Filter(a + b, keep) == Filter(a, keep) + Filter(b, keep)
  {
    if a == [] {
      assert a + b == b;
    } else {
      var head := if keep(a[0]) then [a[0]] else [];
      assert (a + b)[0] == a[0];
      assert (a + b)[1..] == a[1..] + b;
      FilterAppend(a[1..], b, keep);
      calc {
        Filter(a + b, keep);
        head + Filter(a[1..] + b, keep);
        head + (Filter(a[1..], keep) + Filter(b, keep));
        (head + Filter(a[1..], keep)) + Filter(b, keep);
      }
    }
  }

  /** An element the filter rejects makes the result strictly shorter. */
  lemma {:induction false} FilterDropsRejected<T>(s: seq<T>, keep: T -> bool, i: nat)
    requires i < |s| && !keep(s[i])
    ensures |Filter(s, keep)| < |s|
  {
    if i > 0 {
      assert s[1..][i - 1] == s[i];
      FilterDropsRejected(s[1..], keep, i - 1);
    }
  }

  /** When every element is accepted, the filter returns the input unchanged. */
  lemma {:induction false} FilterKeepsAll<T>(s: seq<T>, keep: T -> bool)
    requires forall i :: 0 <= i < |s| ==> keep(s[i])
    ensures Filter(s, keep) == s
  {
    if s != [] {
      FilterKeepsAll(s[1..], keep);
    }
  }

  // ---------------------------------------------------------------------------
  // Tab filters: `selected === 'all' ? items : items.filter(x => tag(x) === selected)`
  // ---------------------------------------------------------------------------

  /** The items a tab shows: everything for "all", otherwise the items whose
      tag is the selected one. */
  function ByTab<T>(items: seq<T>, selected: string, tag: T -> string): seq<T> {
    if selected == "all" then items else Filter(items, (x: T) => tag(x) == selected)
  }

  /** The "all" tab shows every item; any other tab shows exactly the items
      carrying its tag. */
  lemma ByTabExact<T>(items: seq<T>, selected: string, tag: T -> string)
    ensures selected == "all" ==> ByTab(items, selected, tag) == items
    ensures selected != "all" ==> forall i :: 0 <= i < |ByTab(items, selected, tag)| ==>
              ByTab(items, selected, tag)[i] in items && tag(ByTab(items, selected, tag)[i]) == selected
    ensures selected != "all" ==> forall i :: 0 <= i < |items| && tag(items[i]) == selected ==>
              items[i] in ByTab(items, selected, tag)
  {
    if selected != "all" {
      FilterMembership(items, (x: T) => tag(x) == selected);
    }
  }

  /** A tab lists its items in their original order: the tab of a
      concatenation is the concatenation of the tabs. */
  lemma ByTabKeepsOrder<T>(a: seq<T>, b: seq<T>, selected: string, tag: T -> string)
    ensures ByTab(a + b, selected, tag) == ByTab(a, selected, tag) + ByTab(b, selected, tag)
  {
    if selected != "all" {
      FilterAppend(a, b, (x: T) => tag(x) == selected);
    }
  }

  /** Away from "all", a tab decides its first item and then shows the rest's
      tab: the step by which a concrete tab is worked out. */
  lemma ByTabCons<T>(x: T, rest: seq<T>, selected: string, tag: T -> string)
    requires selected != "all"
    ensures ByTab([x] + rest, selected, tag) == (if tag(x) == selected then [x] else []) + ByTab(rest, selected, tag)
  {
  }
}
