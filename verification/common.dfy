/**
 * Shared helpers: optional values, ASCII case mapping, substring search,
 * first-occurrence de-duplication and the "snake_case to Title Case"
 * rendering that several components use for display names.
 */
module Common {

  datatype Option<T> = None | Some(value: T)

  /** The outcome of an operation whose source raises or returns an error instead of a value. */
  datatype Result<T, E> = Ok(value: T) | Err(error: E)

  /** The value of an optional field, or the default that `.get(key, default)` supplies. */
  function GetOr<T>(o: Option<T>, default: T): T
  {
    if o.Some? then o.value else default
  }

  function Min(a: real, b: real): real { if a <= b then a else b }
  function Max(a: real, b: real): real { if a >= b then a else b }

  /** Clamp `x` into [lo, hi] (numpy `clip`). */
  function Clip(x: real, lo: real, hi: real): (r: real)
    requires lo <= hi
    ensures lo <= r <= hi
    ensures lo <= x <= hi ==> r == x
  {
    if x < lo then lo else if x > hi then hi else x
  }

  /** Python's `int(x)` and numpy's `astype(int)`: truncation toward zero. */
  function Truncate(x: real): (i: int)
    ensures x >= 0.0 ==> i as real <= x < i as real + 1.0
    ensures x < 0.0 ==> i as real - 1.0 < x <= i as real
  {
    if x >= 0.0 then x.Floor else -((-x).Floor)
  }

  // ---------------------------------------------------------------------
  // ASCII case mapping (Python's str.lower / str.upper / str.title on ASCII)
  // ---------------------------------------------------------------------

  predicate IsUpper(c: char) { 'A' <= c <= 'Z' }
  predicate IsLowerLetter(c: char) { 'a' <= c <= 'z' }
  predicate IsLetter(c: char) { IsUpper(c) || IsLowerLetter(c) }

  function LowerChar(c: char): char
  {
    if IsUpper(c) then (c as int + 32) as char else c
  }

  function UpperChar(c: char): char
  {
    if IsLowerLetter(c) then (c as int - 32) as char else c
  }

  /** Case mapping sends every letter into the requested case. */
  lemma CaseMapping()
    ensures forall c: char | IsLetter(c) :: IsUpper(UpperChar(c)) && IsLowerLetter(LowerChar(c))
  {
  }

  function Lower(s: string): string
  {
    seq(|s|, i requires 0 <= i < |s| => LowerChar(s[i]))
  }

  function Upper(s: string): string
  {
    seq(|s|, i requires 0 <= i < |s| => UpperChar(s[i]))
  }

  predicate NoUpper(s: string)
  {
    forall i | 0 <= i < |s| :: !IsUpper(s[i])
  }

  lemma LowerId(s: string)
    requires NoUpper(s)
    ensures Lower(s) == s
  {
  }

  /** Lower-casing is idempotent and leaves no upper-case letter behind. */
  lemma LowerIdempotent(s: string)
    ensures NoUpper(Lower(s))
    ensures Lower(Lower(s)) == Lower(s)
  {
  }

  /** Lower-casing every element of a list (`[m.lower() for m in xs]`). */
  function LowerAll(xs: seq<string>): (r: seq<string>)
    ensures |r| == |xs|
  {
    seq(|xs|, i requires 0 <= i < |xs| => Lower(xs[i]))
  }

  /** Python's `str.replace('_', ' ')`. */
  function UnderscoreToSpace(s: string): string
  {
    seq(|s|, i requires 0 <= i < |s| => if s[i] == '_' then ' ' else s[i])
  }

  /**
   * Python's `str.title()` on ASCII text: a letter is upper-cased when it
   * starts a word (it is first, or follows a non-letter) and lower-cased
   * otherwise; other characters are unchanged.
   */
  function Title(s: string): string
  {
    seq(|s|, i requires 0 <= i < |s| =>
      if i == 0 || !IsLetter(s[i - 1]) then UpperChar(s[i]) else LowerChar(s[i]))
  }

  /** Title-casing upper-cases the letter that starts a word, lower-cases every other letter, and keeps the rest. */
  lemma TitleCases(s: string)
    ensures |Title(s)| == |s|
    ensures forall i | 0 <= i < |s| && !IsLetter(s[i]) :: Title(s)[i] == s[i]
    ensures forall i | 0 <= i < |s| && IsLetter(s[i]) ::
      if i == 0 || !IsLetter(s[i - 1]) then IsUpper(Title(s)[i]) else IsLowerLetter(Title(s)[i])
  {
    forall i | 0 <= i < |s| && IsLetter(s[i])
      ensures if i == 0 || !IsLetter(s[i - 1]) then IsUpper(Title(s)[i]) else IsLowerLetter(Title(s)[i])
    {
      CaseMapping();
    }
  }

  /** `name.replace('_', ' ').title()`: the display form of a snake_case key. */
  function Humanize(name: string): (r: string)
    ensures |r| == |name|
    ensures forall i | 0 <= i < |name| :: (name[i] == '_' <==> r[i] == ' ') || name[i] == ' '
    ensures forall i | 0 <= i < |name| && !IsLetter(name[i]) && name[i] != '_' :: r[i] == name[i]
    ensures forall i | 0 <= i < |name| && IsLetter(name[i]) ::
      if i == 0 || !IsLetter(name[i - 1]) then IsUpper(r[i]) else IsLowerLetter(r[i])
  {
    TitleCases(UnderscoreToSpace(name));
    Title(UnderscoreToSpace(name))
  }

  // ---------------------------------------------------------------------
  // Substring search (Python's `needle in haystack` on strings)
  // ---------------------------------------------------------------------

  predicate OccursAt(needle: string, hay: string, i: int)
  {
    0 <= i && i + |needle| <= |hay| && hay[i..i + |needle|] == needle
  }

  predicate IsInfix(needle: string, hay: string)
  {
    exists i | 0 <= i <= |hay| :: OccursAt(needle, hay, i)
  }

  /** A needle containing a character the haystack lacks is not a substring of it. */
  lemma NotInfixByChar(needle: string, hay: string, k: nat)
    requires k < |needle| && needle[k] !in hay
    ensures !IsInfix(needle, hay)
  {
  }

  /** The empty string is a substring of everything; a longer needle is never one. */
  lemma InfixBasics(needle: string, hay: string)
    ensures IsInfix("", hay)
    ensures |needle| > |hay| ==> !IsInfix(needle, hay)
  {
    assert OccursAt("", hay, 0);
  }

  /** `any(needle in m for m in items)`. */
  predicate AnyContains(items: seq<string>, needle: string)
  {
    exists j | 0 <= j < |items| :: IsInfix(needle, items[j])
  }

  /** A needle with a character that no item contains is contained in none of them. */
  lemma NoneContainsByChar(items: seq<string>, needle: string, k: nat)
    requires k < |needle| && forall j | 0 <= j < |items| :: needle[k] !in items[j]
    ensures !AnyContains(items, needle)
  {
    forall j | 0 <= j < |items| ensures !IsInfix(needle, items[j]) {
      NotInfixByChar(needle, items[j], k);
    }
  }

  /** `any(x in needle for x in items)` — some item occurs inside `hay`. */
  predicate SomeItemIn(items: seq<string>, hay: string)
  {
    exists j | 0 <= j < |items| :: IsInfix(items[j], hay)
  }

  // ---------------------------------------------------------------------
  // De-duplication keeping the first occurrence (`list(dict.fromkeys(xs))`)
  // ---------------------------------------------------------------------

  predicate NoDup<T(==)>(s: seq<T>)
  {
    forall i, j | 0 <= i < j < |s| :: s[i] != s[j]
  }

  function Dedup<T(==)>(s: seq<T>): (r: seq<T>)
    ensures NoDup(r)
    ensures forall i | 0 <= i < |r| :: r[i] in s
    ensures forall i | 0 <= i < |s| :: s[i] in r
    ensures |r| <= |s|
  {
    if |s| == 0 then []
    else
      var p := Dedup(s[..|s| - 1]);
      assert forall i | 0 <= i < |s| - 1 :: s[i] == s[..|s| - 1][i];
      if s[|s| - 1] in p then p else p + [s[|s| - 1]]
  }

  /** De-duplication keeps exactly the elements of the list. */
  lemma DedupMembers<T>(s: seq<T>, x: T)
    ensures x in Dedup(s) <==> x in s
  {
    if x in s {
      var k :| 0 <= k < |s| && s[k] == x;
    }
    if x in Dedup(s) {
      var k :| 0 <= k < |Dedup(s)| && Dedup(s)[k] == x;
    }
  }

  /** A list without repeats is its own de-duplication. */
  lemma {:induction false} DedupNoDup<T>(s: seq<T>)
    requires NoDup(s)
    ensures Dedup(s) == s
  {
    if |s| > 0 {
      var init := s[..|s| - 1];
      assert NoDup(init);
      DedupNoDup(init);
      assert s[|s| - 1] !in init;
      assert s == init + [s[|s| - 1]];
    }
  }

  /** De-duplication keeps first occurrences in order: an element seen earlier is placed earlier. */
  lemma {:induction false} DedupKeepsOrder<T>(s: seq<T>, i: nat, j: nat)
    requires i < j < |s| && s[i] != s[j]
    requires forall k | 0 <= k < i :: s[k] != s[i]
    requires forall k | 0 <= k < j :: s[k] != s[j]
    ensures exists a, b | 0 <= a < b < |Dedup(s)| :: Dedup(s)[a] == s[i] && Dedup(s)[b] == s[j]
  {
    var init := s[..|s| - 1];
    if j == |s| - 1 {
      assert s[i] in init;
      var p := Dedup(init);
      assert s[j] !in init;
      var a :| 0 <= a < |p| && p[a] == s[i];
      assert Dedup(s) == p + [s[j]];
      assert Dedup(s)[a] == s[i] && Dedup(s)[|p|] == s[j];
    } else {
      DedupKeepsOrder(init, i, j);
      var p := Dedup(init);
      var a, b :| 0 <= a < b < |p| && p[a] == s[i] && p[b] == s[j];
      assert Dedup(s)[a] == s[i] && Dedup(s)[b] == s[j];
    }
  }

  /** Keep the first `n` elements, as Python's `xs[:n]` does (a negative `n` drops `-n` from the end). */
  function PyPrefix<T>(xs: seq<T>, n: int): (r: seq<T>)
    ensures |r| <= |xs|
    ensures n >= 0 ==> |r| == if n <= |xs| then n else |xs|
    ensures r == xs[..|r|]
  {
    if n >= 0 then (if n <= |xs| then xs[..n] else xs)
    else if -n >= |xs| then []
    else xs[..|xs| + n]
  }

  /** Decimal rendering of a natural number. */
  function DecimalDigits(n: nat): (r: string)
    ensures |r| >= 1
    ensures forall i | 0 <= i < |r| :: '0' <= r[i] <= '9'
  {
    if n < 10 then [('0' as int + n) as char]
    else DecimalDigits(n / 10) + [('0' as int + n % 10) as char]
  }

  /** Left-pad with '0' to at least `width` characters (Python's `:0Nd`). */
  function ZeroPad(s: string, width: nat): (r: string)
    ensures |r| == if |s| >= width then |s| else width
    ensures r == Zeros(|r| - |s|) + s
  {
    if |s| >= width then s else Zeros(width - |s|) + s
  }

  function Zeros(k: nat): (z: string)
    ensures |z| == k
  {
    seq(k, _ => '0')
  }

  predicate AllDigits(s: string)
  {
    forall i | 0 <= i < |s| :: '0' <= s[i] <= '9'
  }

  /** The number a string of decimal digits denotes (Python's `int(s)`). */
  function DigitsValue(s: string): nat
    requires AllDigits(s)
  {
    if |s| == 0 then 0
    else DigitsValue(s[..|s| - 1]) * 10 + (s[|s| - 1] as int - '0' as int)
  }

  /** Rendering a number in decimal and reading it back gives the number. */
  lemma {:induction false} DecimalDigitsRoundTrip(n: nat)
    ensures AllDigits(DecimalDigits(n)) && DigitsValue(DecimalDigits(n)) == n
  {
    if n >= 10 {
      DecimalDigitsRoundTrip(n / 10);
      var d := DecimalDigits(n);
      assert d[..|d| - 1] == DecimalDigits(n / 10);
    }
  }

  /** Leading zeros do not change the value. */
  lemma {:induction false} LeadingZeros(k: nat, s: string)
    requires AllDigits(s)
    ensures AllDigits(Zeros(k) + s) && DigitsValue(Zeros(k) + s) == DigitsValue(s)
    decreases |s|, k
  {
    var t := Zeros(k) + s;
    if |s| == 0 {
      assert t == Zeros(k);
      if k > 0 {
        assert t[..|t| - 1] == Zeros(k - 1) + s;
        LeadingZeros(k - 1, s);
      }
    } else {
      assert t[..|t| - 1] == Zeros(k) + s[..|s| - 1];
      LeadingZeros(k, s[..|s| - 1]);
    }
  }
}
