/** The Python `str` operations the hooks rely on, over `seq<char>`.
    `lower` is modelled on ASCII letters only; `strip` and `\s` use Python's
    full `str.isspace` set. */
module Text {
  import opened Wrappers

  // ---------------------------------------------------------------------
  // Characters
  // ---------------------------------------------------------------------

  predicate IsUpper(c: char) { 'A' <= c <= 'Z' }

  predicate IsDigit(c: char) { '0' <= c <= '9' }

  /** `str.isspace` for one character. */
  predicate IsSpace(c: char) {
    var n := c as int;
    n == 32 || 9 <= n <= 13 || 28 <= n <= 31 || n == 0x85 || n == 0xA0
    || n == 0x1680 || 0x2000 <= n <= 0x200A || n == 0x2028 || n == 0x2029
    || n == 0x202F || n == 0x205F || n == 0x3000
  }

  function LowerChar(c: char): (r: char)
    ensures !IsUpper(r)
    ensures IsUpper(c) || r == c
  {
    if IsUpper(c) then (c as int + 32) as char else c
  }

  // ---------------------------------------------------------------------
  // lower / strip / replace
  // ---------------------------------------------------------------------

  /** `s.lower()` */
  function Lower(s: string): (r: string)
    ensures |r| == |s|
    ensures forall k {:trigger r[k]} :: 0 <= k < |s| ==> r[k] == LowerChar(s[k])
  {
    seq(|s|, k requires 0 <= k < |s| => LowerChar(s[k]))
  }

  predicate NoUpper(s: string) { forall k :: 0 <= k < |s| ==> !IsUpper(s[k]) }

  lemma LowerOfLower(s: string)
    requires NoUpper(s)
    ensures Lower(s) == s
  {
  }

  /** Removes the leading whitespace: the result is a suffix of `s` that does
      not start with whitespace. */
  function StripLeft(s: string): (r: string)
    ensures |r| <= |s| && r == s[|s| - |r|..]
    ensures r != [] ==> !IsSpace(r[0])
  {
    if |s| > 0 && IsSpace(s[0]) then StripLeft(s[1..]) else s
  }

  /** Removes the trailing whitespace: the result is a prefix of `s` that does
      not end with whitespace. */
  function StripRight(s: string): (r: string)
    ensures |r| <= |s| && r == s[..|r|]
    ensures r != [] ==> !IsSpace(r[|r| - 1])
  {
    if |s| > 0 && IsSpace(s[|s| - 1]) then StripRight(s[..|s| - 1]) else s
  }

  /** `s.strip()`: what is left of `s` once the whitespace at both ends is
      removed; it has no whitespace at either end. */
  function Strip(s: string): (r: string)
    ensures |r| <= |s|
    ensures r != [] ==> !IsSpace(r[0]) && !IsSpace(r[|r| - 1])
  {
    StripRight(StripLeft(s))
  }

  /** `Strip` leaves alone a string that already has no whitespace at its ends. */
  lemma StripStable(s: string)
    requires s != [] ==> !IsSpace(s[0]) && !IsSpace(s[|s| - 1])
    ensures Strip(s) == s
  {
  }

  /** `s.replace(a, b)` for single characters `a` and `b`. */
  function ReplaceChar(s: string, a: char, b: char): (r: string)
    ensures |r| == |s|
    ensures forall k {:trigger r[k]} :: 0 <= k < |s| ==> r[k] == if s[k] == a then b else s[k]
  {
    seq(|s|, k requires 0 <= k < |s| => if s[k] == a then b else s[k])
  }

  // ---------------------------------------------------------------------
  // Searching: `sub in s`, `s.find(sub)`, `s.endswith(suf)`
  // ---------------------------------------------------------------------

  /** `sub` occurs in `s` starting at index `k`. */
  predicate StartsAt(s: string, sub: string, k: int) {
    0 <= k && k + |sub| <= |s| && s[k..k + |sub|] == sub
  }

  /** The first index at or after `i` where `sub` occurs in `s`. */
  function IndexFrom(s: string, sub: string, i: nat): (r: Option<nat>)
    ensures r.Some? ==> i <= r.value && StartsAt(s, sub, r.value)
    ensures r.Some? ==> forall k :: i <= k < r.value ==> !StartsAt(s, sub, k)
    ensures r.None? ==> forall k :: i <= k ==> !StartsAt(s, sub, k)
    decreases |s| - i
  {
    if i + |sub| > |s| then None
    else if s[i..i + |sub|] == sub then Some(i)
    else IndexFrom(s, sub, i + 1)
  }

  /** `sub in s` */
  predicate Contains(s: string, sub: string)
  {
    IndexFrom(s, sub, 0).Some?
  }

  lemma ContainsIff(s: string, sub: string)
    ensures Contains(s, sub) <==> exists k :: StartsAt(s, sub, k)
  {
  }

  lemma ContainsAt(s: string, sub: string, k: int)
    requires StartsAt(s, sub, k)
    ensures Contains(s, sub)
  {
  }

  /** `s.endswith(suf)` */
  predicate EndsWith(s: string, suf: string) {
    |suf| <= |s| && s[|s| - |suf|..] == suf
  }

  /** `any(s.endswith(x) for x in sufs)`, Python's `s.endswith(tuple)` */
  predicate EndsWithAny(s: string, sufs: seq<string>) {
    exists k :: 0 <= k < |sufs| && EndsWith(s, sufs[k])
  }

  /** `any(p in s for p in pats)` */
  predicate ContainsAny(s: string, pats: seq<string>) {
    exists k :: 0 <= k < |pats| && Contains(s, pats[k])
  }

  // ---------------------------------------------------------------------
  // Lines: `s.split("\n")`, `"\n".join(parts)`
  // ---------------------------------------------------------------------

  /** The index of the first newline at or after `i`, or `|s|` when there is none. */
  function LineEnd(s: string, i: nat): (r: nat)
    requires i <= |s|
    ensures i <= r <= |s|
    ensures r < |s| ==> s[r] == '\n'
    ensures forall k :: i <= k < r ==> s[k] != '\n'
    decreases |s| - i
  {
    if i == |s| || s[i] == '\n' then i else LineEnd(s, i + 1)
  }

  /** `s.split("\n")[0]` */
  function FirstLine(s: string): (r: string)
    ensures |r| <= |s| && r == s[..|r|] && '\n' !in r
    ensures |r| < |s| ==> s[|r|] == '\n'
  {
    s[..LineEnd(s, 0)]
  }

  /** `s.split("\n")` */
  function Lines(s: string): (r: seq<string>)
    ensures |r| >= 1 && r[0] == FirstLine(s)
    ensures forall k :: 0 <= k < |r| ==> '\n' !in r[k]
    decreases |s|
  {
    var e := LineEnd(s, 0);
    if e == |s| then [s] else [s[..e]] + Lines(s[e + 1..])
  }

  /** `sep.join(parts)` */
  function Join(sep: string, parts: seq<string>): string
  {
    if |parts| == 0 then ""
    else if |parts| == 1 then parts[0]
    else parts[0] + sep + Join(sep, parts[1..])
  }

  /** Splitting on newlines and joining with newlines gives the text back. */
  lemma {:induction false} JoinLines(s: string)
    ensures Join("\n", Lines(s)) == s
    decreases |s|
  {
    var e := LineEnd(s, 0);
    if e < |s| {
      var rest := Lines(s[e + 1..]);
      var parts := [s[..e]] + rest;
      assert Lines(s) == parts;
      assert parts[1..] == rest;
      assert Join("\n", parts) == s[..e] + "\n" + Join("\n", rest);
      JoinLines(s[e + 1..]);
      assert s == s[..e] + "\n" + s[e + 1..];
    }
  }

  // ---------------------------------------------------------------------
  // Numbers and slices
  // ---------------------------------------------------------------------

  function DigitChar(d: nat): (c: char)
    requires d < 10
    ensures IsDigit(c)
  {
    ('0' as int + d) as char
  }

  /** `str(n)` for a non-negative integer: its decimal digits, most significant first. */
  function NatToString(n: nat): (r: string)
    ensures |r| >= 1
    ensures forall k :: 0 <= k < |r| ==> IsDigit(r[k])
  {
    if n < 10 then [DigitChar(n)] else NatToString(n / 10) + [DigitChar(n % 10)]
  }

  /** `str(i)` for any integer. */
  function IntToString(i: int): string {
    if i < 0 then "-" + NatToString(-i) else NatToString(i)
  }

  /** The value of a string of decimal digits. */
  function DigitsValue(s: string): nat
    requires forall k :: 0 <= k < |s| ==> IsDigit(s[k])
  {
    if s == [] then 0
    else
      assert IsDigit(s[|s| - 1]);
      10 * DigitsValue(s[..|s| - 1]) + (s[|s| - 1] as int - '0' as int)
  }

  /** Reading back what `NatToString` wrote gives the number. */
  lemma {:induction false} NatToStringRoundTrip(n: nat)
    ensures DigitsValue(NatToString(n)) == n
  {
    if n >= 10 {
      NatToStringRoundTrip(n / 10);
      var s := NatToString(n);
      assert s[..|s| - 1] == NatToString(n / 10);
    }
  }

  /** `NatToString` never maps two numbers to the same text. */
  lemma NatToStringInjective(m: nat, n: nat)
    requires NatToString(m) == NatToString(n)
    ensures m == n
  {
    NatToStringRoundTrip(m);
    NatToStringRoundTrip(n);
  }

  /** Python's slice `xs[:n]` for `n >= 0`. */
  function Take<T>(xs: seq<T>, n: nat): (r: seq<T>)
    ensures |r| == if |xs| <= n then |xs| else n
    ensures r == xs[..|r|]
  {
    if |xs| <= n then xs else xs[..n]
  }

  // ---------------------------------------------------------------------
  // Listings shared by the summary builders
  // ---------------------------------------------------------------------

  /** One `"- item"` line per item, in order. */
  function Bullets(xs: seq<string>): (r: seq<string>)
    ensures |r| == |xs|
    ensures forall k :: 0 <= k < |xs| ==> r[k] == "- " + xs[k]
  {
    if xs == [] then [] else Bullets(xs[..|xs| - 1]) + ["- " + xs[|xs| - 1]]
  }

  lemma BulletsSnoc(xs: seq<string>, x: string)
    ensures Bullets(xs + [x]) == Bullets(xs) + ["- " + x]
  {
    assert (xs + [x])[..|xs|] == xs;
  }

  /** `[f(x) for x in xs]`, built one element at a time. */
  function MapSeq<A, B>(f: A -> B, xs: seq<A>): seq<B> {
    if xs == [] then [] else MapSeq(f, xs[..|xs| - 1]) + [f(xs[|xs| - 1])]
  }

  lemma MapSeqSnoc<A, B>(f: A -> B, xs: seq<A>, x: A)
    ensures MapSeq(f, xs + [x]) == MapSeq(f, xs) + [f(x)]
  {
    assert (xs + [x])[..|xs|] == xs;
  }

  /** Element `k` of the image is the image of element `k`. */
  lemma {:induction false} MapSeqIndex<A, B>(f: A -> B, xs: seq<A>)
    ensures |MapSeq(f, xs)| == |xs|
    ensures forall k :: 0 <= k < |xs| ==> MapSeq(f, xs)[k] == f(xs[k])
  {
    if xs != [] {
      var init := xs[..|xs| - 1];
      MapSeqIndex(f, init);
      forall k | 0 <= k < |init| ensures MapSeq(f, xs)[k] == f(xs[k]) {
        assert init[k] == xs[k];
      }
    }
  }

  /** `for x in items: parts.append(f"- {x}")` */
  method AppendBullets(parts: seq<string>, items: seq<string>) returns (out: seq<string>)
    ensures out == parts + Bullets(items)
  {
    out := parts;
    var i := 0;
    while i < |items|
      invariant 0 <= i <= |items|
      invariant out == parts + Bullets(items[..i])
    {
      TakeSnoc(items, i);
      BulletsSnoc(items[..i], items[i]);
      AppendAssoc(parts, Bullets(items[..i]), ["- " + items[i]]);
      out := out + ["- " + items[i]];
      i := i + 1;
    }
    assert items[..i] == items;
  }

  /** The `"... and N more"` line added under a list of `n` entries capped at
      `cap`: present exactly when the cap hid something, and `N` is how much. */
  function MoreLine(n: nat, cap: nat, lead: string, trail: string): (r: seq<string>)
    ensures |r| == if n > cap then 1 else 0
    ensures n > cap ==> r[0] == lead + NatToString(n - cap) + trail
  {
    if n > cap then [lead + NatToString(n - cap) + trail] else []
  }

  /** `"-" * n` */
  function Repeat(c: char, n: nat): (r: string)
    ensures |r| == n && forall k :: 0 <= k < n ==> r[k] == c
  {
    seq(n, k => c)
  }

  lemma AppendAssoc<T>(a: seq<T>, b: seq<T>, c: seq<T>)
    ensures (a + b) + c == a + (b + c)
  {
  }

  lemma NilAppend<T>(s: seq<T>)
    ensures [] + s == s
  {
  }

  /** A member of either part is a member of a concatenation. */
  lemma InAppend<T>(a: seq<T>, b: seq<T>, x: T)
    requires x in a || x in b
    ensures x in a + b
  {
  }

  /** A member other than the last element is a member of the rest. */
  lemma InInit<T>(s: seq<T>, x: T)
    requires x in s && x != s[|s| - 1]
    ensures x in s[..|s| - 1]
  {
    var k :| 0 <= k < |s| && s[k] == x;
    assert s[..|s| - 1][k] == x;
  }

  lemma TakeSnoc<T>(s: seq<T>, i: nat)
    requires i < |s|
    ensures s[..i + 1] == s[..i] + [s[i]]
  {
  }

  predicate NoDuplicates<T(==)>(xs: seq<T>) {
    forall i, j :: 0 <= i < j < |xs| ==> xs[i] != xs[j]
  }

  /** No duplicates means every element occurs at most once. */
  lemma {:induction false} NoDuplicatesCounts<T>(xs: seq<T>)
    ensures NoDuplicates(xs) <==> forall x :: multiset(xs)[x] <= 1
  {
    if xs != [] {
      var init := xs[..|xs| - 1];
      var last := xs[|xs| - 1];
      NoDuplicatesCounts(init);
      assert xs == init + [last];
      assert multiset(xs) == multiset(init) + multiset{last};
      if NoDuplicates(xs) {
        assert NoDuplicates(init) by {
          forall i, j | 0 <= i < j < |init| ensures init[i] != init[j] {
            assert init[i] == xs[i] && init[j] == xs[j];
          }
        }
      } else {
        var i, j :| 0 <= i < j < |xs| && xs[i] == xs[j];
        if j == |xs| - 1 {
          assert init[i] == last;
          assert multiset(xs)[last] >= 2;
        } else {
          assert init[i] == init[j];
          assert !NoDuplicates(init);
          var x :| multiset(init)[x] > 1;
          assert multiset(xs)[x] > 1;
        }
      }
    }
  }

  /** A permutation of a sequence without duplicates has none either. */
  lemma PermutationNoDuplicates<T>(xs: seq<T>, ys: seq<T>)
    requires multiset(xs) == multiset(ys)
    requires NoDuplicates(xs)
    ensures NoDuplicates(ys)
  {
    NoDuplicatesCounts(xs);
    NoDuplicatesCounts(ys);
  }

  /** A prefix of a sequence without duplicates has none either. */
  lemma PrefixNoDuplicates<T>(xs: seq<T>, n: nat)
    requires NoDuplicates(xs) && n <= |xs|
    ensures NoDuplicates(xs[..n])
  {
    forall i, j | 0 <= i < j < n ensures xs[..n][i] != xs[..n][j] {
      assert xs[..n][i] == xs[i] && xs[..n][j] == xs[j];
    }
  }
}
