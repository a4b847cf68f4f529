/**
 The unique slug of a new project: the base, then base-2, base-3 and so on, until one is free.
 */
module Slug {
  function Digit(d: nat): char
    requires d < 10
  {
    '0' + d as char
  }

  /** A number as `str` writes it. */
  function Decimal(n: nat): (s: string)
    ensures s != "" && forall i :: 0 <= i < |s| ==> '0' <= s[i] <= '9'
  {
    if n < 10 then [Digit(n)] else Decimal(n / 10) + [Digit(n % 10)]
  }

  function Value(s: string): nat
    requires forall i :: 0 <= i < |s| ==> '0' <= s[i] <= '9'
  {
    if s == "" then 0 else 10 * Value(s[..|s| - 1]) + (s[|s| - 1] - '0') as nat
  }

  /** Reading a written number gives it back, so two numbers are never written alike. */
  lemma {:induction false} DecimalReadsBack(n: nat)
    ensures Value(Decimal(n)) == n
  {
    if n < 10 {
      assert Decimal(n)[..0] == "";
    } else {
      DecimalReadsBack(n / 10);
      assert Decimal(n)[..|Decimal(n)| - 1] == Decimal(n / 10);
    }
  }

  /** The `n`-th slug that is tried. */
  function Candidate(base: string, n: nat): string {
    if n == 0 then base else base + "-" + Decimal(n + 1)
  }

  lemma CandidatesDiffer(base: string, n: nat, m: nat)
    ensures n != m ==> Candidate(base, n) != Candidate(base, m)
  {
    if n != 0 && m != 0 && Candidate(base, n) == Candidate(base, m) {
      assert Decimal(n + 1) == (base + "-" + Decimal(n + 1))[|base| + 1..];
      assert Decimal(m + 1) == (base + "-" + Decimal(m + 1))[|base| + 1..];
      DecimalReadsBack(n + 1);
      DecimalReadsBack(m + 1);
    }
  }

  function Tried(base: string, n: nat): (s: set<string>)
    ensures forall x :: x in s <==> exists k :: 0 <= k < n && Candidate(base, k) == x
  {
    set k | 0 <= k < n :: Candidate(base, k)
  }

  /** The first `n` candidates are `n` slugs, so among finitely many taken slugs one of them is soon free. */
  lemma {:induction false} TriedCount(base: string, n: nat)
    ensures |Tried(base, n)| == n
  {
    if n == 0 {
      assert Tried(base, 0) == {};
    } else {
      TriedCount(base, n - 1);
      if Candidate(base, n - 1) in Tried(base, n - 1) {
        var k :| 0 <= k < n - 1 && Candidate(base, k) == Candidate(base, n - 1);
        CandidatesDiffer(base, k, n - 1);
      }
      assert Tried(base, n) == Tried(base, n - 1) + {Candidate(base, n - 1)};
    }
  }

  lemma Within(base: string, n: nat, taken: set<string>)
    requires Tried(base, n) <= taken
    ensures n <= |taken|
  {
    TriedCount(base, n);
    assert taken == Tried(base, n) + (taken - Tried(base, n));
  }

  function BaseOf(slugified: string): string {
    if slugified == "" then "proyecto" else slugified
  }

  /** `_build_unique_slug`: the first free candidate, found after at most as many misses as there are taken slugs. */
  method BuildUniqueSlug(slugified: string, taken: set<string>) returns (slug: string)
    ensures slug !in taken
    ensures exists n :: 0 <= n <= |taken| && slug == Candidate(BaseOf(slugified), n)
                        && forall k :: 0 <= k < n ==> Candidate(BaseOf(slugified), k) in taken
    ensures slugified != "" && slugified !in taken ==> slug == slugified
    ensures slugified == "" && "proyecto" !in taken ==> slug == "proyecto"
  {
    var base := BaseOf(slugified);
    slug := base;
    var suffix := 2;
    Within(base, 0, taken);
    while slug in taken
      invariant suffix >= 2 && slug == Candidate(base, suffix - 2)
      invariant forall k :: 0 <= k < suffix - 2 ==> Candidate(base, k) in taken
      invariant suffix - 2 <= |taken|
      decreases |taken| - (suffix - 2)
    {
      assert forall k :: 0 <= k < suffix - 1 ==> Candidate(base, k) in taken;
      Within(base, suffix - 1, taken);
      slug := base + "-" + Decimal(suffix);
      suffix := suffix + 1;
    }
  }
}
