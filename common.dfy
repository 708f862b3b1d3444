/** Small shared vocabulary: Rust's Option and Result, bytes, and the string and
    sequence helpers that several parts of the scanner rely on. */
module Common {

  datatype Option<+T> = None | Some(value: T)

  datatype Result<+T, +E> = Ok(value: T) | Err(error: E)

  /** An unsigned 8-bit sample (Rust `u8`). */
  type Byte = x: int | 0 <= x < 256

  /** One more than the largest Rust `u32`. */
  const U32_MODULUS: nat := 0x1_0000_0000

  /** A Rust `u32`. */
  type U32 = x: nat | x < U32_MODULUS

  /** One more than the largest Rust `u64`. */
  const U64_MODULUS: nat := 0x1_0000_0000_0000_0000

  /** Rust `usize::saturating_sub`. */
  function SaturatingSub(a: nat, b: nat): nat {
    if a >= b then a - b else 0
  }

  function Min(a: nat, b: nat): nat {
    if a <= b then a else b
  }

  function Max(a: nat, b: nat): nat {
    if a >= b then a else b
  }

  /** The elements of a sequence, as a set. */
  function Elems<T>(s: seq<T>): set<T> {
    set x | x in s
  }

  predicate NoDuplicates<T(==)>(s: seq<T>) {
    forall i, j :: 0 <= i < j < |s| ==> s[i] != s[j]
  }

  /** `needle` occurs in `s` starting at index `i`, compared one character at a time. */
  predicate MatchesAt(s: string, needle: string, i: nat)
    decreases |needle|
  {
    |needle| == 0 || (i < |s| && s[i] == needle[0] && MatchesAt(s, needle[1..], i + 1))
  }

  /** `needle` occurs in `s` at some index at or after `i`. */
  predicate OccursFrom(s: string, needle: string, i: nat)
    decreases |s| - i
  {
    i + |needle| <= |s| && (MatchesAt(s, needle, i) || OccursFrom(s, needle, i + 1))
  }

  /** Rust `str::contains` with a string pattern. */
  predicate ContainsSubstring(s: string, needle: string) {
    OccursFrom(s, needle, 0)
  }

  lemma {:induction false} MatchUsesOnlyCharsOf(s: string, needle: string, i: nat, c: char)
    requires c in needle && c !in s
    ensures !MatchesAt(s, needle, i)
    decreases |needle|
  {
    if MatchesAt(s, needle, i) && needle[0] != c {
      assert c in needle[1..];
      MatchUsesOnlyCharsOf(s, needle[1..], i + 1, c);
    }
  }

  lemma {:induction false} OccursOnlyWithCharsOf(s: string, needle: string, i: nat, c: char)
    requires c in needle && c !in s
    ensures !OccursFrom(s, needle, i)
    decreases |s| - i
  {
    if i + |needle| <= |s| {
      MatchUsesOnlyCharsOf(s, needle, i, c);
      OccursOnlyWithCharsOf(s, needle, i + 1, c);
    }
  }

  /** A string cannot contain a pattern that has a character the string lacks. */
  lemma AbsentCharRulesOutSubstring(s: string, needle: string, c: char)
    requires c in needle && c !in s
    ensures !ContainsSubstring(s, needle)
  {
    OccursOnlyWithCharsOf(s, needle, 0, c);
  }

  lemma {:induction false} MatchesSlice(s: string, needle: string, i: nat)
    requires i + |needle| <= |s| && s[i..i + |needle|] == needle
    ensures MatchesAt(s, needle, i)
    decreases |needle|
  {
    if |needle| > 0 {
      assert s[i] == needle[0];
      assert s[i + 1..i + 1 + |needle[1..]|] == needle[1..];
      MatchesSlice(s, needle[1..], i + 1);
    }
  }

  /** `needle` sits in `s` at index `j`. */
  predicate SliceAt(s: string, needle: string, j: nat) {
    j + |needle| <= |s| && s[j..j + |needle|] == needle
  }

  lemma {:induction false} MatchesAtMeansSlice(s: string, needle: string, i: nat)
    requires i <= |s| && MatchesAt(s, needle, i)
    ensures SliceAt(s, needle, i)
    decreases |needle|
  {
    if |needle| > 0 {
      MatchesAtMeansSlice(s, needle[1..], i + 1);
      assert needle == [needle[0]] + needle[1..];
      assert s[i..i + |needle|] == [s[i]] + s[i + 1..i + 1 + |needle[1..]|];
    }
  }

  /** An occurrence found by `OccursFrom` is a slice equal to the pattern. */
  lemma {:induction false} OccursMeansSlice(s: string, needle: string, i: nat)
    requires OccursFrom(s, needle, i)
    ensures exists j :: i <= j && SliceAt(s, needle, j)
    decreases |s| - i
  {
    if MatchesAt(s, needle, i) {
      MatchesAtMeansSlice(s, needle, i);
    } else {
      OccursMeansSlice(s, needle, i + 1);
    }
  }

  /** Every string contains itself. */
  lemma ContainsItself(s: string)
    ensures ContainsSubstring(s, s)
  {
    assert s[0..|s|] == s;
    MatchesSlice(s, s, 0);
  }

  /** Keeps, in order, the `Some` images of the elements of `s` under `f`: the shape
      of every "push what decoded, skip what failed" loop in the engine adapters. */
  function FilterMap<A, B>(s: seq<A>, f: A -> Option<B>): (r: seq<B>)
    ensures |r| <= |s|
  {
    if s == [] then []
    else
      FilterMap(s[..|s| - 1], f) +
      (match f(s[|s| - 1]) case Some(y) => [y] case None => [])
  }

  /** An element is kept exactly when some input element maps to it. */
  lemma {:induction false} FilterMapMembers<A, B>(s: seq<A>, f: A -> Option<B>, y: B)
    ensures y in FilterMap(s, f) <==> exists i :: 0 <= i < |s| && f(s[i]) == Some(y)
  {
    if s != [] {
      var init := s[..|s| - 1];
      FilterMapMembers(init, f, y);
      if y in FilterMap(s, f) && y !in FilterMap(init, f) {
        assert f(s[|s| - 1]) == Some(y);
      }
      if exists i :: 0 <= i < |s| && f(s[i]) == Some(y) {
        var i :| 0 <= i < |s| && f(s[i]) == Some(y);
        if i < |s| - 1 {
          assert init[i] == s[i];
        }
      }
    }
  }

  /** Extending a prefix by the next element appends at most that element's image. */
  lemma FilterMapPrefixSnoc<A, B>(s: seq<A>, i: nat, f: A -> Option<B>)
    requires i < |s|
    ensures f(s[i]).Some? ==> FilterMap(s[..i + 1], f) == FilterMap(s[..i], f) + [f(s[i]).value]
    ensures f(s[i]).None? ==> FilterMap(s[..i + 1], f) == FilterMap(s[..i], f)
  {
    assert s[..i + 1][..i] == s[..i];
  }

  /** Extending the input by one element appends at most that element's image. */
  lemma FilterMapSnoc<A, B>(s: seq<A>, x: A, f: A -> Option<B>)
    ensures f(x).Some? ==> FilterMap(s + [x], f) == FilterMap(s, f) + [f(x).value]
    ensures f(x).None? ==> FilterMap(s + [x], f) == FilterMap(s, f)
  {
    assert (s + [x])[..|s|] == s;
  }

  /** `rs` and `es` have the same length and `d` relates their elements pairwise,
      stated from the last pair back, the way a loop appends them. */
  predicate PairedInOrder<R, E>(rs: seq<R>, es: seq<E>, d: (R, E) -> bool) {
    |rs| == |es| &&
    (es == [] ||
     (PairedInOrder(rs[..|rs| - 1], es[..|es| - 1], d) && d(rs[|rs| - 1], es[|es| - 1])))
  }

  /** Appending a related pair keeps sequences paired. */
  lemma PairedSnoc<R, E>(rs: seq<R>, es: seq<E>, r: R, e: E, d: (R, E) -> bool)
    requires PairedInOrder(rs, es, d) && d(r, e)
    ensures PairedInOrder(rs + [r], es + [e], d)
  {
    assert (rs + [r])[..|rs|] == rs;
    assert (es + [e])[..|es|] == es;
  }

  /** Sequences are paired exactly when they have the same length and `d` relates the
      elements at each position. */
  lemma {:induction false} PairedEach<R, E>(rs: seq<R>, es: seq<E>, d: (R, E) -> bool)
    ensures PairedInOrder(rs, es, d) <==>
      |rs| == |es| && forall k :: 0 <= k < |es| ==> d(rs[k], es[k])
  {
    if |rs| == |es| && es != [] {
      var n := |es|;
      var rs', es' := rs[..n - 1], es[..n - 1];
      PairedEach(rs', es', d);
      if PairedInOrder(rs, es, d) {
        forall k | 0 <= k < n
          ensures d(rs[k], es[k])
        {
          if k < n - 1 {
            assert rs'[k] == rs[k] && es'[k] == es[k];
          }
        }
      }
      if forall k :: 0 <= k < n ==> d(rs[k], es[k]) {
        forall k | 0 <= k < n - 1
          ensures d(rs'[k], es'[k])
        {
          assert rs'[k] == rs[k] && es'[k] == es[k];
        }
      }
    }
  }
}
