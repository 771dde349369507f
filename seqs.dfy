/** Sequence operations that the JavaScript source takes from its runtime (`filter`/`map`, `find`,
    `some`, de-duplication), with the facts about them that the projections rely on. */
module Seqs {
  import opened Wrappers

  /** `s.filter(keep).map(f)`, written as the source's `reduce` that appends one element per kept
      input: defined from the back, so that a loop over `s[..i]` extends it one element at a time. */
  function FilterMap<A, B>(s: seq<A>, keep: A -> bool, f: A -> B): (r: seq<B>)
    ensures |r| <= |s|
  {
    if s == [] then []
    else FilterMap(s[..|s| - 1], keep, f) + (if keep(s[|s| - 1]) then [f(s[|s| - 1])] else [])
  }

  /** The positions of `s` that `keep` selects, in increasing order. */
  function KeptIndices<A>(s: seq<A>, keep: A -> bool): (r: seq<nat>)
    ensures |r| <= |s|
    ensures forall k :: 0 <= k < |r| ==> r[k] < |s|
  {
    if s == [] then []
    else KeptIndices(s[..|s| - 1], keep) + (if keep(s[|s| - 1]) then [|s| - 1] else [])
  }

  /** The kept positions select only kept elements, are strictly increasing and contain every
      position that `keep` selects. */
  lemma {:induction false} KeptIndicesOrder<A>(s: seq<A>, keep: A -> bool)
    ensures forall k :: 0 <= k < |KeptIndices(s, keep)| ==> keep(s[KeptIndices(s, keep)[k]])
    ensures forall k, l :: 0 <= k < l < |KeptIndices(s, keep)| ==> KeptIndices(s, keep)[k] < KeptIndices(s, keep)[l]
    ensures forall i :: 0 <= i < |s| && keep(s[i]) ==> i in KeptIndices(s, keep)
  {
    if s != [] {
      var init := s[..|s| - 1];
      KeptIndicesOrder(init, keep);
      var ki := KeptIndices(init, keep);
      assert forall k :: 0 <= k < |ki| ==> s[ki[k]] == init[ki[k]];
      assert forall i :: 0 <= i < |init| ==> s[i] == init[i];
    }
  }

  /** The `k`-th output of `FilterMap` is the image of the input at the `k`-th kept position. */
  lemma {:induction false} FilterMapAtKept<A, B>(s: seq<A>, keep: A -> bool, f: A -> B)
    ensures |KeptIndices(s, keep)| == |FilterMap(s, keep, f)|
    ensures forall k :: 0 <= k < |KeptIndices(s, keep)| ==> FilterMap(s, keep, f)[k] == f(s[KeptIndices(s, keep)[k]])
  {
    if s != [] {
      var init := s[..|s| - 1];
      FilterMapAtKept(init, keep, f);
      var ki := KeptIndices(init, keep);
      var fi := FilterMap(init, keep, f);
      forall k | 0 <= k < |KeptIndices(s, keep)| ensures FilterMap(s, keep, f)[k] == f(s[KeptIndices(s, keep)[k]]) {
        if k < |ki| {
          assert s[ki[k]] == init[ki[k]];
        }
      }
    }
  }

  /** The `k`-th output of `FilterMap` is the image of the `k`-th kept input; the kept positions
      are strictly increasing and contain every position that `keep` selects: the output keeps
      the declared order and drops exactly the rejected elements. */
  lemma FilterMapOrder<A, B>(s: seq<A>, keep: A -> bool, f: A -> B)
    ensures |KeptIndices(s, keep)| == |FilterMap(s, keep, f)|
    ensures forall k :: 0 <= k < |KeptIndices(s, keep)| ==>
      keep(s[KeptIndices(s, keep)[k]]) && FilterMap(s, keep, f)[k] == f(s[KeptIndices(s, keep)[k]])
    ensures forall k, l :: 0 <= k < l < |KeptIndices(s, keep)| ==> KeptIndices(s, keep)[k] < KeptIndices(s, keep)[l]
    ensures forall i :: 0 <= i < |s| && keep(s[i]) ==> i in KeptIndices(s, keep)
  {
    KeptIndicesOrder(s, keep);
    FilterMapAtKept(s, keep, f);
  }

  /** An output of `FilterMap` is exactly the image of some kept input. */
  lemma {:induction false} FilterMapMember<A, B>(s: seq<A>, keep: A -> bool, f: A -> B, y: B)
    ensures y in FilterMap(s, keep, f) <==> exists i :: 0 <= i < |s| && keep(s[i]) && y == f(s[i])
  {
    if s != [] {
      var init := s[..|s| - 1];
      FilterMapMember(init, keep, f, y);
      assert forall i :: 0 <= i < |init| ==> s[i] == init[i];
      if y in FilterMap(s, keep, f) && y !in FilterMap(init, keep, f) {
        assert keep(s[|s| - 1]) && y == f(s[|s| - 1]);
      }
    }
  }

  /** `FilterMap` distributes over concatenation. */
  lemma {:induction false} FilterMapAppend<A, B>(s: seq<A>, t: seq<A>, keep: A -> bool, f: A -> B)
    ensures FilterMap(s + t, keep, f) == FilterMap(s, keep, f) + FilterMap(t, keep, f)
    decreases |t|
  {
    if t == [] {
      assert s + t == s;
    } else {
      var t' := t[..|t| - 1];
      FilterMapAppend(s, t', keep, f);
      assert (s + t)[..|s + t| - 1] == s + t';
    }
  }

  /** When `keep` selects everything, `FilterMap` is `map`. */
  lemma {:induction false} FilterMapKeepAll<A, B>(s: seq<A>, keep: A -> bool, f: A -> B)
    requires forall i :: 0 <= i < |s| ==> keep(s[i])
    ensures |FilterMap(s, keep, f)| == |s|
    ensures forall i :: 0 <= i < |s| ==> FilterMap(s, keep, f)[i] == f(s[i])
  {
    if s != [] {
      FilterMapKeepAll(s[..|s| - 1], keep, f);
    }
  }

  /** Successive `concatIntoArray(f(x), acc)` over the elements of `s`: their images, concatenated
      in order. Defined from the back, like `FilterMap`. */
  function ConcatMap<A, B>(s: seq<A>, f: A -> seq<B>): seq<B> {
    if s == [] then [] else ConcatMap(s[..|s| - 1], f) + f(s[|s| - 1])
  }

  /** An element of a `ConcatMap` comes from the image of some input, and every element of every
      image is present. */
  lemma {:induction false} ConcatMapMember<A, B>(s: seq<A>, f: A -> seq<B>, y: B)
    ensures y in ConcatMap(s, f) <==> exists i :: 0 <= i < |s| && y in f(s[i])
  {
    if s != [] {
      var init := s[..|s| - 1];
      ConcatMapMember(init, f, y);
      assert forall i :: 0 <= i < |init| ==> s[i] == init[i];
    }
  }

  /** One more input appends its image. */
  lemma ConcatMapSnoc<A, B>(s: seq<A>, x: A, f: A -> seq<B>)
    ensures ConcatMap(s + [x], f) == ConcatMap(s, f) + f(x)
  {
    assert (s + [x])[..|s + [x]| - 1] == s;
  }

  /** Concatenation is associative. */
  lemma AppendAssoc<T>(a: seq<T>, b: seq<T>, c: seq<T>)
    ensures (a + b) + c == a + (b + c)
  {
  }

  /** An element found at two positions occurs at least twice. */
  lemma TwoPositions<T>(r: seq<T>, i: nat, j: nat)
    requires i < j < |r| && r[i] == r[j]
    ensures multiset(r)[r[i]] >= 2
  {
    assert r == r[..j] + r[j..];
    assert r[..j][i] == r[i];
    assert r[j..][0] == r[i];
    assert multiset(r) == multiset(r[..j]) + multiset(r[j..]);
  }

  /** `arr.unshift(x)` when `x` is present, nothing otherwise. */
  function PrependSome<T>(x: Option<T>, s: seq<T>): (r: seq<T>)
    ensures x.Some? ==> |r| == |s| + 1 && r[0] == x.value && r[1..] == s
    ensures x.None? ==> r == s
  {
    match x
    case Some(v) => [v] + s
    case None => s
  }

  /** `Array.prototype.filter`. */
  function Filter<A>(s: seq<A>, keep: A -> bool): (r: seq<A>)
    ensures |r| <= |s|
    ensures forall x :: x in r ==> x in s && keep(x)
    ensures forall i :: 0 <= i < |s| && keep(s[i]) ==> s[i] in r
  {
    if s == [] then [] else (if keep(s[0]) then [s[0]] else []) + Filter(s[1..], keep)
  }

  /** `Array.prototype.find`: the first element satisfying `p`, or undefined. */
  function Find<A>(s: seq<A>, p: A -> bool): (r: Option<A>)
    ensures r.Some? <==> exists i :: 0 <= i < |s| && p(s[i])
    ensures r.Some? ==> exists i :: 0 <= i < |s| && s[i] == r.value && p(s[i]) && forall j :: 0 <= j < i ==> !p(s[j])
  {
    if s == [] then None
    else if p(s[0]) then Some(s[0])
    else
      var r := Find(s[1..], p);
      assert forall i :: 1 <= i < |s| ==> s[i] == s[1..][i - 1];
      r
  }

  /** `Array.prototype.some`. */
  function Any<A>(s: seq<A>, p: A -> bool): (r: bool)
    ensures r <==> exists i :: 0 <= i < |s| && p(s[i])
  {
    if s == [] then false
    else
      assert forall i :: 1 <= i < |s| ==> s[i] == s[1..][i - 1];
      p(s[0]) || Any(s[1..], p)
  }

  /** No element occurs twice. */
  predicate NoDuplicates<T(==)>(s: seq<T>) {
    forall i, j :: 0 <= i < j < |s| ==> s[i] != s[j]
  }

  /** De-duplication that keeps the first occurrence of each element: `acc` holds what was kept so
      far, and each next element is appended unless it is already there. */
  function UniqFrom<T(==)>(acc: seq<T>, s: seq<T>): seq<T>
    decreases |s|
  {
    if s == [] then acc else UniqFrom(if s[0] in acc then acc else acc + [s[0]], s[1..])
  }

  /** `uniq(s)`: `s` without repeated elements, first occurrences kept in order. */
  function Uniq<T(==)>(s: seq<T>): seq<T> {
    UniqFrom([], s)
  }

  /** `UniqFrom` extends its accumulator with distinct new elements drawn from `s`, and every
      element of `s` ends up in the result. */
  lemma {:induction false} UniqFromFacts<T>(acc: seq<T>, s: seq<T>)
    requires NoDuplicates(acc)
    ensures NoDuplicates(UniqFrom(acc, s))
    ensures forall x :: x in UniqFrom(acc, s) <==> x in acc || x in s
    ensures |acc| <= |UniqFrom(acc, s)| <= |acc| + |s|
    ensures UniqFrom(acc, s)[..|acc|] == acc
    decreases |s|
  {
    if s != [] {
      var acc' := if s[0] in acc then acc else acc + [s[0]];
      UniqFromFacts(acc', s[1..]);
      assert UniqFrom(acc', s[1..])[..|acc|] == acc'[..|acc|];
      assert forall x :: x in s <==> x == s[0] || x in s[1..];
    }
  }

  /** `uniq` removes duplicates, keeps every element, and never makes the sequence longer. */
  lemma UniqFacts<T>(s: seq<T>)
    ensures NoDuplicates(Uniq(s))
    ensures forall x :: x in Uniq(s) <==> x in s
    ensures |Uniq(s)| <= |s|
  {
    UniqFromFacts([], s);
  }

  /** De-duplicating a concatenation de-duplicates the first part, then continues with the
      second. */
  lemma {:induction false} UniqFromAppend<T>(acc: seq<T>, a: seq<T>, b: seq<T>)
    ensures UniqFrom(acc, a + b) == UniqFrom(UniqFrom(acc, a), b)
    decreases |a|
  {
    if a == [] {
      assert a + b == b;
    } else {
      assert (a + b)[0] == a[0] && (a + b)[1..] == a[1..] + b;
      UniqFromAppend(if a[0] in acc then acc else acc + [a[0]], a[1..], b);
    }
  }

  /** On a sequence without duplicates, `uniq` changes nothing. */
  lemma {:induction false} UniqFromDistinct<T>(acc: seq<T>, s: seq<T>)
    requires NoDuplicates(acc + s)
    ensures UniqFrom(acc, s) == acc + s
    decreases |s|
  {
    if s != [] {
      assert s[0] == (acc + s)[|acc|];
      assert s[0] !in acc by {
        forall i | 0 <= i < |acc| ensures acc[i] != s[0] {
          assert acc[i] == (acc + s)[i];
        }
      }
      assert acc + s == (acc + [s[0]]) + s[1..];
      UniqFromDistinct(acc + [s[0]], s[1..]);
    }
  }

  /** `s` with every `from` character replaced by `to`: the reference meaning of a
      `split(from).join(to)` on a single character. */
  function ReplaceChar(s: string, from: char, to: char): (r: string)
    ensures |r| == |s|
    ensures forall i :: 0 <= i < |s| ==> r[i] == if s[i] == from then to else s[i]
  {
    seq(|s|, i requires 0 <= i < |s| => if s[i] == from then to else s[i])
  }

  /** `String.prototype.split` with a one-character separator: always at least one part. */
  function Split(s: string, sep: char): (r: seq<string>)
    ensures |r| >= 1
  {
    if s == [] then [[]]
    else if s[0] == sep then [[]] + Split(s[1..], sep)
    else
      var rest := Split(s[1..], sep);
      [[s[0]] + rest[0]] + rest[1..]
  }

  /** `Array.prototype.join` on strings. */
  function Join(parts: seq<string>, sep: string): string {
    if |parts| == 0 then []
    else if |parts| == 1 then parts[0]
    else parts[0] + sep + Join(parts[1..], sep)
  }

  /** Prefixing a character to the first part prefixes it to the joined text. */
  lemma JoinPrependChar(ch: char, rest: seq<string>, sep: string)
    requires |rest| > 0
    ensures Join([[ch] + rest[0]] + rest[1..], sep) == [ch] + Join(rest, sep)
  {
    var parts := [[ch] + rest[0]] + rest[1..];
    if |rest| > 1 {
      assert parts[1..] == rest[1..];
    }
  }

  /** `ReplaceChar` works character by character from the front. */
  lemma ReplaceCharCons(s: string, from: char, to: char)
    requires s != []
    ensures ReplaceChar(s, from, to) == [if s[0] == from then to else s[0]] + ReplaceChar(s[1..], from, to)
  {
  }

  /** Joining the parts of a split on `from` with the one-character separator `to` replaces each
      `from` by `to` and keeps every other character in place. */
  lemma {:induction false} JoinSplit(s: string, from: char, to: char)
    ensures Join(Split(s, from), [to]) == ReplaceChar(s, from, to)
  {
    if s != [] {
      JoinSplit(s[1..], from, to);
      ReplaceCharCons(s, from, to);
      var rest := Split(s[1..], from);
      if s[0] == from {
        assert ([[]] + rest)[1..] == rest;
      } else {
        JoinPrependChar(s[0], rest, [to]);
      }
    }
  }

  /** One more part is joined after a separator. */
  lemma {:induction false} JoinSnoc(parts: seq<string>, p: string, sep: string)
    requires |parts| > 0
    ensures Join(parts + [p], sep) == Join(parts, sep) + sep + p
  {
    if |parts| > 1 {
      assert (parts + [p])[1..] == parts[1..] + [p];
      JoinSnoc(parts[1..], p, sep);
    }
  }

  /** Splitting a text that starts with a separator-free part `a` followed by the separator
      yields `a`, then the parts of the remainder; a separator-free text is one part. */
  lemma {:induction false} SplitPrefix(a: string, t: string, c: char)
    requires c !in a
    ensures Split(a + [c] + t, c) == [a] + Split(t, c)
    ensures Split(a, c) == [a]
  {
    if a != [] {
      SplitPrefix(a[1..], t, c);
      assert (a + [c] + t)[1..] == a[1..] + [c] + t;
      assert [a[0]] + a[1..] == a;
    } else {
      assert a + [c] + t == [c] + t;
    }
  }

  /** Splitting on a one-character separator undoes joining with it, when no part contains the
      separator. */
  lemma {:induction false} SplitJoin(parts: seq<string>, c: char)
    requires |parts| > 0
    requires forall k :: 0 <= k < |parts| ==> c !in parts[k]
    ensures Split(Join(parts, [c]), c) == parts
  {
    SplitPrefix(parts[0], [], c);
    if |parts| > 1 {
      SplitJoin(parts[1..], c);
      SplitPrefix(parts[0], Join(parts[1..], [c]), c);
    }
  }

  /** `pat` occurs in `s` at position `i`. */
  predicate OccursAt(s: string, pat: string, i: int) {
    0 <= i && i + |pat| <= |s| && s[i..i + |pat|] == pat
  }

  /** Substring containment: `String.prototype.includes`, and `RegExp.prototype.test` for a regular
      expression that is a plain literal without flags. */
  function Contains(s: string, pat: string): bool
    decreases |s|
  {
    |pat| <= |s| && (s[..|pat|] == pat || (|s| > 0 && Contains(s[1..], pat)))
  }

  /** `Contains` holds exactly when the pattern occurs at some position. */
  lemma {:induction false} ContainsIff(s: string, pat: string)
    ensures Contains(s, pat) <==> exists i :: OccursAt(s, pat, i)
    decreases |s|
  {
    if |pat| <= |s| && |s| > 0 {
      ContainsIff(s[1..], pat);
      if s[..|pat|] == pat {
        assert s[0..0 + |pat|] == s[..|pat|];
        assert OccursAt(s, pat, 0);
      }
      if exists i :: OccursAt(s[1..], pat, i) {
        var i :| OccursAt(s[1..], pat, i);
        assert s[i + 1..i + 1 + |pat|] == s[1..][i..i + |pat|];
        assert OccursAt(s, pat, i + 1);
      }
      if exists i :: OccursAt(s, pat, i) {
        var i :| OccursAt(s, pat, i);
        if i > 0 {
          assert s[1..][i - 1..i - 1 + |pat|] == s[i..i + |pat|];
          assert OccursAt(s[1..], pat, i - 1);
        } else {
          assert s[..|pat|] == s[i..i + |pat|];
        }
      }
    } else if |pat| <= |s| {
      assert OccursAt(s, pat, 0);
    }
  }

  /** Text appended after a match never removes it. */
  lemma ContainsAppend(s: string, t: string, pat: string)
    requires Contains(s, pat)
    ensures Contains(s + t, pat)
  {
    ContainsIff(s, pat);
    var i :| OccursAt(s, pat, i);
    assert (s + t)[i..i + |pat|] == s[i..i + |pat|];
    assert OccursAt(s + t, pat, i);
    ContainsIff(s + t, pat);
  }

  /** The first position where `pat` occurs in `s` (`String.prototype.indexOf`), if any. */
  function IndexOf(s: string, pat: string): (r: Option<nat>)
    ensures r.Some? ==> OccursAt(s, pat, r.value) && forall j :: 0 <= j < r.value ==> !OccursAt(s, pat, j)
    ensures r.None? ==> forall j :: !OccursAt(s, pat, j)
    decreases |s|
  {
    if |pat| > |s| then None
    else if s[..|pat|] == pat then Some(0)
    else
      match IndexOf(s[1..], pat)
      case None =>
        assert forall j :: OccursAt(s, pat, j) && j > 0 ==> OccursAt(s[1..], pat, j - 1) by {
          forall j | OccursAt(s, pat, j) && j > 0 ensures OccursAt(s[1..], pat, j - 1) {
            assert s[1..][j - 1..j - 1 + |pat|] == s[j..j + |pat|];
          }
        }
        None
      case Some(k) =>
        assert s[1..][k..k + |pat|] == s[k + 1..k + 1 + |pat|];
        assert forall j :: 0 < j < k + 1 && OccursAt(s, pat, j) ==> OccursAt(s[1..], pat, j - 1) by {
          forall j | 0 < j < k + 1 && OccursAt(s, pat, j) ensures OccursAt(s[1..], pat, j - 1) {
            assert s[1..][j - 1..j - 1 + |pat|] == s[j..j + |pat|];
          }
        }
        Some(k + 1)
  }

  /** The first occurrence is where `IndexOf` points. */
  lemma IndexOfFirst(s: string, pat: string, i: nat)
    requires OccursAt(s, pat, i)
    requires forall j :: 0 <= j < i ==> !OccursAt(s, pat, j)
    ensures IndexOf(s, pat) == Some(i)
  {
    var r := IndexOf(s, pat);
    if r.None? {
      assert false;
    } else if r.value > i {
      assert false;
    }
  }

  /** `String.prototype.replace(pat, rep)` with a string pattern: only the first occurrence is
      replaced, and a string without `pat` is returned unchanged. */
  function ReplaceFirst(s: string, pat: string, rep: string): string {
    match IndexOf(s, pat)
    case None => s
    case Some(i) => s[..i] + rep + s[i + |pat|..]
  }

  /** The ASCII lower-case mapping of one character. */
  function ToLowerChar(c: char): (r: char)
    ensures 'A' <= c <= 'Z' ==> r as int == c as int + 32
    ensures !('A' <= c <= 'Z') ==> r == c
  {
    if 'A' <= c <= 'Z' then (c as int + 32) as char else c
  }

  /** The ASCII upper-case mapping of one character. */
  function ToUpperChar(c: char): (r: char)
    ensures 'a' <= c <= 'z' ==> r as int == c as int - 32
    ensures !('a' <= c <= 'z') ==> r == c
  {
    if 'a' <= c <= 'z' then (c as int - 32) as char else c
  }

  /** `String.prototype.toUpperCase` on the ASCII letters. */
  function ToUpper(s: string): (r: string)
    ensures |r| == |s|
    ensures forall i :: 0 <= i < |s| ==> r[i] == ToUpperChar(s[i])
  {
    seq(|s|, i requires 0 <= i < |s| => ToUpperChar(s[i]))
  }
}
