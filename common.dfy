/** Value types and string operations shared by the modules of the model. */
module Common {

  datatype Option<+T> = None | Some(value: T)

  /** The value of an operation that either returns or throws. */
  datatype Result<+T, +E> = Ok(value: T) | Err(error: E)

  /** `path.join(dir, name)` for a plain relative name, without normalisation. */
  function Join(dir: string, name: string): string
  {
    dir + "/" + name
  }

  /** `t` occurs in `s` starting at index `p`. */
  predicate OccursAt(s: string, t: string, p: nat)
  {
    p + |t| <= |s| && s[p..p + |t|] == t
  }

  /** `s.includes(t)`. */
  predicate Contains(s: string, t: string)
  {
    exists p: nat :: p <= |s| - |t| && OccursAt(s, t, p)
  }

  /** `s.startsWith(t)`. */
  predicate StartsWith(s: string, t: string)
  {
    OccursAt(s, t, 0)
  }

  /** `s.indexOf(t, from)`: the first index at or after `from` where `t` occurs, if any. */
  function IndexOf(s: string, t: string, from: nat): (r: Option<nat>)
    ensures r.Some? ==> from <= r.value && OccursAt(s, t, r.value)
    ensures r.Some? ==> forall q: nat :: from <= q < r.value ==> !OccursAt(s, t, q)
    ensures r.None? ==> forall q: nat :: from <= q ==> !OccursAt(s, t, q)
    decreases |s| - from
  {
    if from + |t| > |s| then None
    else if OccursAt(s, t, from) then Some(from)
    else IndexOf(s, t, from + 1)
  }

  /** `s.replace(t, u)` with a string pattern: only the first occurrence is replaced. */
  function ReplaceFirst(s: string, t: string, u: string): (r: string)
    ensures !Contains(s, t) ==> r == s
    ensures Contains(s, t) ==> exists p: nat :: OccursAt(s, t, p) && (forall q: nat :: q < p ==> !OccursAt(s, t, q))
                                                && r == s[..p] + u + s[p + |t|..]
  {
    match IndexOf(s, t, 0)
    case None => s
    case Some(p) => s[..p] + u + s[p + |t|..]
  }

  /** The occurrence `ReplaceFirst` replaces is the first one. */
  lemma ReplaceFirstAt(s: string, t: string, u: string, p: nat)
    requires OccursAt(s, t, p) && forall q: nat :: q < p ==> !OccursAt(s, t, q)
    ensures ReplaceFirst(s, t, u) == s[..p] + u + s[p + |t|..]
  {
    assert IndexOf(s, t, 0) == Some(p);
  }

  /** `s.split(sep)` for a one-character separator: the pieces between separators, in order. */
  function Split(s: string, sep: char): (parts: seq<string>)
    ensures |parts| >= 1
    ensures forall i :: 0 <= i < |parts| ==> sep !in parts[i]
    decreases |s|
  {
    if s == [] then [""]
    else
      var rest := Split(s[1..], sep);
      if s[0] == sep then [""] + rest else [[s[0]] + rest[0]] + rest[1..]
  }

  /** A string without the separator is split into itself alone. */
  lemma {:induction false} SplitWithoutSeparator(s: string, sep: char)
    requires sep !in s
    ensures Split(s, sep) == [s]
    decreases |s|
  {
    if s != [] {
      assert s[1..] == s[|s| - (|s| - 1)..];
      assert sep !in s[1..] by {
        forall k | 0 <= k < |s[1..]| ensures s[1..][k] != sep {
          assert s[1..][k] == s[k + 1];
        }
      }
      SplitWithoutSeparator(s[1..], sep);
      assert [s[0]] + s[1..] == s;
    }
  }

  /** Appending a separator and a piece without separators adds that piece as the last one. */
  lemma {:induction false} SplitAppend(s: string, sep: char, b: string)
    requires sep !in b
    ensures Split(s + [sep] + b, sep) == Split(s, sep) + [b]
    decreases |s|
  {
    var w := s + [sep] + b;
    if s == [] {
      assert w == [sep] + b;
      assert w[1..] == b;
      SplitWithoutSeparator(b, sep);
    } else {
      assert w[0] == s[0];
      assert w[1..] == s[1..] + [sep] + b;
      SplitAppend(s[1..], sep, b);
      var rest := Split(s[1..], sep);
      if s[0] != sep {
        assert (rest + [b])[0] == rest[0];
        assert (rest + [b])[1..] == rest[1..] + [b];
      }
    }
  }

  /** A string lacking a character of `t` does not contain `t`. */
  lemma MissingCharacter(s: string, t: string, c: char)
    requires c in t && c !in s
    ensures !Contains(s, t)
  {
  }

  /** `parts.join(sep)`, the inverse of `Split`. */
  function JoinWith(parts: seq<string>, sep: char): string
    requires |parts| >= 1
    decreases |parts|
  {
    if |parts| == 1 then parts[0] else parts[0] + [sep] + JoinWith(parts[1..], sep)
  }

  /** Joining the pieces of a split with the separator gives the original string back. */
  lemma {:induction false} SplitJoinRoundTrip(s: string, sep: char)
    ensures JoinWith(Split(s, sep), sep) == s
    decreases |s|
  {
    if s != [] {
      var rest := Split(s[1..], sep);
      SplitJoinRoundTrip(s[1..], sep);
      if s[0] == sep {
        assert Split(s, sep)[1..] == rest;
      } else {
        var parts := Split(s, sep);
        if |rest| == 1 {
          assert parts == [[s[0]] + rest[0]];
        } else {
          assert parts[1..] == rest[1..];
          assert JoinWith(rest, sep) == rest[0] + [sep] + JoinWith(rest[1..], sep);
        }
      }
    }
  }

  /** The last `/`-separated segment of a path (`path.basename` of a path without a trailing `/`). */
  function Basename(p: string): (name: string)
    ensures '/' !in name
  {
    var parts := Split(p, '/');
    parts[|parts| - 1]
  }

  /** `xs` is `ys` with some elements left out: the elements kept stay in their order. */
  predicate Subseq<T(==)>(xs: seq<T>, ys: seq<T>)
    decreases |ys|
  {
    if xs == [] then true
    else if ys == [] then false
    else if xs[|xs| - 1] == ys[|ys| - 1] then Subseq(xs[..|xs| - 1], ys[..|ys| - 1])
    else Subseq(xs, ys[..|ys| - 1])
  }

  /** Leaving out the last element of a subsequence keeps it a subsequence. */
  lemma {:induction false} SubseqDropLast<T>(xs: seq<T>, ys: seq<T>)
    requires xs != [] && Subseq(xs, ys)
    ensures Subseq(xs[..|xs| - 1], ys)
    decreases |ys|, 0
  {
    var xs' := xs[..|xs| - 1];
    if xs' != [] {
      var ys' := ys[..|ys| - 1];
      if xs[|xs| - 1] == ys[|ys| - 1] {
        SubseqExtend(xs', ys', ys[|ys| - 1]);
        assert ys' + [ys[|ys| - 1]] == ys;
      } else {
        SubseqDropLast(xs, ys');
        SubseqExtend(xs', ys', ys[|ys| - 1]);
        assert ys' + [ys[|ys| - 1]] == ys;
      }
    }
  }

  /** A subsequence of `ys` is one of every extension of `ys`. */
  lemma {:induction false} SubseqExtend<T>(xs: seq<T>, ys: seq<T>, y: T)
    requires Subseq(xs, ys)
    ensures Subseq(xs, ys + [y])
    decreases |ys|, 1
  {
    var zs := ys + [y];
    assert zs[..|zs| - 1] == ys;
    if xs != [] && xs[|xs| - 1] == y {
      SubseqDropLast(xs, ys);
    }
  }

  /** Keeping the same last element on both sides keeps a subsequence. */
  lemma SubseqSnoc<T>(xs: seq<T>, ys: seq<T>, y: T)
    requires Subseq(xs, ys)
    ensures Subseq(xs + [y], ys + [y])
  {
    assert (xs + [y])[..|xs + [y]| - 1] == xs;
    assert (ys + [y])[..|ys + [y]| - 1] == ys;
  }
}
