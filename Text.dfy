/**
 The two JavaScript string operations the transcription handler relies on:
 `String.prototype.includes` (substring test) and `String.prototype.split`
 with a one-character separator, together with `Array.prototype.join`, the
 inverse that `split` is proved against.
 */
module Text {

  /** `s` starts with `sub`. */
  predicate StartsWith(s: string, sub: string) {
    |sub| <= |s| && s[..|sub|] == sub
  }

  /** `s.includes(sub)`: `sub` occurs somewhere in `s`, at any offset. */
  predicate Contains(s: string, sub: string)
    ensures StartsWith(s, sub) ==> Contains(s, sub)
    ensures Contains(s, sub) ==> |sub| <= |s|
    ensures Contains(s, sub) && sub != [] ==> sub[0] in s
    decreases |s|
  {
    StartsWith(s, sub) || (|sub| < |s|  && Contains(s[1..], sub))
  }

  /** `sub` occurs in `s` at offset `i`. */
  predicate OccursAt(s: string, sub: string, i: nat) {
    i + |sub| <= |s| && s[i..i + |sub|] == sub
  }

  /** `Contains` finds exactly the offsets at which `sub` occurs. */
  lemma {:induction false} ContainsIff(s: string, sub: string)
    ensures Contains(s, sub) <==> exists i: nat :: OccursAt(s, sub, i)
    decreases |s|
  {
    if Contains(s, sub) {
      if StartsWith(s, sub) {
        assert OccursAt(s, sub, 0);
      } else {
        ContainsIff(s[1..], sub);
        var i: nat :| OccursAt(s[1..], sub, i);
        assert s[1..][i..i + |sub|] == s[i + 1..i + 1 + |sub|];
        assert OccursAt(s, sub, i + 1);
      }
    }
    if exists i: nat :: OccursAt(s, sub, i) {
      var i: nat :| OccursAt(s, sub, i);
      if i == 0 {
        assert StartsWith(s, sub);
      } else {
        assert s[1..][i - 1..i - 1 + |sub|] == s[i..i + |sub|];
        assert OccursAt(s[1..], sub, i - 1);
        ContainsIff(s[1..], sub);
      }
    }
  }

  /** `s.split(sep)`: the maximal separator-free fields of `s`, in order; never empty. */
  function Split(s: string, sep: char): (parts: seq<string>)
    ensures |parts| >= 1
    decreases |s|
  {
    if s == [] then [[]]
    else
      var rest := Split(s[1..], sep);
      if s[0] == sep then [[]] + rest
      else [[s[0]] + rest[0]] + rest[1..]
  }

  /** `parts.join(sep)`. */
  function Join(parts: seq<string>, sep: char): string
    decreases |parts|
  {
    if |parts| == 0 then []
    else if |parts| == 1 then parts[0]
    else parts[0] + [sep] + Join(parts[1..], sep)
  }

  /** Joining the fields of a split with the same separator gives the string back. */
  lemma {:induction false} JoinSplit(s: string, sep: char)
    ensures Join(Split(s, sep), sep) == s
    decreases |s|
  {
    if s != [] {
      JoinSplit(s[1..], sep);
      var rest := Split(s[1..], sep);
      if s[0] == sep {
        assert Split(s, sep) == [[]] + rest;
        assert ([[]] + rest)[1..] == rest;
      } else {
        var parts := Split(s, sep);
        assert parts == [[s[0]] + rest[0]] + rest[1..];
        if |rest| == 1 {
          assert Join(parts, sep) == [s[0]] + rest[0];
        } else {
          assert parts[1..] == rest[1..];
          assert Join(rest, sep) == rest[0] + [sep] + Join(rest[1..], sep);
          assert Join(parts, sep) == [s[0]] + rest[0] + [sep] + Join(rest[1..], sep);
        }
        assert [s[0]] + s[1..] == s;
      }
    }
  }

  /** No field of a split contains the separator. */
  lemma {:induction false} SplitFieldsFree(s: string, sep: char)
    ensures forall k :: 0 <= k < |Split(s, sep)| ==> sep !in Split(s, sep)[k]
    decreases |s|
  {
    if s != [] {
      SplitFieldsFree(s[1..], sep);
    }
  }

  /** A string without the separator splits into one field, itself. */
  lemma {:induction false} SplitNoSep(s: string, sep: char)
    requires sep !in s
    ensures Split(s, sep) == [s]
    decreases |s|
  {
    if s != [] {
      assert sep !in s[1..];
      SplitNoSep(s[1..], sep);
      assert [s[0]] + s[1..] == s;
    }
  }

  /** A string with the separator splits into at least two fields. */
  lemma {:induction false} SplitWithSep(s: string, sep: char)
    requires sep in s
    ensures |Split(s, sep)| >= 2
    decreases |s|
  {
    if s[0] != sep {
      SplitWithSep(s[1..], sep);
    }
  }

  /** Splitting `a + sep + b`, where `a` has no separator, gives `a` and then the fields of `b`. */
  lemma {:induction false} SplitAfterSep(a: string, b: string, sep: char)
    requires sep !in a
    ensures Split(a + [sep] + b, sep) == [a] + Split(b, sep)
    decreases |a|
  {
    if a == [] {
      assert a + [sep] + b == [sep] + b;
      assert ([sep] + b)[1..] == b;
    } else {
      assert sep !in a[1..];
      SplitAfterSep(a[1..], b, sep);
      assert (a + [sep] + b)[1..] == a[1..] + [sep] + b;
      assert [a[0]] + a[1..] == a;
    }
  }

  /** A mismatch at position `k` rules out `s` starting with `sub`. */
  lemma MismatchAt(s: string, sub: string, k: nat)
    requires k < |sub| && k < |s| && s[k] != sub[k]
    ensures !StartsWith(s, sub)
  {
    if |sub| <= |s| {
      assert s[..|sub|][k] != sub[k];
    }
  }

  /**
   When the first character of `sub` appears nowhere in `s` at an offset
   other than 0 from which `sub` would still fit, `s.includes(sub)` reduces
   to `s.startsWith(sub)`.
   */
  lemma ContainsOnlyAtStart(s: string, sub: string)
    requires 0 < |sub| <= |s| && sub[0] !in s[1..|s| - |sub| + 1]
    ensures Contains(s, sub) <==> StartsWith(s, sub)
  {
    forall i: nat | 0 < i
      ensures !OccursAt(s, sub, i)
    {
      if i + |sub| <= |s| {
        assert s[1..|s| - |sub| + 1][i - 1] == s[i];
        assert s[i..i + |sub|][0] == s[i];
      }
    }
    ContainsIff(s, sub);
    assert OccursAt(s, sub, 0) <==> StartsWith(s, sub);
  }

  /** `s` does not include `sub`: its first character only fits at offset 0, where `s` differs at `k`. */
  lemma NotContains(s: string, sub: string, k: nat)
    requires 0 < |sub| <= |s| && sub[0] !in s[1..|s| - |sub| + 1]
    requires k < |sub| && s[k] != sub[k]
    ensures !Contains(s, sub)
  {
    ContainsOnlyAtStart(s, sub);
    MismatchAt(s, sub, k);
  }
}
