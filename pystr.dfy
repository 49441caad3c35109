/**
 * The three Python `str` operations the stream parser relies on:
 * `s.split(sep)` with a non-empty separator, `sep.join(parts)`
 * and `s.startswith(prefix)`. Strings are already-decoded `seq<char>`.
 */
module PyStr {

  /** `s.startswith(prefix)` */
  predicate StartsWith(s: string, prefix: string) {
    |prefix| <= |s| && s[..|prefix|] == prefix
  }

  /** `sep` occurs in `s` at index `i`. */
  predicate OccursAt(s: string, sep: string, i: nat) {
    i + |sep| <= |s| && s[i..i + |sep|] == sep
  }

  /** `sep in s` */
  predicate Contains(s: string, sep: string) {
    exists i: nat | i <= |s| :: OccursAt(s, sep, i)
  }

  /** Number of occurrences of the character `c` in `s`. */
  function CountChar(s: string, c: char): nat {
    if s == [] then 0 else (if s[0] == c then 1 else 0) + CountChar(s[1..], c)
  }

  /** `sep.join(parts)` */
  function Join(parts: seq<string>, sep: string): string {
    if |parts| == 0 then ""
    else if |parts| == 1 then parts[0]
    else parts[0] + sep + Join(parts[1..], sep)
  }

  lemma JoinCons(c: char, parts: seq<string>, sep: string)
    requires |parts| >= 1
    ensures Join([[c] + parts[0]] + parts[1..], sep) == [c] + Join(parts, sep)
  {
    var q := [[c] + parts[0]] + parts[1..];
    assert q[1..] == parts[1..];
  }

  /**
   * `s.split(sep)`: the pieces between the leftmost non-overlapping
   * occurrences of `sep`, scanning from the left. There is always at
   * least one piece, and gluing the pieces back with `sep` gives `s`.
   */
  function Split(s: string, sep: string): (r: seq<string>)
    requires |sep| > 0
    ensures |r| >= 1
    ensures Join(r, sep) == s
    decreases |s|
  {
    if |s| < |sep| then [s]
    else if s[..|sep|] == sep then
      var rest := Split(s[|sep|..], sep);
      assert ([""] + rest)[1..] == rest;
      [""] + rest
    else
      var rest := Split(s[1..], sep);
      JoinCons(s[0], rest, sep);
      [[s[0]] + rest[0]] + rest[1..]
  }

  /** The first piece of a split is a prefix of the input. */
  lemma {:induction false} FirstPieceIsPrefix(s: string, sep: string)
    requires |sep| > 0
    ensures StartsWith(s, Split(s, sep)[0])
  {
    var r := Split(s, sep);
    if |r| > 1 {
      assert Join(r, sep) == r[0] + (sep + Join(r[1..], sep));
    }
  }

  /** No piece of a split contains the separator. */
  lemma {:induction false} PiecesFreeOfSeparator(s: string, sep: string)
    requires |sep| > 0
    ensures forall k :: 0 <= k < |Split(s, sep)| ==> !Contains(Split(s, sep)[k], sep)
    decreases |s|
  {
    if |s| < |sep| {
      forall i: nat ensures !OccursAt(s, sep, i) { }
    } else if s[..|sep|] == sep {
      PiecesFreeOfSeparator(s[|sep|..], sep);
      var rest := Split(s[|sep|..], sep);
      assert Split(s, sep) == [""] + rest;
      forall k | 0 <= k < |Split(s, sep)| ensures !Contains(Split(s, sep)[k], sep) {
        if k == 0 {
          forall i: nat ensures !OccursAt("", sep, i) { }
        } else {
          assert Split(s, sep)[k] == rest[k - 1];
        }
      }
    } else {
      PiecesFreeOfSeparator(s[1..], sep);
      FirstPieceIsPrefix(s[1..], sep);
      var rest := Split(s[1..], sep);
      var head := [s[0]] + rest[0];
      assert Split(s, sep) == [head] + rest[1..];
      assert head == s[..|head|];
      forall i: nat ensures !OccursAt(head, sep, i) {
        if i == 0 {
          if |sep| <= |head| {
            assert head[..|sep|] == s[..|sep|];
          }
        } else if i + |sep| <= |head| {
          assert head[i..i + |sep|] == rest[0][i - 1..i - 1 + |sep|];
          assert !OccursAt(rest[0], sep, i - 1);
        }
      }
      forall k | 0 <= k < |Split(s, sep)| ensures !Contains(Split(s, sep)[k], sep) {
        if k > 0 {
          assert Split(s, sep)[k] == rest[k];
        }
      }
    }
  }

  /** Splitting on one character yields one more piece than it has occurrences. */
  lemma {:induction false} SplitCharCount(s: string, c: char)
    ensures |Split(s, [c])| == CountChar(s, c) + 1
    decreases |s|
  {
    if |s| >= 1 {
      SplitCharCount(s[1..], c);
      if s[0] == c {
        assert s[..1] == [c];
      } else {
        assert s[..1] != [c];
      }
    }
  }

  lemma {:induction false} NoCharNoCount(s: string, c: char)
    ensures c !in s <==> CountChar(s, c) == 0
    decreases |s|
  {
    if s != [] {
      NoCharNoCount(s[1..], c);
      assert s == [s[0]] + s[1..];
    }
  }

  /** A string without the separator character splits into itself. */
  lemma {:induction false} SplitNoSeparator(s: string, c: char)
    requires c !in s
    ensures Split(s, [c]) == [s]
  {
    NoCharNoCount(s, c);
    SplitCharCount(s, c);
  }

  /** A separator after a separator-free prefix ends the first piece. */
  lemma {:induction false} SplitAtFirst(a: string, c: char, b: string)
    requires c !in a
    ensures Split(a + [c] + b, [c]) == [a] + Split(b, [c])
    decreases |a|
  {
    var s := a + [c] + b;
    if a == [] {
      assert s[..1] == [c];
      assert s[1..] == b;
    } else {
      assert s[0] == a[0];
      assert s[..1] == [a[0]];
      assert s[1..] == a[1..] + [c] + b;
      SplitAtFirst(a[1..], c, b);
      assert [a[0]] + a[1..] == a;
    }
  }

  /**
   * Round trip: joining separator-free pieces and splitting the result
   * on the same one-character separator gives the pieces back.
   */
  lemma {:induction false} SplitJoin(parts: seq<string>, c: char)
    requires |parts| >= 1
    requires forall k :: 0 <= k < |parts| ==> c !in parts[k]
    ensures Split(Join(parts, [c]), [c]) == parts
  {
    if |parts| == 1 {
      SplitNoSeparator(parts[0], c);
    } else {
      SplitJoin(parts[1..], c);
      SplitAtFirst(parts[0], c, Join(parts[1..], [c]));
      assert [parts[0]] + parts[1..] == parts;
    }
  }
}
