/**
 * The pieces of the Kotlin standard library that the hook bridge relies on
 * for strings: `Char.isWhitespace`, `String.isBlank`, `String.replace` and
 * `String.trim`, as they behave on the JVM.
 */
module KotlinText {

  /**
   * Kotlin's `Char.isWhitespace()` on the JVM: `Character.isWhitespace(c)`
   * or `Character.isSpaceChar(c)`, i.e. the ASCII controls TAB, LF, VT, FF,
   * CR and FS..US together with every Unicode space, line and paragraph
   * separator.
   */
  predicate IsWhitespace(c: char) {
    c == ' ' || c == '\t' || c == '\n' || c == '\U{000B}' || c == '\U{000C}' || c == '\r'
    || ('\U{001C}' <= c <= '\U{001F}')
    || c == '\U{00A0}' || c == '\U{1680}'
    || ('\U{2000}' <= c <= '\U{200A}')
    || c == '\U{2028}' || c == '\U{2029}' || c == '\U{202F}' || c == '\U{205F}' || c == '\U{3000}'
  }

  /** `String.isBlank()`: empty or made of whitespace only. */
  predicate IsBlank(s: string) {
    forall i :: 0 <= i < |s| ==> IsWhitespace(s[i])
  }

  /** `oldValue` occurs in `s` starting at index `i`. */
  predicate OccursAt(s: string, oldValue: string, i: int) {
    0 <= i && i + |oldValue| <= |s| && s[i..i + |oldValue|] == oldValue
  }

  /**
   * `String.replace(oldValue, newValue)` (case-sensitive): scans left to
   * right and replaces every non-overlapping occurrence of `oldValue`;
   * the text it inserts is not scanned again.
   */
  function Replace(s: string, oldValue: string, newValue: string): string
    requires oldValue != []
    decreases |s|
  {
    if |s| < |oldValue| then s
    else if s[..|oldValue|] == oldValue then newValue + Replace(s[|oldValue|..], oldValue, newValue)
    else [s[0]] + Replace(s[1..], oldValue, newValue)
  }

  /** A string with no occurrence of `oldValue` is returned as it is. */
  lemma {:induction false} ReplaceWithoutOccurrence(s: string, oldValue: string, newValue: string)
    requires oldValue != []
    requires forall i :: !OccursAt(s, oldValue, i)
    ensures Replace(s, oldValue, newValue) == s
    decreases |s|
  {
    if |s| >= |oldValue| {
      assert !OccursAt(s, oldValue, 0);
      assert s[..|oldValue|] != oldValue;
      forall i ensures !OccursAt(s[1..], oldValue, i) {
        if OccursAt(s[1..], oldValue, i) {
          assert s[1..][i..i + |oldValue|] == s[i + 1..i + 1 + |oldValue|];
          assert OccursAt(s, oldValue, i + 1);
        }
      }
      ReplaceWithoutOccurrence(s[1..], oldValue, newValue);
    }
  }

  /**
   * When no occurrence of `oldValue` starts inside `x`, the scan passes over
   * `x` untouched and only `y` is rewritten.
   */
  lemma {:induction false} ReplaceAfterPrefix(x: string, y: string, oldValue: string, newValue: string)
    requires oldValue != []
    requires forall i :: 0 <= i < |x| ==> !OccursAt(x + y, oldValue, i)
    ensures Replace(x + y, oldValue, newValue) == x + Replace(y, oldValue, newValue)
    decreases |x|
  {
    if x == [] {
      assert x + y == y;
    } else {
      var s := x + y;
      assert !OccursAt(s, oldValue, 0);
      if |s| >= |oldValue| {
        assert s[..|oldValue|] != oldValue;
        assert s[1..] == x[1..] + y;
        forall i | 0 <= i < |x[1..]| ensures !OccursAt(x[1..] + y, oldValue, i) {
          assert !OccursAt(s, oldValue, i + 1);
          if i + |oldValue| <= |s[1..]| {
            assert s[1..][i..i + |oldValue|] == s[i + 1..i + 1 + |oldValue|];
          }
        }
        ReplaceAfterPrefix(x[1..], y, oldValue, newValue);
        assert x == [x[0]] + x[1..];
      } else {
        ReplaceWithoutOccurrence(y, oldValue, newValue);
      }
    }
  }

  /** Deleting a one-character pattern leaves no copy of that character. */
  lemma {:induction false} DeleteCharRemovesAll(s: string, c: char)
    ensures c !in Replace(s, [c], "")
    decreases |s|
  {
    if |s| >= 1 {
      DeleteCharRemovesAll(s[1..], c);
      if s[..1] == [c] {
        assert Replace(s, [c], "") == Replace(s[1..], [c], "");
      } else {
        assert s[0] != c;
        assert Replace(s, [c], "") == [s[0]] + Replace(s[1..], [c], "");
      }
    }
  }

  /** Drops leading whitespace. */
  function TrimStart(s: string): string
  {
    if s != [] && IsWhitespace(s[0]) then TrimStart(s[1..]) else s
  }

  /** Drops trailing whitespace. */
  function TrimEnd(s: string): string
  {
    if s != [] && IsWhitespace(s[|s| - 1]) then TrimEnd(s[..|s| - 1]) else s
  }

  /** `String.trim()`: drops whitespace at both ends. */
  function Trim(s: string): string {
    TrimEnd(TrimStart(s))
  }

  lemma {:induction false} TrimStartIsSuffix(s: string) returns (i: nat)
    ensures i <= |s| && TrimStart(s) == s[i..]
    ensures forall k :: 0 <= k < i ==> IsWhitespace(s[k])
    ensures i < |s| ==> !IsWhitespace(s[i])
  {
    if s != [] && IsWhitespace(s[0]) {
      var j := TrimStartIsSuffix(s[1..]);
      i := j + 1;
      assert s[1..][j..] == s[i..];
      forall k | 0 <= k < i ensures IsWhitespace(s[k]) {
        if k > 0 { assert s[k] == s[1..][k - 1]; }
      }
    } else {
      i := 0;
    }
  }

  lemma {:induction false} TrimEndIsPrefix(s: string) returns (j: nat)
    ensures j <= |s| && TrimEnd(s) == s[..j]
    ensures forall k :: j <= k < |s| ==> IsWhitespace(s[k])
    ensures 0 < j ==> !IsWhitespace(s[j - 1])
  {
    if s != [] && IsWhitespace(s[|s| - 1]) {
      j := TrimEndIsPrefix(s[..|s| - 1]);
      assert s[..|s| - 1][..j] == s[..j];
      forall k | j <= k < |s| ensures IsWhitespace(s[k]) {
        if k < |s| - 1 { assert s[k] == s[..|s| - 1][k]; }
      }
    } else {
      j := |s|;
    }
  }

  /**
   * `trim` cuts `s` down to the slice `s[i..j]` whose ends are not
   * whitespace, and everything it removed is whitespace.
   */
  lemma TrimIsCore(s: string) returns (i: nat, j: nat)
    ensures i <= j <= |s| && Trim(s) == s[i..j]
    ensures forall k :: 0 <= k < i ==> IsWhitespace(s[k])
    ensures forall k :: j <= k < |s| ==> IsWhitespace(s[k])
    ensures i < j ==> !IsWhitespace(s[i]) && !IsWhitespace(s[j - 1])
  {
    i := TrimStartIsSuffix(s);
    var m := TrimEndIsPrefix(s[i..]);
    j := i + m;
    assert s[i..][..m] == s[i..j];
    forall k | j <= k < |s| ensures IsWhitespace(s[k]) {
      assert s[k] == s[i..][k - i];
    }
    if i < j {
      assert s[j - 1] == s[i..][m - 1];
    }
  }

  /** `isBlank` holds exactly when `trim` leaves nothing. */
  lemma BlankIffTrimsToEmpty(s: string)
    ensures IsBlank(s) <==> Trim(s) == []
  {
    var i, j := TrimIsCore(s);
    if Trim(s) == [] {
      forall k | 0 <= k < |s| ensures IsWhitespace(s[k]) {
        if i <= k < j { assert false; }
      }
    } else {
      assert !IsWhitespace(s[i]);
    }
  }

  /** Trimming never brings back a character that was absent. */
  lemma TrimKeepsAbsent(s: string, c: char)
    requires c !in s
    ensures c !in Trim(s)
  {
    var i, j := TrimIsCore(s);
  }
}
