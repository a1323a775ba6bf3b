/**
 * The JavaScript string operations the extension relies on: `trim`, `split`
 * on one character, `join`, and the `map(s => s.trim()).filter(Boolean)`
 * idiom that both the popup and the customizer apply to lists of names.
 */
module Text {

  /** A code point that `String.prototype.trim` strips: ECMAScript WhiteSpace or LineTerminator. */
  predicate IsWhitespace(c: char) {
    var n := c as int;
    n == 0x09 || n == 0x0A || n == 0x0B || n == 0x0C || n == 0x0D || n == 0x20 ||
    n == 0xA0 || n == 0x1680 || (0x2000 <= n <= 0x200A) || n == 0x2028 || n == 0x2029 ||
    n == 0x202F || n == 0x205F || n == 0x3000 || n == 0xFEFF
  }

  /** Neither end of `s` is whitespace. */
  predicate IsTrimmed(s: string) {
    s == [] || (!IsWhitespace(s[0]) && !IsWhitespace(s[|s| - 1]))
  }

  /** Drops the leading whitespace of `s`. */
  function TrimStart(s: string): (r: string)
    ensures r == [] || !IsWhitespace(r[0])
    ensures |r| <= |s| && r == s[|s| - |r|..]
    ensures forall i :: 0 <= i < |s| - |r| ==> IsWhitespace(s[i])
  {
    if s != [] && IsWhitespace(s[0]) then TrimStart(s[1..]) else s
  }

  /** Drops the trailing whitespace of `s`. */
  function TrimEnd(s: string): (r: string)
    ensures r == [] || !IsWhitespace(r[|r| - 1])
    ensures |r| <= |s| && r == s[..|r|]
    ensures forall i :: |r| <= i < |s| ==> IsWhitespace(s[i])
  {
    if s != [] && IsWhitespace(s[|s| - 1]) then TrimEnd(s[..|s| - 1]) else s
  }

  /** `s.trim()` */
  function Trim(s: string): (r: string)
    ensures IsTrimmed(r)
    ensures IsTrimmed(s) ==> r == s
  {
    TrimEnd(TrimStart(s))
  }

  /** Leading whitespace never survives a trim. */
  lemma TrimSkipsLeadingSpace(s: string)
    ensures Trim(" " + s) == Trim(s)
  {
    assert (" " + s)[1..] == s;
  }

  /** Every entry is non-empty and trimmed: what `map(trim).filter(Boolean)` produces. */
  predicate IsClean(xs: seq<string>) {
    forall i :: 0 <= i < |xs| ==> xs[i] != "" && IsTrimmed(xs[i])
  }

  /** `xs.map(s => s.trim()).filter(Boolean)`: trim every entry and drop the empty ones, keeping order. */
  function CleanEntries(xs: seq<string>): (r: seq<string>)
    ensures |r| <= |xs|
    ensures IsClean(r)
  {
    if xs == [] then []
    else (if Trim(xs[0]) == "" then [] else [Trim(xs[0])]) + CleanEntries(xs[1..])
  }

  /** Cleaning a list that is already clean changes nothing (so cleaning twice is cleaning once). */
  lemma {:induction false} CleanEntriesOfClean(xs: seq<string>)
    requires IsClean(xs)
    ensures CleanEntries(xs) == xs
  {
    if xs != [] {
      CleanEntriesOfClean(xs[1..]);
    }
  }

  /** Cleaning distributes over concatenation. */
  lemma {:induction false} CleanEntriesAppend(xs: seq<string>, ys: seq<string>)
    ensures CleanEntries(xs + ys) == CleanEntries(xs) + CleanEntries(ys)
  {
    if xs == [] {
      assert xs + ys == ys;
    } else {
      assert (xs + ys)[1..] == xs[1..] + ys;
      CleanEntriesAppend(xs[1..], ys);
    }
  }

  /** `xs.join(sep)`: empty for no entries, otherwise at least as long as its first entry. */
  function Join(xs: seq<string>, sep: string): (s: string)
    ensures |xs| == 0 ==> s == ""
    ensures |xs| > 0 ==> |xs[0]| <= |s|
  {
    if |xs| == 0 then ""
    else if |xs| == 1 then xs[0]
    else xs[0] + sep + Join(xs[1..], sep)
  }

  /** A join holds every character of the entries and one separator between each two of them, and nothing else. */
  lemma {:induction false} JoinLength(xs: seq<string>, sep: string)
    requires |xs| > 0
    ensures |Join(xs, sep)| == TotalLength(xs) + (|xs| - 1) * |sep|
  {
    if |xs| > 1 {
      JoinLength(xs[1..], sep);
    }
  }

  /** The summed length of the entries. */
  function TotalLength(xs: seq<string>): nat {
    if xs == [] then 0 else |xs[0]| + TotalLength(xs[1..])
  }

  /** `s.split(sep)` for a one-character separator: at least one part, and no part holds the separator. */
  function Split(s: string, sep: char): (parts: seq<string>)
    ensures |parts| >= 1
    ensures forall i :: 0 <= i < |parts| ==> sep !in parts[i]
  {
    if s == [] then [""]
    else if s[0] == sep then [""] + Split(s[1..], sep)
    else
      var rest := Split(s[1..], sep);
      [[s[0]] + rest[0]] + rest[1..]
  }

  /** Joining the parts of a split with the separator gives back the string. */
  lemma {:induction false} JoinSplit(s: string, sep: char)
    ensures Join(Split(s, sep), [sep]) == s
  {
    if s == [] {
    } else if s[0] == sep {
      var rest := Split(s[1..], sep);
      JoinSplit(s[1..], sep);
      assert Split(s, sep) == [""] + rest;
      assert ([""] + rest)[1..] == rest;
    } else {
      var rest := Split(s[1..], sep);
      JoinSplit(s[1..], sep);
      var parts := [[s[0]] + rest[0]] + rest[1..];
      assert parts[1..] == rest[1..];
      if |rest| == 1 {
        assert s == [s[0]] + s[1..];
      } else {
        assert Join(rest, [sep]) == rest[0] + [sep] + Join(rest[1..], [sep]);
        assert s == [s[0]] + s[1..];
      }
    }
  }

  /** A string without the separator splits into itself alone. */
  lemma {:induction false} SplitWithoutSeparator(s: string, sep: char)
    requires sep !in s
    ensures Split(s, sep) == [s]
  {
    if s != [] {
      assert sep !in s[1..] by {
        forall i | 0 <= i < |s[1..]| ensures s[1..][i] != sep { assert s[1..][i] == s[i + 1]; }
      }
      SplitWithoutSeparator(s[1..], sep);
      assert [s[0]] + s[1..] == s;
    }
  }

  /** The first separator ends the first part. */
  lemma {:induction false} SplitAtFirstSeparator(a: string, sep: char, b: string)
    requires sep !in a
    ensures Split(a + [sep] + b, sep) == [a] + Split(b, sep)
  {
    var s := a + [sep] + b;
    if a == [] {
      assert s[0] == sep && s[1..] == b;
    } else {
      assert s[0] == a[0] && s[1..] == a[1..] + [sep] + b;
      assert sep !in a[1..] by {
        forall i | 0 <= i < |a[1..]| ensures a[1..][i] != sep { assert a[1..][i] == a[i + 1]; }
      }
      SplitAtFirstSeparator(a[1..], sep, b);
      assert [a[0]] + a[1..] == a;
    }
  }

  /** A leading character other than the separator is glued to the first part. */
  lemma SplitLeadingChar(c: char, sep: char, s: string)
    requires c != sep
    ensures Split([c] + s, sep) == [[c] + Split(s, sep)[0]] + Split(s, sep)[1..]
  {
    assert ([c] + s)[1..] == s;
  }
}
