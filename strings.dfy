/**
 * The .NET string primitives the generator relies on, stated over `seq<char>`:
 * whitespace classification, ASCII case mapping, ordinal search, `Replace`,
 * `Split`, `Join`, `Trim` and the `StringBuilder.AppendLine` idiom.
 */
module Strings {

  /** `Environment.NewLine`, fixed to a single line-feed character. */
  const NewLineChar: char := '\n'
  const NewLine: string := [NewLineChar]

  /** `char.IsWhiteSpace`: the Unicode separators plus the control characters 9-13, 0x85 and 0xA0. */
  predicate IsWhiteSpace(c: char) {
    c == ' ' || ('\t' <= c <= '\r') || c == '\U{85}' || c == '\U{A0}' || c == '\U{1680}'
    || ('\U{2000}' <= c <= '\U{200A}') || c == '\U{2028}' || c == '\U{2029}'
    || c == '\U{202F}' || c == '\U{205F}' || c == '\U{3000}'
  }

  /** `string.IsNullOrWhiteSpace`; a null string is represented by the empty string. */
  predicate IsNullOrWhiteSpace(s: string) {
    forall i | 0 <= i < |s| :: IsWhiteSpace(s[i])
  }

  predicate IsDigit(c: char) {
    '0' <= c <= '9'
  }

  predicate IsAsciiLetter(c: char) {
    ('a' <= c <= 'z') || ('A' <= c <= 'Z')
  }

  function ToUpperChar(c: char): (u: char)
    ensures IsDigit(c) <==> IsDigit(u)
    ensures IsWhiteSpace(c) <==> IsWhiteSpace(u)
    ensures IsAsciiLetter(c) <==> IsAsciiLetter(u)
    ensures !('a' <= u <= 'z')
  {
    if 'a' <= c <= 'z' then (c as int - 32) as char else c
  }

  function ToLowerChar(c: char): (l: char)
    ensures IsDigit(c) <==> IsDigit(l)
    ensures IsAsciiLetter(c) <==> IsAsciiLetter(l)
    ensures !('A' <= l <= 'Z')
  {
    if 'A' <= c <= 'Z' then (c as int + 32) as char else c
  }

  /** `ToUpper` restricted to the ASCII letters. */
  function ToUpper(s: string): (r: string)
    ensures |r| == |s|
    ensures forall i | 0 <= i < |s| :: r[i] == ToUpperChar(s[i])
  {
    seq(|s|, i requires 0 <= i < |s| => ToUpperChar(s[i]))
  }

  /** Ordinal comparison ignoring (ASCII) case. */
  predicate EqualsIgnoreCase(a: string, b: string) {
    ToUpper(a) == ToUpper(b)
  }

  predicate StartsWith(s: string, prefix: string) {
    prefix <= s
  }

  predicate EndsWith(s: string, suffix: string) {
    |suffix| <= |s| && s[|s| - |suffix|..] == suffix
  }

  /** `s.Contains(p)`: some suffix of `s` starts with `p`. */
  predicate Contains(s: string, p: string)
    decreases |s|
  {
    p <= s || (s != [] && Contains(s[1..], p))
  }

  lemma {:induction false} ContainsEmpty(s: string)
    ensures Contains(s, "")
  {
  }

  /** A one-character pattern is contained exactly when that character occurs. */
  lemma {:induction false} ContainsChar(s: string, c: char)
    ensures Contains(s, [c]) <==> c in s
    decreases |s|
  {
    if s != [] {
      ContainsChar(s[1..], c);
      assert s == [s[0]] + s[1..];
    }
  }

  /** A pattern whose first character does not occur is not contained. */
  lemma {:induction false} NotContainsFirstChar(s: string, p: string)
    requires p != [] && p[0] !in s
    ensures !Contains(s, p)
    decreases |s|
  {
    if s != [] {
      assert s[0] in s;
      assert forall k | 0 <= k < |s[1..]| :: s[1..][k] in s;
      NotContainsFirstChar(s[1..], p);
    }
  }

  /**
   * `s.Replace(pattern, value)` of .NET: every non-overlapping occurrence of
   * `pattern`, scanned from the left, is replaced by `value`.
   */
  function Replace(s: string, pattern: string, value: string): string
    requires pattern != []
    decreases |s|
  {
    if |s| < |pattern| then s
    else if pattern <= s then value + Replace(s[|pattern|..], pattern, value)
    else [s[0]] + Replace(s[1..], pattern, value)
  }

  /** Replacing a pattern that does not occur leaves the string as it was. */
  lemma {:induction false} ReplaceAbsent(s: string, pattern: string, value: string)
    requires pattern != [] && !Contains(s, pattern)
    ensures Replace(s, pattern, value) == s
    decreases |s|
  {
    if |s| >= |pattern| {
      ReplaceAbsent(s[1..], pattern, value);
    }
  }

  /** A character absent from both the input and the replacement text stays absent. */
  lemma {:induction false} ReplaceKeepsAbsent(s: string, pattern: string, value: string, c: char)
    requires pattern != [] && c !in s && c !in value
    ensures c !in Replace(s, pattern, value)
    decreases |s|
  {
    if |s| < |pattern| {
    } else if pattern <= s {
      ReplaceKeepsAbsent(s[|pattern|..], pattern, value, c);
    } else {
      ReplaceKeepsAbsent(s[1..], pattern, value, c);
    }
  }

  /** Replacing a single character by a text without it removes every occurrence. */
  lemma {:induction false} ReplaceCharRemoves(s: string, c: char, value: string)
    requires c !in value
    ensures c !in Replace(s, [c], value)
    decreases |s|
  {
    if |s| >= 1 {
      ReplaceCharRemoves(s[1..], c, value);
    }
  }

  /** Replacing one character never removes a different one. */
  lemma {:induction false} ReplaceCharKeepsOther(s: string, k: char, value: string, c: char)
    requires k != c && c in s
    ensures c in Replace(s, [k], value)
    decreases |s|
  {
    if s[0] == c {
      assert Replace(s, [k], value) == [c] + Replace(s[1..], [k], value);
    } else {
      var i :| 0 <= i < |s| && s[i] == c;
      assert s[1..][i - 1] == c;
      ReplaceCharKeepsOther(s[1..], k, value, c);
      assert s[|[k]|..] == s[1..];
    }
  }

  /** A single-character replacement works piece by piece. */
  lemma {:induction false} ReplaceCharConcat(a: string, b: string, c: char, value: string)
    ensures Replace(a + b, [c], value) == Replace(a, [c], value) + Replace(b, [c], value)
    decreases |a|
  {
    if a == [] {
      assert a + b == b;
    } else {
      assert (a + b)[1..] == a[1..] + b;
      assert (a + b)[..1] == a[..1];
      ReplaceCharConcat(a[1..], b, c, value);
    }
  }

  /** Text that cannot start an occurrence is copied unchanged. */
  lemma {:induction false} ReplaceSkipsPrefix(a: string, t: string, pattern: string, value: string)
    requires pattern != [] && pattern[0] !in a
    ensures Replace(a + t, pattern, value) == a + Replace(t, pattern, value)
    decreases |a|
  {
    if a != [] {
      assert (a + t)[0] == a[0];
      assert (a + t)[1..] == a[1..] + t;
      assert forall k | 0 <= k < |a[1..]| :: a[1..][k] in a;
      ReplaceSkipsPrefix(a[1..], t, pattern, value);
      if |a + t| < |pattern| {
        assert |t| < |pattern|;
        assert |a[1..] + t| < |pattern|;
      }
    } else {
      assert a + t == t;
    }
  }

  /** `Join(parts, sep)`: `string.Join`. */
  function Join(parts: seq<string>, sep: string): string
    decreases |parts|
  {
    if parts == [] then ""
    else if |parts| == 1 then parts[0]
    else parts[0] + sep + Join(parts[1..], sep)
  }

  /**
   * Every occurrence of `pattern` is replaced: a text made of pattern-free
   * pieces joined by `pattern` comes out as the same pieces joined by `value`.
   */
  lemma {:induction false} ReplaceJoin(parts: seq<string>, pattern: string, value: string)
    requires pattern != []
    requires forall k | 0 <= k < |parts| :: pattern[0] !in parts[k]
    ensures Replace(Join(parts, pattern), pattern, value) == Join(parts, value)
    decreases |parts|
  {
    if parts == [] {
    } else if |parts| == 1 {
      NotContainsFirstChar(parts[0], pattern);
      ReplaceAbsent(parts[0], pattern, value);
    } else {
      var rest := Join(parts[1..], pattern);
      calc {
        Replace(Join(parts, pattern), pattern, value);
        { assert Join(parts, pattern) == parts[0] + (pattern + rest); }
        Replace(parts[0] + (pattern + rest), pattern, value);
        { ReplaceSkipsPrefix(parts[0], pattern + rest, pattern, value); }
        parts[0] + Replace(pattern + rest, pattern, value);
        { assert (pattern + rest)[|pattern|..] == rest; }
        parts[0] + (value + Replace(rest, pattern, value));
        { ReplaceJoin(parts[1..], pattern, value); }
        Join(parts, value);
      }
    }
  }

  /** Some piece holds `c`. */
  predicate InAny(parts: seq<string>, c: char) {
    exists i | 0 <= i < |parts| :: c in parts[i]
  }

  /** A character other than the separator is in a join exactly when it is in one of the pieces. */
  lemma {:induction false} JoinMembers(parts: seq<string>, sep: char, c: char)
    requires c != sep
    ensures c in Join(parts, [sep]) <==> InAny(parts, c)
    decreases |parts|
  {
    if |parts| > 1 {
      var tail := parts[1..];
      JoinMembers(tail, sep, c);
      assert Join(parts, [sep]) == parts[0] + [sep] + Join(tail, [sep]);
      if InAny(tail, c) {
        var i :| 0 <= i < |tail| && c in tail[i];
        assert c in parts[i + 1];
      }
      if InAny(parts, c) && c !in parts[0] {
        var i :| 0 <= i < |parts| && c in parts[i];
        assert c in tail[i - 1];
      }
    }
  }

  /** Joining one more piece adds the separator and the piece at the end. */
  lemma {:induction false} JoinSnoc(parts: seq<string>, last: string, sep: string)
    requires parts != []
    ensures Join(parts + [last], sep) == Join(parts, sep) + sep + last
    decreases |parts|
  {
    if |parts| == 1 {
      assert (parts + [last])[1..] == [last];
    } else {
      assert (parts + [last])[1..] == parts[1..] + [last];
      JoinSnoc(parts[1..], last, sep);
    }
  }

  /** `s.Split(sep)` with `StringSplitOptions.None`: always at least one piece. */
  function Split(s: string, sep: char): (pieces: seq<string>)
    ensures |pieces| >= 1
    ensures forall k | 0 <= k < |pieces| :: sep !in pieces[k]
    decreases |s|
  {
    if s == [] then [""]
    else
      var rest := Split(s[1..], sep);
      if s[0] == sep then [""] + rest
      else [[s[0]] + rest[0]] + rest[1..]
  }

  /** Joining the pieces of a split with the separator gives back the input. */
  lemma {:induction false} JoinSplit(s: string, sep: char)
    ensures Join(Split(s, sep), [sep]) == s
    decreases |s|
  {
    if s != [] {
      var rest := Split(s[1..], sep);
      JoinSplit(s[1..], sep);
      if s[0] == sep {
        assert Split(s, sep)[1..] == rest;
      } else {
        var head := [s[0]] + rest[0];
        assert Split(s, sep) == [head] + rest[1..];
        if |rest| == 1 {
          assert Join(Split(s, sep), [sep]) == head;
        } else {
          assert ([head] + rest[1..])[1..] == rest[1..];
        }
      }
    }
  }

  /** Splitting loses no character but the separator. */
  lemma {:induction false} SplitMembers(s: string, sep: char, c: char)
    requires c != sep
    ensures c in s <==> InAny(Split(s, sep), c)
  {
    JoinSplit(s, sep);
    JoinMembers(Split(s, sep), sep, c);
  }

  /** Splitting a join of separator-free pieces gives back the pieces. */
  lemma {:induction false} SplitJoin(parts: seq<string>, sep: char)
    requires |parts| >= 1
    requires forall k | 0 <= k < |parts| :: sep !in parts[k]
    ensures Split(Join(parts, [sep]), sep) == parts
    decreases |parts|, |parts[0]|
  {
    if parts[0] == [] {
      if |parts| == 1 {
      } else {
        var tail := Join(parts[1..], [sep]);
        assert Join(parts, [sep]) == [sep] + tail;
        assert ([sep] + tail)[1..] == tail;
        SplitJoin(parts[1..], sep);
        assert parts == [""] + parts[1..];
      }
    } else {
      var first := parts[0];
      var shorter := [first[1..]] + parts[1..];
      assert forall k | 0 <= k < |shorter| :: sep !in shorter[k] by {
        assert forall j | 0 <= j < |first[1..]| :: first[1..][j] in first;
      }
      SplitJoin(shorter, sep);
      JoinFirstChar(parts, [sep]);
      assert first[0] != sep by { assert first[0] in first; }
      SplitFirstChar(first[0], Join(shorter, [sep]), sep);
      assert first == [first[0]] + first[1..];
    }
  }

  /** A join whose first piece is not empty starts with that piece's first character. */
  lemma {:induction false} JoinFirstChar(parts: seq<string>, sep: string)
    requires |parts| >= 1 && parts[0] != []
    ensures Join(parts, sep) == [parts[0][0]] + Join([parts[0][1..]] + parts[1..], sep)
  {
    var first := parts[0];
    var shorter := [first[1..]] + parts[1..];
    assert first == [first[0]] + first[1..];
    if |parts| > 1 {
      assert shorter[1..] == parts[1..];
    }
  }

  /** Splitting a text that starts with a non-separator adds that character to the first piece. */
  lemma {:induction false} SplitFirstChar(c: char, t: string, sep: char)
    requires c != sep
    ensures Split([c] + t, sep) == [[c] + Split(t, sep)[0]] + Split(t, sep)[1..]
  {
    assert ([c] + t)[1..] == t;
  }

  function TrimStart(s: string): (r: string)
    ensures r == [] || !IsWhiteSpace(r[0])
    ensures |r| <= |s| && s[|s| - |r|..] == r
    ensures forall c | c in r :: c in s
    decreases |s|
  {
    if s != [] && IsWhiteSpace(s[0]) then TrimStart(s[1..]) else s
  }

  function TrimEnd(s: string): (r: string)
    ensures r == [] || !IsWhiteSpace(r[|r| - 1])
    ensures r <= s
    ensures forall c | c in r :: c in s
    decreases |s|
  {
    if s != [] && IsWhiteSpace(s[|s| - 1]) then TrimEnd(s[..|s| - 1]) else s
  }

  /** `string.Trim`: drops leading and trailing whitespace. */
  function Trim(s: string): (r: string)
    ensures r == [] || (!IsWhiteSpace(r[0]) && !IsWhiteSpace(r[|r| - 1]))
    ensures forall c | c in r :: c in s
  {
    var t := TrimStart(s);
    var r := TrimEnd(t);
    assert r != [] ==> r[0] == t[0];
    r
  }

  /** Leading whitespace is all that `TrimStart` drops. */
  lemma {:induction false} TrimStartKeeps(s: string, c: char)
    requires !IsWhiteSpace(c) && c in s
    ensures c in TrimStart(s)
    decreases |s|
  {
    if IsWhiteSpace(s[0]) {
      var i :| 0 <= i < |s| && s[i] == c;
      assert s[1..][i - 1] == c;
      TrimStartKeeps(s[1..], c);
    }
  }

  /** Trailing whitespace is all that `TrimEnd` drops. */
  lemma {:induction false} TrimEndKeeps(s: string, c: char)
    requires !IsWhiteSpace(c) && c in s
    ensures c in TrimEnd(s)
    decreases |s|
  {
    if IsWhiteSpace(s[|s| - 1]) {
      var i :| 0 <= i < |s| && s[i] == c;
      assert s[..|s| - 1][i] == c;
      TrimEndKeeps(s[..|s| - 1], c);
    }
  }

  /** Trimming keeps every character that is not whitespace. */
  lemma {:induction false} TrimKeeps(s: string, c: char)
    requires !IsWhiteSpace(c)
    ensures c in Trim(s) <==> c in s
  {
    if c in s {
      TrimStartKeeps(s, c);
      TrimEndKeeps(TrimStart(s), c);
    }
  }

  /** `Split(sep, RemoveEmptyEntries | TrimEntries)`: pieces are trimmed, empty ones dropped. */
  function SplitTrimmed(s: string, sep: char): (pieces: seq<string>)
    ensures forall k | 0 <= k < |pieces| :: pieces[k] != [] && sep !in pieces[k]
    ensures forall k | 0 <= k < |pieces| :: !IsWhiteSpace(pieces[k][0])
  {
    KeepNonEmpty(TrimAll(Split(s, sep)))
  }

  /** Trimmed splitting loses only separators and whitespace. */
  lemma {:induction false} SplitTrimmedMembers(s: string, sep: char, c: char)
    requires c != sep && !IsWhiteSpace(c)
    ensures c in s <==> InAny(SplitTrimmed(s, sep), c)
  {
    SplitMembers(s, sep, c);
    TrimAllMembers(Split(s, sep), c);
    KeepNonEmptyMembers(TrimAll(Split(s, sep)), c);
  }

  /** Trimming every piece keeps every character that is not whitespace. */
  lemma {:induction false} TrimAllMembers(pieces: seq<string>, c: char)
    requires !IsWhiteSpace(c)
    ensures InAny(TrimAll(pieces), c) <==> InAny(pieces, c)
  {
    var trimmed := TrimAll(pieces);
    if InAny(pieces, c) {
      var i :| 0 <= i < |pieces| && c in pieces[i];
      TrimKeeps(pieces[i], c);
      assert c in trimmed[i];
    }
    if InAny(trimmed, c) {
      var i :| 0 <= i < |trimmed| && c in trimmed[i];
      TrimKeeps(pieces[i], c);
      assert c in pieces[i];
    }
  }

  /** Dropping the empty pieces loses no character. */
  lemma {:induction false} KeepNonEmptyMembers(pieces: seq<string>, c: char)
    ensures InAny(KeepNonEmpty(pieces), c) <==> InAny(pieces, c)
  {
    var kept := KeepNonEmpty(pieces);
    if InAny(pieces, c) {
      var i :| 0 <= i < |pieces| && c in pieces[i];
      assert pieces[i] in kept;
      var j :| 0 <= j < |kept| && kept[j] == pieces[i];
      assert c in kept[j];
    }
    if InAny(kept, c) {
      var j :| 0 <= j < |kept| && c in kept[j];
      assert kept[j] in pieces;
      var i :| 0 <= i < |pieces| && pieces[i] == kept[j];
      assert c in pieces[i];
    }
  }

  function TrimAll(pieces: seq<string>): (r: seq<string>)
    ensures |r| == |pieces|
    ensures forall k | 0 <= k < |r| :: r[k] == Trim(pieces[k])
  {
    seq(|pieces|, k requires 0 <= k < |pieces| => Trim(pieces[k]))
  }

  function KeepNonEmpty(pieces: seq<string>): (r: seq<string>)
    ensures forall k | 0 <= k < |r| :: r[k] != [] && r[k] in pieces
    ensures forall k | 0 <= k < |pieces| :: pieces[k] != [] ==> pieces[k] in r
    decreases |pieces|
  {
    if pieces == [] then []
    else if pieces[0] == [] then KeepNonEmpty(pieces[1..])
    else [pieces[0]] + KeepNonEmpty(pieces[1..])
  }

  /** The text a `StringBuilder` holds after `AppendLine(x)` for each `x` of `lines` in turn. */
  function Terminated(lines: seq<string>): string
    decreases |lines|
  {
    if lines == [] then "" else Terminated(lines[..|lines| - 1]) + lines[|lines| - 1] + NewLine
  }

  /** A prefix one longer is the prefix and the next element. */
  lemma TakeOneMore<T>(s: seq<T>, i: nat)
    requires i < |s|
    ensures s[..i + 1] == s[..i] + [s[i]]
  {
  }

  lemma {:induction false} TerminatedConcat(a: seq<string>, b: seq<string>)
    ensures Terminated(a + b) == Terminated(a) + Terminated(b)
    decreases |b|
  {
    if b == [] {
      assert a + b == a;
    } else {
      var b' := b[..|b| - 1];
      assert (a + b)[..|a + b| - 1] == a + b';
      TerminatedConcat(a, b');
    }
  }

  /** Appending a line terminator after every line equals joining and terminating the last. */
  lemma {:induction false} TerminatedIsJoin(lines: seq<string>)
    requires lines != []
    ensures Terminated(lines) == Join(lines, NewLine) + NewLine
    decreases |lines|
  {
    if |lines| == 1 {
      assert lines[..0] == [];
    } else {
      TerminatedConcat([lines[0]], lines[1..]);
      assert [lines[0]] + lines[1..] == lines;
      assert [lines[0]][..0] == [];
      TerminatedIsJoin(lines[1..]);
    }
  }

  /** Decimal text of an `int`, as `int.ToString()` writes it. */
  function IntToString(n: int): (r: string)
    ensures r != []
    ensures n >= 0 ==> forall k | 0 <= k < |r| :: IsDigit(r[k])
    ensures n < 0 ==> r[0] == '-'
    decreases if n < 0 then 1 - n else n
  {
    if n < 0 then "-" + NatToString(-n) else NatToString(n)
  }

  function NatToString(n: nat): (r: string)
    ensures r != [] && forall k | 0 <= k < |r| :: IsDigit(r[k])
  {
    if n < 10 then [('0' as int + n) as char]
    else NatToString(n / 10) + [('0' as int + n % 10) as char]
  }
}
