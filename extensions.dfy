/**
 * The string extension methods of `Common/Extensions.cs`: the table-name
 * wildcard filter, first-character case changes and the digit test.
 */
module Extensions {
  import opened Strings

  /**
   * `MatchFilter`: a blank filter matches everything; otherwise a leading and/or
   * trailing `*` selects contains / ends-with / starts-with / equals, compared
   * without case after every `*` has been removed from the filter.
   */
  function MatchFilter(value: string, filter: string): (r: bool)
    ensures IsNullOrWhiteSpace(filter) ==> r
  {
    if IsNullOrWhiteSpace(filter) then true
    else
      var start := StartsWith(filter, "*");
      var end := EndsWith(filter, "*");
      var core := ToUpper(Replace(filter, "*", ""));
      var v := ToUpper(value);
      if start && end then Contains(v, core)
      else if start then EndsWith(v, core)
      else if end then StartsWith(v, core)
      else v == core
  }

  /** Removing the stars from a star-free text changes nothing. */
  lemma {:induction false} StarFree(x: string)
    requires '*' !in x
    ensures Replace(x, "*", "") == x
  {
    ContainsChar(x, '*');
    ReplaceAbsent(x, "*", "");
  }

  /** `*x*` matches exactly the values containing `x`, ignoring case. */
  lemma {:induction false} MatchFilterContains(value: string, x: string)
    requires '*' !in x
    ensures MatchFilter(value, "*" + x + "*") <==> Contains(ToUpper(value), ToUpper(x))
  {
    var f := "*" + x + "*";
    assert !IsNullOrWhiteSpace(f) by { assert !IsWhiteSpace(f[0]); }
    assert StartsWith(f, "*") && EndsWith(f, "*");
    assert Replace(f, "*", "") == x by {
      StarRemoval("", x, "");
      assert "" + x + "" == x;
      assert "" + "*" + x + "*" + "" == f;
    }
  }

  /** `*x` matches exactly the values ending with `x`, ignoring case. */
  lemma {:induction false} MatchFilterSuffix(value: string, x: string)
    requires '*' !in x && x != []
    ensures MatchFilter(value, "*" + x) <==> EndsWith(ToUpper(value), ToUpper(x))
  {
    var f := "*" + x;
    assert !IsNullOrWhiteSpace(f) by { assert !IsWhiteSpace(f[0]); }
    assert StartsWith(f, "*");
    assert !EndsWith(f, "*") by { assert f[|f| - 1] == x[|x| - 1] && x[|x| - 1] in x; }
    assert Replace(f, "*", "") == x by {
      ReplaceCharConcat("*", x, '*', "");
      StarFree(x);
      assert Replace("*", "*", "") == "";
    }
  }

  /** `x*` matches exactly the values starting with `x`, ignoring case. */
  lemma {:induction false} MatchFilterPrefix(value: string, x: string)
    requires '*' !in x && x != []
    ensures MatchFilter(value, x + "*") <==> StartsWith(ToUpper(value), ToUpper(x))
  {
    var f := x + "*";
    assert !IsNullOrWhiteSpace(f) by { assert !IsWhiteSpace(f[|f| - 1]); }
    assert !StartsWith(f, "*") by { assert f[0] == x[0] && x[0] in x; }
    assert EndsWith(f, "*");
    assert Replace(f, "*", "") == x by {
      ReplaceCharConcat(x, "*", '*', "");
      StarFree(x);
      assert Replace("*", "*", "") == "";
      assert x + "" == x;
    }
  }

  /** A filter without stars must equal the value, ignoring case. */
  lemma {:induction false} MatchFilterExact(value: string, x: string)
    requires '*' !in x && !IsNullOrWhiteSpace(x)
    ensures MatchFilter(value, x) <==> EqualsIgnoreCase(value, x)
  {
    assert !StartsWith(x, "*") by { assert x[0] in x; }
    assert !EndsWith(x, "*") by { assert x[|x| - 1] in x; }
    StarFree(x);
  }

  /** Stars inside the filter are removed too: `a*b` is an exact match of `ab`. */
  lemma {:induction false} MatchFilterInteriorStar(value: string, a: string, b: string)
    requires '*' !in a && '*' !in b && a != [] && b != []
    ensures MatchFilter(value, a + "*" + b) <==> EqualsIgnoreCase(value, a + b)
  {
    var f := a + "*" + b;
    assert !IsNullOrWhiteSpace(f) by { assert f[|a|] == '*' && !IsWhiteSpace(f[|a|]); }
    assert !StartsWith(f, "*") by { assert f[0] == a[0] && a[0] in a; }
    assert !EndsWith(f, "*") by { assert f[|f| - 1] == b[|b| - 1] && b[|b| - 1] in b; }
    assert Replace(f, "*", "") == a + b by {
      ReplaceCharConcat(a + "*", b, '*', "");
      ReplaceCharConcat(a, "*", '*', "");
      StarFree(a);
      StarFree(b);
      assert Replace("*", "*", "") == "";
      assert a + "" == a;
    }
  }

  /** Stars are stripped wherever they stand. */
  lemma {:induction false} StarRemoval(a: string, x: string, b: string)
    requires '*' !in a && '*' !in x && '*' !in b
    ensures Replace(a + "*" + x + "*" + b, "*", "") == a + x + b
  {
    assert Replace("*", "*", "") == "";
    StarFree(a);
    StarFree(x);
    StarFree(b);
    ReplaceCharConcat(a + "*" + x + "*", b, '*', "");
    ReplaceCharConcat(a + "*" + x, "*", '*', "");
    ReplaceCharConcat(a + "*", x, '*', "");
    ReplaceCharConcat(a, "*", '*', "");
  }

  /** `ChangeFirstChart`: changes the case of the first character only. */
  function ChangeFirstChar(value: string, upper: bool): (r: string)
    ensures |r| == |value|
    ensures forall k | 0 < k < |value| :: r[k] == value[k]
    ensures value != [] ==> r[0] == (if upper then ToUpperChar(value[0]) else ToLowerChar(value[0]))
  {
    if value == [] then value
    else if upper then [ToUpperChar(value[0])] + value[1..]
    else [ToLowerChar(value[0])] + value[1..]
  }

  /** `FirstChatToUpper` in the source. */
  function FirstCharToUpper(value: string): (r: string)
    ensures |r| == |value|
    ensures forall k | 0 < k < |value| :: r[k] == value[k]
    ensures value != [] ==> !('a' <= r[0] <= 'z')
    ensures value != [] ==> (IsDigit(r[0]) <==> IsDigit(value[0]))
    ensures value != [] ==> (IsWhiteSpace(r[0]) <==> IsWhiteSpace(value[0]))
  {
    ChangeFirstChar(value, true)
  }

  function FirstCharToLower(value: string): (r: string)
    ensures |r| == |value|
    ensures forall k | 0 < k < |value| :: r[k] == value[k]
    ensures value != [] ==> !('A' <= r[0] <= 'Z')
  {
    ChangeFirstChar(value, false)
  }

  lemma {:induction false} FirstCharToUpperIdempotent(value: string)
    ensures FirstCharToUpper(FirstCharToUpper(value)) == FirstCharToUpper(value)
  {
  }

  lemma {:induction false} FirstCharToLowerIdempotent(value: string)
    ensures FirstCharToLower(FirstCharToLower(value)) == FirstCharToLower(value)
  {
  }

  /** Upper-casing the first character neither adds nor removes a character that is not an ASCII letter. */
  lemma {:induction false} FirstCharToUpperKeeps(value: string, c: char)
    requires !IsAsciiLetter(c)
    ensures c in value <==> c in FirstCharToUpper(value)
  {
    var r := FirstCharToUpper(value);
    if c in value {
      var k :| 0 <= k < |value| && value[k] == c;
      assert r[k] == c;
    }
    if c in r {
      var k :| 0 <= k < |r| && r[k] == c;
      assert value[k] == c;
    }
  }

  /**
   * `StartsWithNumber`: false for a blank text, else whether `int.TryParse`
   * accepts the first character, i.e. whether it is a decimal digit.
   */
  function StartsWithNumber(value: string): (r: bool)
    ensures r <==> value != [] && IsDigit(value[0])
  {
    !IsNullOrWhiteSpace(value) && IsDigit(value[0])
  }
}
