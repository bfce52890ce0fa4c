/**
 * `FinalizeTemplate` of `ClassManager.cs`: binds `$KEY$` placeholders into the
 * lines of a template and joins the surviving lines with line breaks.
 */
module TemplateRenderer {
  import opened Strings
  import opened Wrappers
  import opened InternalRecords
  import ClassManagerHelper

  /** The placeholder a binding fills: its key, upper-cased, between two `$`. */
  function Token(key: string): (t: string)
    ensures |t| == |key| + 2 && t[0] == '$' && t[|t| - 1] == '$'
    ensures t[1..|t| - 1] == ToUpper(key)
  {
    "$" + ToUpper(key) + "$"
  }

  /** Every line prefixed with one indentation unit. */
  function Indented(lines: seq<string>): (r: seq<string>)
    ensures |r| == |lines|
    ensures forall k | 0 <= k < |r| :: r[k] == ClassManagerHelper.Tab + lines[k]
  {
    seq(|lines|, k requires 0 <= k < |lines| => ClassManagerHelper.Tab + lines[k])
  }

  /**
   * The text that takes the place of a binding's token: the value itself, or,
   * for an indented binding, each of its lines indented and re-joined.
   */
  function BoundText(b: Replacement): string {
    if b.indent then Join(Indented(Split(b.value, NewLineChar)), NewLine) else b.value
  }

  /** The bindings applied to a line one after the other, in list order. */
  function Substitute(line: string, bindings: seq<Replacement>): string
    decreases |bindings|
  {
    if bindings == [] then line
    else
      var b := bindings[|bindings| - 1];
      Replace(Substitute(line, bindings[..|bindings| - 1]), Token(b.key), BoundText(b))
  }

  /**
   * What one template line turns into: a line without `$` is kept as it is;
   * any other line is substituted and dropped (`None`) when blank afterwards.
   */
  function RenderLine(line: string, bindings: seq<Replacement>): Option<string> {
    if '$' !in line then Some(line)
    else
      var t := Substitute(line, bindings);
      if IsNullOrWhiteSpace(t) then None else Some(t)
  }

  /** The text line `i` contributes: its rendering, with a line break unless it is the template's last line. */
  function Piece(content: seq<string>, bindings: seq<Replacement>, i: nat): string
    requires i < |content|
  {
    match RenderLine(content[i], bindings)
    case None => ""
    case Some(t) => if i + 1 == |content| then t else t + NewLine
  }

  /** The text of the first `n` template lines. */
  function Rendered(content: seq<string>, bindings: seq<Replacement>, n: nat): string
    requires n <= |content|
  {
    if n == 0 then "" else Rendered(content, bindings, n - 1) + Piece(content, bindings, n - 1)
  }

  /** The rendered template, followed by one more line break when an empty line is asked for. */
  function Finalize(content: seq<string>, bindings: seq<Replacement>, addEmptyLine: bool): string {
    Rendered(content, bindings, |content|) + (if addEmptyLine then NewLine else "")
  }

  /** `Finalize` with the empty line is `Finalize` without it plus one line break. */
  lemma FinalizeEmptyLine(content: seq<string>, bindings: seq<Replacement>, addEmptyLine: bool)
    ensures Finalize(content, bindings, addEmptyLine)
            == Finalize(content, bindings, false) + (if addEmptyLine then NewLine else "")
  {
  }

  /** `FinalizeTemplate`: the line loop with its inner loop over the bindings. */
  method FinalizeTemplate(content: seq<string>, replaceList: seq<Replacement>, addEmptyLine: bool)
    returns (text: string)
    ensures text == Finalize(content, replaceList, addEmptyLine)
  {
    var sb := "";
    for i := 0 to |content|
      invariant sb == Rendered(content, replaceList, i)
    {
      var line := content[i];
      assert Rendered(content, replaceList, i + 1) == sb + Piece(content, replaceList, i);
      if '$' !in line {
        assert RenderLine(line, replaceList) == Some(line);
        if i + 1 == |content| {
          sb := sb + line;
        } else {
          sb := sb + (line + NewLine);
        }
        continue;
      }
      var tmpLine := line;
      for j := 0 to |replaceList|
        invariant tmpLine == Substitute(line, replaceList[..j])
      {
        SubstituteOneMore(line, replaceList, j);
        var replacement := replaceList[j];
        var key := Token(replacement.key);
        if !replacement.indent {
          tmpLine := Replace(tmpLine, key, replacement.value);
          continue;
        }
        var tmpValue := Indented(Split(replacement.value, NewLineChar));
        tmpLine := Replace(tmpLine, key, Join(tmpValue, NewLine));
      }
      assert replaceList[..|replaceList|] == replaceList;
      if IsNullOrWhiteSpace(tmpLine) {
        assert RenderLine(line, replaceList) == None;
        continue;
      }
      assert RenderLine(line, replaceList) == Some(tmpLine);
      if i + 1 == |content| {
        sb := sb + tmpLine;
      } else {
        sb := sb + (tmpLine + NewLine);
      }
    }
    if addEmptyLine {
      sb := sb + NewLine;
    }
    text := sb;
  }

  /** One more binding replaces its token in the line the earlier bindings produced. */
  lemma SubstituteOneMore(line: string, bindings: seq<Replacement>, j: nat)
    requires j < |bindings|
    ensures Substitute(line, bindings[..j + 1])
            == Replace(Substitute(line, bindings[..j]), Token(bindings[j].key), BoundText(bindings[j]))
  {
    assert bindings[..j + 1][..j] == bindings[..j];
  }

  // ---------------------------------------------------------------- the line rules

  /** The surviving rendering of one line, as a list of zero or one lines. */
  function KeptLine(line: string, bindings: seq<Replacement>): (kept: seq<string>)
    ensures |kept| <= 1
  {
    match RenderLine(line, bindings)
    case None => []
    case Some(t) => [t]
  }

  /** The lines that survive rendering, in template order. */
  function KeptLines(lines: seq<string>, bindings: seq<Replacement>): (kept: seq<string>)
    ensures |kept| <= |lines|
    decreases |lines|
  {
    if lines == [] then []
    else KeptLines(lines[..|lines| - 1], bindings) + KeptLine(lines[|lines| - 1], bindings)
  }

  /** No surviving line is blank unless the template line was blank and held no `$`. */
  lemma {:induction false} KeptLinesNotBlank(lines: seq<string>, bindings: seq<Replacement>, k: nat)
    requires k < |KeptLines(lines, bindings)|
    ensures IsNullOrWhiteSpace(KeptLines(lines, bindings)[k]) ==> KeptLines(lines, bindings)[k] in lines
    decreases |lines|
  {
    var init := KeptLines(lines[..|lines| - 1], bindings);
    var line := lines[|lines| - 1];
    if k < |init| {
      KeptLinesNotBlank(lines[..|lines| - 1], bindings, k);
      assert KeptLines(lines, bindings)[k] == init[k];
      assert forall x | x in lines[..|lines| - 1] :: x in lines;
    } else {
      assert line in lines;
    }
  }

  /** One more line adds its surviving rendering at the end. */
  lemma KeptLinesSnoc(lines: seq<string>, line: string, bindings: seq<Replacement>)
    ensures KeptLines(lines + [line], bindings) == KeptLines(lines, bindings) + KeptLine(line, bindings)
  {
    assert (lines + [line])[..|lines|] == lines;
  }

  /** A line before the template's last contributes its surviving text followed by a line break. */
  lemma {:induction false} PieceBeforeLast(content: seq<string>, bindings: seq<Replacement>, i: nat)
    requires i + 1 < |content|
    ensures Piece(content, bindings, i) == Terminated(KeptLine(content[i], bindings))
  {
    match RenderLine(content[i], bindings)
    case None =>
    case Some(t) => assert [t][..0] == [];
  }

  /**
   * Every line before the last is written with its line break: the text of
   * the first `n` lines (`n` short of the whole template) is the surviving
   * lines each followed by a line break.
   */
  lemma {:induction false} RenderedPrefix(content: seq<string>, bindings: seq<Replacement>, n: nat)
    requires n < |content|
    ensures Rendered(content, bindings, n) == Terminated(KeptLines(content[..n], bindings))
  {
    if n > 0 {
      var m := n - 1;
      RenderedPrefix(content, bindings, m);
      var init := KeptLines(content[..m], bindings);
      var last := KeptLine(content[m], bindings);
      TakeOneMore(content, m);
      KeptLinesSnoc(content[..m], content[m], bindings);
      PieceBeforeLast(content, bindings, m);
      TerminatedConcat(init, last);
      assert Rendered(content, bindings, n) == Terminated(init) + Terminated(last);
    }
  }

  /**
   * The rendered text is the surviving lines joined by line breaks. When the
   * template's last line survives it carries no line break; when it is
   * dropped, the line before it keeps the break it was written with. An empty
   * line asked for adds exactly one more line break.
   */
  lemma {:induction false} FinalizeShape(content: seq<string>, bindings: seq<Replacement>)
    requires content != []
    ensures var kept := KeptLines(content, bindings);
            RenderLine(content[|content| - 1], bindings).Some? ==>
              Finalize(content, bindings, false) == Join(kept, NewLine)
    ensures var kept := KeptLines(content, bindings);
            RenderLine(content[|content| - 1], bindings).None? ==>
              Finalize(content, bindings, false) == Terminated(kept)
    ensures Finalize(content, bindings, true) == Finalize(content, bindings, false) + NewLine
  {
    var n := |content| - 1;
    RenderedPrefix(content, bindings, n);
    var init := KeptLines(content[..n], bindings);
    assert content[..|content|] == content;
    assert Rendered(content, bindings, |content|) == Terminated(init) + Piece(content, bindings, n);
    match RenderLine(content[n], bindings)
    case None =>
      assert KeptLines(content, bindings) == init;
    case Some(t) =>
      assert KeptLines(content, bindings) == init + [t];
      if init == [] {
        assert Terminated(init) == "";
        assert Join([t], NewLine) == t;
        assert [] + [t] == [t];
      } else {
        TerminatedIsJoin(init);
        JoinSnoc(init, t, NewLine);
      }
  }

  /** A template line without `$` reaches the output exactly as written. */
  lemma {:induction false} VerbatimLine(content: seq<string>, bindings: seq<Replacement>, i: nat)
    requires i < |content| && '$' !in content[i]
    ensures Piece(content, bindings, i) == if i + 1 == |content| then content[i] else content[i] + NewLine
  {
  }

  /** A line left blank by the substitution contributes nothing at all. */
  lemma {:induction false} BlankLineDropped(content: seq<string>, bindings: seq<Replacement>, i: nat)
    requires i < |content| && '$' in content[i]
    requires IsNullOrWhiteSpace(Substitute(content[i], bindings))
    ensures Piece(content, bindings, i) == ""
  {
  }

  // ---------------------------------------------------------------- the bindings

  /**
   * A plain binding replaces every occurrence of its token: a line made of
   * `$`-free pieces around the token comes out as the pieces around the value.
   */
  lemma {:induction false} BindingReplacesEveryToken(parts: seq<string>, key: string, value: string)
    requires forall k | 0 <= k < |parts| :: '$' !in parts[k]
    ensures Substitute(Join(parts, Token(key)), [Replacement(key, value, false)]) == Join(parts, value)
  {
    var b := Replacement(key, value, false);
    assert [b][..0] == [];
    ReplaceJoin(parts, Token(key), value);
  }

  /**
   * An indented binding whose value has several lines puts each of them,
   * prefixed with four spaces, on a line of its own.
   */
  lemma {:induction false} IndentedBindingLines(key: string, segments: seq<string>)
    requires segments != []
    requires forall k | 0 <= k < |segments| :: NewLineChar !in segments[k]
    ensures BoundText(Replacement(key, Join(segments, NewLine), true)) == Join(Indented(segments), NewLine)
  {
    SplitJoin(segments, NewLineChar);
  }

  /** A line holding only a placeholder that is bound to the empty text disappears from the output. */
  lemma {:induction false} EmptyPlaceholderLineDropped(key: string)
    ensures RenderLine(Token(key), [Replacement(key, "", false)]).None?
  {
    var b := Replacement(key, "", false);
    var t := Token(key);
    assert [b][..0] == [];
    assert Substitute(t, [b]) == Replace(t, t, "");
    assert '$' in t by { assert t[0] == '$'; }
    assert t[|t|..] == [];
    assert Replace([], t, "") == [];
    assert Replace(t, t, "") == "";
  }

  /**
   * Two segments in an indented value become two output lines: a template made
   * of that single placeholder line renders to the two indented segments.
   */
  lemma {:induction false} TwoSegmentsTwoLines(key: string, first: string, second: string)
    requires NewLineChar !in first && NewLineChar !in second
    requires '$' !in first && '$' !in second
    requires !IsNullOrWhiteSpace(first)
    ensures Finalize([Token(key)], [Replacement(key, first + NewLine + second, true)], false)
            == ClassManagerHelper.Tab + first + NewLine + ClassManagerHelper.Tab + second
  {
    var b := Replacement(key, first + NewLine + second, true);
    var t := Token(key);
    assert Join([first, second], NewLine) == first + NewLine + second by {
      assert [first, second][1..] == [second];
    }
    IndentedBindingLines(key, [first, second]);
    var text := ClassManagerHelper.Tab + first + NewLine + ClassManagerHelper.Tab + second;
    assert Join(Indented([first, second]), NewLine) == text by {
      assert Indented([first, second])[1..] == [ClassManagerHelper.Tab + second];
    }
    assert [b][..0] == [];
    assert t[|t|..] == [];
    assert Substitute(t, [b]) == text by {
      assert Replace(t, t, text) == text + Replace([], t, text);
    }
    assert !IsNullOrWhiteSpace(text) by {
      var k :| 0 <= k < |first| && !IsWhiteSpace(first[k]);
      assert text[|ClassManagerHelper.Tab| + k] == first[k];
    }
    assert '$' in t by { assert t[0] == '$'; }
    assert RenderLine(t, [b]) == Some(text);
    assert Piece([t], [b], 0) == text;
    assert Rendered([t], [b], 1) == "" + text;
  }
}
