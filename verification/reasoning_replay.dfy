/**
 * Reasoning is replayed to OpenAI-compatible providers inside <think> tags
 * (core/anthropic/conversion.py) and read back by the tag parser (core/anthropic/thinking.py).
 * The two agree exactly when no tag hides in the content.
 */
module ReasoningReplay {
  import opened Text
  import opened ThinkParser

  function ThinkTagContent(reasoning: string): string {
    "<think>\n" + reasoning + "\n</think>"
  }

  /** A closing tag costs its eight characters wherever it stands. */
  lemma {:induction false} ClosingTagIsRemoved(s: string, inside: bool, k: int)
    requires OccursAt(s, CLOSE_TAG, k)
    ensures |Labelling(s, inside)| <= |s| - 8
    decreases |s|
  {
    Begins(s, CLOSE_TAG);
    Begins(s, OPEN_TAG);
    if StartsWith(s, CLOSE_TAG) {
      LabellingIsShort(s[8..], false);
    } else if !inside && StartsWith(s, OPEN_TAG) {
      TagsDoNotOverlap(s, k);
      assert s[7..][k - 7..k - 7 + 8] == s[k..k + 8];
      ClosingTagIsRemoved(s[7..], true, k - 7);
    } else {
      OccursShift(s, k - 1, CLOSE_TAG);
      ClosingTagIsRemoved(s[1..], inside, k - 1);
    }
  }

  lemma TagsDoNotOverlap(s: string, k: int)
    requires StartsWith(s, OPEN_TAG) && OccursAt(s, CLOSE_TAG, k)
    ensures k >= 7
  {
    assert s[k..k + 8][0] == s[k] && s[k..k + 8][1] == s[k + 1];
    assert s[0] == s[..7][0] && s[1] == s[..7][1];
    if 0 < k < 7 {
      assert s[k] == s[..7][k];
      BracketOnlyFirst(OPEN_TAG, k);
    }
  }

  lemma {:induction false} LabellingIsShort(s: string, inside: bool)
    ensures |Labelling(s, inside)| <= |s|
    decreases |s|
  {
    if s != "" {
      if StartsWith(s, CLOSE_TAG) {
        LabellingIsShort(s[8..], false);
      } else if !inside && StartsWith(s, OPEN_TAG) {
        LabellingIsShort(s[7..], true);
      } else {
        LabellingIsShort(s[1..], inside);
      }
    }
  }

  lemma {:induction false} AnyTagShortens(s: string, k: int)
    requires TagAt(s, k, false)
    ensures |Labelling(s, false)| < |s|
    decreases |s|
  {
    Begins(s, CLOSE_TAG);
    Begins(s, OPEN_TAG);
    if StartsWith(s, CLOSE_TAG) {
      LabellingIsShort(s[8..], false);
    } else if StartsWith(s, OPEN_TAG) {
      LabellingIsShort(s[7..], true);
    } else {
      TagAtShift(s, k - 1, false);
      AnyTagShortens(s[1..], k - 1);
    }
  }

  /** The labelling of a rendered text, up to the point where the rendering's own closing tag is reached. */
  lemma AfterOpening(body: string, text: string)
    ensures Labelling(OPEN_TAG + body + CLOSE_TAG + text, false) == Labelling(body + (CLOSE_TAG + text), true)
  {
    var s := OPEN_TAG + body + CLOSE_TAG + text;
    assert s[..7] == OPEN_TAG;
    assert s[7..] == body + (CLOSE_TAG + text);
    assert s[1] == 't';
    if |s| >= 8 {
      assert s[..8][1] == 't' && CLOSE_TAG[1] == '/';
    }
  }

  /** A closing tag in a body that ends with a newline lies inside the body. */
  lemma NoTagAcrossNewline(body: string, text: string, k: int)
    requires body != "" && body[|body| - 1] == '\n'
    requires 0 <= k < |body| && OccursAt(body + (CLOSE_TAG + text), CLOSE_TAG, k)
    ensures OccursAt(body, CLOSE_TAG, k)
  {
    var t := CLOSE_TAG + text;
    if !OccursAt(body, CLOSE_TAG, k) {
      Straddles(body, t, CLOSE_TAG, k);
      NoNewline(|body| - 1 - k);
    }
  }

  lemma NoNewline(j: int)
    requires 0 <= j < |CLOSE_TAG|
    ensures CLOSE_TAG[j] != '\n'
  {
  }

  lemma InnerTag(reasoning: string, k: int)
    requires OccursAt("\n" + reasoning + "\n", CLOSE_TAG, k)
    ensures OccursAt(reasoning, CLOSE_TAG, k - 1)
  {
    var body := "\n" + reasoning + "\n";
    assert body[k..k + 8][0] == body[k] && body[k..k + 8][7] == body[k + 7];
    assert body[0] == '\n' && body[|body| - 1] == '\n';
    assert body[k..k + 8] == reasoning[k - 1..k + 7];
  }

  lemma OuterTag(reasoning: string, k: int)
    requires OccursAt(reasoning, CLOSE_TAG, k)
    ensures OccursAt("\n" + reasoning + "\n", CLOSE_TAG, k + 1)
  {
    var body := "\n" + reasoning + "\n";
    assert body[k + 1..k + 9] == reasoning[k..k + 8];
  }

  ghost predicate ReadsBack(reasoning: string, text: string) {
    Labelling(ThinkTagContent(reasoning) + text, false) == Label("\n" + reasoning + "\n", THINKING) + Label(text, TEXT)
  }

  lemma ClosingTag(t: string)
    ensures Labelling(CLOSE_TAG + t, true) == Labelling(t, false)
  {
    assert (CLOSE_TAG + t)[..8] == CLOSE_TAG && (CLOSE_TAG + t)[8..] == t;
  }

  /** A body without a closing tag is all thinking, and the text is read after it. */
  lemma CleanBody(reasoning: string, text: string)
    requires !Contains(reasoning, CLOSE_TAG)
    ensures Labelling(ThinkTagContent(reasoning) + text, false) ==
              Label("\n" + reasoning + "\n", THINKING) + Labelling(text, false)
  {
    var body, rest := "\n" + reasoning + "\n", CLOSE_TAG + text;
    assert ThinkTagContent(reasoning) + text == OPEN_TAG + body + CLOSE_TAG + text;
    AfterOpening(body, text);
    forall k | 0 <= k < |body| ensures !TagAt(body + rest, k, true) {
      if OccursAt(body + rest, CLOSE_TAG, k) {
        NoTagAcrossNewline(body, text, k);
        InnerTag(reasoning, k);
      }
    }
    PlainText(body, rest, true);
    ClosingTag(text);
  }

  /** A closing tag in the reasoning ends the thinking early, and the rendering's own tag is then an orphan. */
  lemma ClosedEarly(reasoning: string, text: string, j: int)
    requires OccursAt(reasoning, CLOSE_TAG, j)
    ensures |Labelling(ThinkTagContent(reasoning) + text, false)| < |reasoning| + 2 + |text|
  {
    var body, rest := "\n" + reasoning + "\n", CLOSE_TAG + text;
    assert ThinkTagContent(reasoning) + text == OPEN_TAG + body + CLOSE_TAG + text;
    AfterOpening(body, text);
    OuterTag(reasoning, j);
    var k := Find(body, CLOSE_TAG);
    FirstTag(body, rest, k);
    SecondTag(body[k + 8..], text);
  }

  lemma SecondTag(before: string, text: string)
    ensures |Labelling(before + (CLOSE_TAG + text), false)| <= |before| + |text|
  {
    var tail := before + (CLOSE_TAG + text);
    assert tail[|before|..|before| + 8] == CLOSE_TAG;
    ClosingTagIsRemoved(tail, false, |before|);
  }

  lemma FirstTag(body: string, rest: string, k: int)
    requires k == Find(body, CLOSE_TAG) && k >= 0
    ensures |Labelling(body + rest, true)| == k + |Labelling(body[k + 8..] + rest, false)|
  {
    forall m | 0 <= m < k ensures !TagAt(body + rest, m, true) {
      OccursInPrefix(body, rest, CLOSE_TAG, m, k);
    }
    assert body[..k] + (body[k..] + rest) == body + rest;
    PlainText(body[..k], body[k..] + rest, true);
    AtTag(body, rest, k, CLOSE_TAG, true);
  }

  /** Rendered reasoning followed by text is read back as that reasoning and that text iff no tag hides in them. */
  lemma ReplayIsReadBackIff(reasoning: string, text: string)
    ensures ReadsBack(reasoning, text) <==>
              !Contains(reasoning, CLOSE_TAG) && !Contains(text, CLOSE_TAG) && !Contains(text, OPEN_TAG)
  {
    if Contains(reasoning, CLOSE_TAG) {
      var j :| OccursAt(reasoning, CLOSE_TAG, j);
      ClosedEarly(reasoning, text, j);
    } else {
      CleanBody(reasoning, text);
      if Contains(text, CLOSE_TAG) {
        var k :| OccursAt(text, CLOSE_TAG, k);
        AnyTagShortens(text, k);
      } else if Contains(text, OPEN_TAG) {
        var k :| OccursAt(text, OPEN_TAG, k);
        AnyTagShortens(text, k);
      } else {
        assert text + "" == text;
        PlainText(text, "", false);
      }
    }
  }
}
