/**
 * The normalisation both generation handlers apply to the model's text:
 * trim, strip a leading ```html fence, then a leading ``` fence, then a
 * trailing ``` fence, and prepend a DOCTYPE unless the text already starts
 * with one. The two handlers carry identical copies of this pipeline.
 */
module Cleaning {
  import opened Strings

  const HtmlFence := "```html"
  const Fence := "```"
  /** The preamble prepended to a document that lacks one. */
  const Doctype := "<!DOCTYPE html>\n"
  /** Lower-case markers searched for in the lower-cased text. */
  const DoctypeMarker := "<!doctype"
  const HtmlMarker := "<html"

  /** `.replace(/^```html\s*\/i, '')`: the first seven characters match
    * ```html ignoring ASCII case, and the white space after them goes too. */
  function StripHtmlFence(s: string): (r: string)
    ensures !StartsWithLower(s, HtmlFence) ==> r == s
    ensures StartsWithLower(s, HtmlFence) ==> TrimmedSuffix(s, |HtmlFence|, r)
  {
    if StartsWithLower(s, HtmlFence) then
      DropThenTrim(s, |HtmlFence|);
      TrimStart(s[|HtmlFence|..])
    else s
  }

  /** `.replace(/^```\s*\/i, '')`. */
  function StripFence(s: string): (r: string)
    ensures !StartsWith(s, Fence) ==> r == s
    ensures StartsWith(s, Fence) ==> TrimmedSuffix(s, |Fence|, r)
  {
    if StartsWith(s, Fence) then
      DropThenTrim(s, |Fence|);
      TrimStart(s[|Fence|..])
    else s
  }

  /** `.replace(/\s*```$/i, '')`: the leftmost match ends at the end of the
    * text, so it takes the closing fence and all white space before it. */
  function StripClosingFence(s: string): (r: string)
    ensures !EndsWith(s, Fence) ==> r == s
    ensures EndsWith(s, Fence) ==>
              |r| <= |s| - |Fence| && r == s[..|r|]
              && (forall i :: |r| <= i < |s| - |Fence| ==> IsSpace(s[i]))
              && (r == [] || !IsSpace(r[|r| - 1]))
  {
    if EndsWith(s, Fence) then
      var t := s[..|s| - |Fence|];
      assert forall i :: 0 <= i < |t| ==> s[i] == t[i];
      TrimEnd(t)
    else s
  }

  /** The value of `clean` after its initialising expression. */
  function Clean(text: string): (r: string)
    ensures IsTrimmed(r) && |r| <= |text|
  {
    OpeningStripsKeepEnd(Trim(text));
    StripClosingFence(StripFence(StripHtmlFence(Trim(text))))
  }

  /** `clean.toLowerCase().startsWith('<!doctype')`. */
  predicate StartsWithDoctype(s: string)
    ensures StartsWithDoctype(s) ==> |s| >= |DoctypeMarker| && s[0] == '<'
  {
    if s == [] then false
    else
      LowerFixed(s[0]);
      StartsWithLower(s, DoctypeMarker)
  }

  /** The character-wise test is the source's test on the lower-cased text. */
  lemma DoctypeTestIsLowerPrefix(s: string)
    ensures StartsWithDoctype(s) <==> StartsWith(ToLower(s), DoctypeMarker)
  {
    StartsWithLowerIsStartsWith(s, DoctypeMarker);
  }

  /** `clean.toLowerCase()` includes '<!doctype' or '<html'. */
  predicate HasMarker(s: string)
    ensures StartsWithDoctype(s) ==> HasMarker(s)
  {
    DoctypeTestIsLowerPrefix(s);
    Includes(ToLower(s), DoctypeMarker) || Includes(ToLower(s), HtmlMarker)
  }

  /** The conditional reassignment that prepends the preamble. */
  function EnsureDoctype(s: string): (r: string)
    ensures StartsWithDoctype(r)
    ensures r == s <==> StartsWithDoctype(s)
    ensures r == s || r == Doctype + s
  {
    if StartsWithDoctype(s) then s else Doctype + s
  }

  /** Both handlers' pipeline, cleaning followed by the DOCTYPE step. */
  function Normalize(text: string): (r: string)
    ensures StartsWithDoctype(r) && HasMarker(r)
    ensures r == Clean(text) <==> StartsWithDoctype(Clean(text))
    ensures r == Clean(text) || r == Doctype + Clean(text)
  {
    EnsureDoctype(Clean(text))
  }

  // ----- Single stages -----

  /** A character whose lower case is a backquote or '<' is that character. */
  lemma LowerFixed(c: char)
    ensures LowerChar(c) == '`' ==> c == '`'
    ensures LowerChar(c) == '<' ==> c == '<'
    ensures IsSpace(c) ==> LowerChar(c) == c
  {
  }

  /** A text that opens with ```html in any case opens with ```. */
  lemma HtmlFenceIsFence(s: string)
    ensures StartsWithLower(s, HtmlFence) ==> StartsWith(s, Fence)
  {
    if StartsWithLower(s, HtmlFence) {
      forall i | 0 <= i < 3 ensures s[i] == '`' {
        LowerFixed(s[i]);
      }
    }
  }

  /** A text that starts with '<' (in any case) has no opening fence. */
  lemma NoOpeningFence(s: string)
    requires |s| > 0 && LowerChar(s[0]) == '<'
    ensures StripHtmlFence(s) == s && StripFence(s) == s
  {
    LowerFixed(s[0]);
  }

  /** Stripping the opening fences keeps a text free of trailing space. */
  lemma OpeningStripsKeepEnd(s: string)
    requires IsTrimmed(s)
    ensures IsTrimmed(StripHtmlFence(s))
    ensures IsTrimmed(StripFence(StripHtmlFence(s)))
  {
  }

  // ----- Properties of the pipeline -----

  /** Text with no fence at either end after trimming is only trimmed. */
  lemma CleanUnfenced(text: string)
    requires !StartsWith(Trim(text), Fence) && !EndsWith(Trim(text), Fence)
    ensures Clean(text) == Trim(text)
  {
    HtmlFenceIsFence(Trim(text));
  }

  /** After a bare ``` fence: the white space after it goes too. */
  lemma AfterPlainFence(w2: string, inner: string)
    requires AllSpace(w2) && |inner| > 0 && inner[0] == '<'
    ensures StripFence(StripHtmlFence(Fence + w2 + inner)) == inner
  {
    var s := Fence + w2 + inner;
    assert s[3] == (if w2 == [] then inner[0] else w2[0]);
    LowerFixed(s[3]);
    assert !StartsWithLower(s, HtmlFence);
    assert s[..3] == Fence;
    assert s[3..] == w2 + inner;
    TrimStartPadded(w2, inner);
  }

  /** After a ```html fence in any case: the white space after it goes too. */
  lemma AfterHtmlFence(opening: string, w2: string, inner: string)
    requires AllSpace(w2) && |inner| > 0 && inner[0] == '<'
    requires |opening| == |HtmlFence| && StartsWithLower(opening, HtmlFence)
    ensures StripFence(StripHtmlFence(opening + w2 + inner)) == inner
  {
    var s := opening + w2 + inner;
    assert StartsWithLower(s, HtmlFence);
    assert s[7..] == w2 + inner;
    TrimStartPadded(w2, inner);
    NoOpeningFence(inner);
  }

  /** The closing fence goes together with the white space before it. */
  lemma AfterClosingFence(doc: string, w3: string)
    requires AllSpace(w3) && |doc| > 0 && !IsSpace(doc[|doc| - 1])
    ensures StripClosingFence(doc + w3 + Fence) == doc
  {
    var s := doc + w3 + Fence;
    assert s[..|s| - 3] == doc + w3;
    assert s[|s| - 3..] == Fence;
    TrimEndPadded(doc, w3);
  }

  /** A fenced answer, with any white space around and inside the fences,
    * cleans to exactly the document between them. The opening fence is
    * ``` alone or ```html in any letter case. */
  lemma CleanFenced(w1: string, opening: string, w2: string, doc: string, w3: string, w4: string)
    requires AllSpace(w1) && AllSpace(w2) && AllSpace(w3) && AllSpace(w4)
    requires opening == Fence || (|opening| == |HtmlFence| && StartsWithLower(opening, HtmlFence))
    requires |doc| > 0 && doc[0] == '<' && !IsSpace(doc[|doc| - 1])
    ensures Clean(w1 + opening + w2 + doc + w3 + Fence + w4) == doc
  {
    var inner := doc + w3 + Fence;
    var core := opening + w2 + inner;
    assert w1 + opening + w2 + doc + w3 + Fence + w4 == w1 + core + w4;
    assert opening[0] == '`' by { LowerFixed(opening[0]); }
    assert IsTrimmed(core);
    TrimPadded(w1, core, w4);
    if opening == Fence {
      AfterPlainFence(w2, inner);
    } else {
      AfterHtmlFence(opening, w2, inner);
    }
    AfterClosingFence(doc, w3);
  }

  /** A document that already opens with a DOCTYPE and does not end with a
    * fence comes out of the whole pipeline only trimmed. */
  lemma NormalizeDoctypeTrimmedOnly(text: string)
    requires StartsWithDoctype(Trim(text)) && !EndsWith(Trim(text), Fence)
    ensures Normalize(text) == Trim(text)
  {
    var t := Trim(text);
    assert LowerChar(t[0]) == '<';
    LowerFixed(t[0]);
    assert t[..|Fence|][0] != Fence[0];
    CleanUnfenced(text);
  }

  /** The pipeline leaves a preamble-led, non-empty, trimmed text that does
    * not end with a fence as it is. */
  lemma NormalizeFixed(p: string)
    requires StartsWithDoctype(p) && IsTrimmed(p) && !EndsWith(p, Fence)
    ensures Normalize(p) == p
  {
    TrimPadded([], p, []);
    assert [] + p + [] == p;
    NoOpeningFence(p);
  }

  /** Prepending the preamble to a short text cannot create a closing fence. */
  lemma PreambleNoFence(c: string)
    requires !EndsWith(c, Fence)
    ensures !EndsWith(Doctype + c, Fence)
  {
    var p := Doctype + c;
    if |c| >= 3 {
      assert p[|p| - 3..] == c[|c| - 3..];
    } else {
      assert p[|p| - 3..][0] == (if |c| == 1 then '>' else if |c| == 2 then '\n' else 'l');
    }
  }

  /**
   * Running the pipeline again on its own output changes nothing, as long as
   * the cleaned text is not empty and does not itself end with a fence.
   */
  lemma NormalizeIdempotent(text: string)
    requires Clean(text) != [] && !EndsWith(Clean(text), Fence)
    ensures Normalize(Normalize(text)) == Normalize(text)
  {
    var c := Clean(text);
    if StartsWithDoctype(c) {
      assert Normalize(text) == c;
      NormalizeFixed(c);
    } else {
      assert Normalize(text) == Doctype + c;
      PreambleKeepsEnd(c);
      NormalizeFixed(Doctype + c);
    }
  }

  /** Prepending the preamble to a non-empty trimmed text that does not end
    * with a fence keeps both properties. */
  lemma PreambleKeepsEnd(c: string)
    requires c != [] && IsTrimmed(c) && !EndsWith(c, Fence)
    ensures IsTrimmed(Doctype + c) && !EndsWith(Doctype + c, Fence)
  {
    var p := Doctype + c;
    PreambleNoFence(c);
    assert p[0] == '<';
    assert p[|p| - 1] == c[|c| - 1];
  }


  /** The preamble's first line. */
  const DoctypeLine := "<!DOCTYPE html>"

  /** The preamble's first line is trimmed, starts with the marker and does
    * not end with a fence. */
  lemma DoctypeLineFixed()
    ensures IsTrimmed(DoctypeLine) && StartsWithDoctype(DoctypeLine)
    ensures !EndsWith(DoctypeLine, Fence)
  {
    var d := DoctypeLine;
    forall i | 0 <= i < |DoctypeMarker| ensures LowerChar(d[i]) == DoctypeMarker[i] {
      assert d[..9] == "<!DOCTYPE";
      assert d[i] == "<!DOCTYPE"[i];
    }
    assert d[|d| - 3..] == "ml>";
  }

  /** The preamble trims to its first line. */
  lemma TrimDoctype()
    ensures Trim(Doctype) == DoctypeLine
  {
    DoctypeLineFixed();
    assert Doctype == [] + DoctypeLine + "\n";
    TrimPadded([], DoctypeLine, "\n");
  }

  /** The preamble trims to its first line, which the pipeline then keeps. */
  lemma NormalizePreamble()
    ensures Normalize(Doctype) == DoctypeLine
  {
    TrimDoctype();
    DoctypeLineFixed();
    NormalizeDoctypeTrimmedOnly(Doctype);
  }

  /** The pipeline's output for an answer that cleans to nothing,
    * "<!DOCTYPE html>\n", is trimmed to a different text when the pipeline
    * runs on it again. */
  lemma NormalizeNotIdempotentOnEmpty(text: string)
    requires Clean(text) == []
    ensures Normalize(text) == Doctype
    ensures Normalize(Normalize(text)) != Normalize(text)
  {
    NormalizePreamble();
  }

  /** A bare fence is already trimmed, and the fence strip removes it. */
  lemma FenceStrips()
    ensures Trim(Fence) == Fence
    ensures StripHtmlFence(Fence) == Fence && StripFence(Fence) == []
  {
    assert IsTrimmed(Fence) by {
      assert Fence[0] == '`' && Fence[|Fence| - 1] == '`';
    }
    TrimPadded([], Fence, []);
    assert [] + Fence + [] == Fence;
    assert |HtmlFence| > |Fence|;
    assert StartsWith(Fence, Fence);
  }

  /** A bare fence is such an answer: it is a non-empty text the upstream can
    * deliver, and it cleans to nothing. */
  lemma BareFenceCleansToEmpty()
    ensures Clean(Fence) == []
    ensures Normalize(Fence) == Doctype && Normalize(Normalize(Fence)) != Normalize(Fence)
  {
    assert Clean(Fence) == [] by {
      FenceStrips();
    }
    NormalizeNotIdempotentOnEmpty(Fence);
  }

  /** A DOCTYPE-led text that ends with a fence is longer than the marker and
    * the fence together. */
  lemma DoctypeAndFenceApart(p: string)
    requires StartsWithDoctype(p) && EndsWith(p, Fence)
    ensures |p| >= |DoctypeMarker| + |Fence|
  {
    if |p| < 12 {
      var i := |p| - 3;
      LowerFixed(p[i]);
    }
  }

  /** Stripping a closing fence from a DOCTYPE-led text keeps the DOCTYPE. */
  lemma ClosingStripKeepsDoctype(p: string)
    requires StartsWithDoctype(p) && EndsWith(p, Fence)
    ensures StartsWithDoctype(StripClosingFence(p))
    ensures |StripClosingFence(p)| < |p|
  {
    DoctypeAndFenceApart(p);
    var h := p[..|p| - 3];
    var q := TrimEnd(h);
    assert LowerChar(h[8]) == 'e';
    assert !IsSpace(h[8]);
    assert |q| > 8;
    assert forall i :: 0 <= i < 9 ==> q[i] == h[i] == p[i];
  }

  /** A trimmed DOCTYPE-led text ending with a fence is shortened by the
    * pipeline. */
  lemma NormalizeShortensFenced(p: string)
    requires StartsWithDoctype(p) && IsTrimmed(p) && EndsWith(p, Fence)
    ensures |Normalize(p)| < |p|
  {
    assert p[0] == '<' by {
      LowerFixed(p[0]);
    }
    TrimPadded([], p, []);
    assert [] + p + [] == p;
    NoOpeningFence(p);
    assert Clean(p) == StripClosingFence(p);
    ClosingStripKeepsDoctype(p);
  }

  /**
   * The converse: when the cleaned text ends with a fence (for instance an
   * answer ending in two fences), running the pipeline again strips it and
   * yields a shorter text.
   */
  lemma NormalizeNotIdempotentOnFence(text: string)
    requires EndsWith(Clean(text), Fence)
    ensures |Normalize(Normalize(text))| < |Normalize(text)|
  {
    FencedOutput(text);
    NormalizeShortensFenced(Normalize(text));
  }

  /** When the cleaned text ends with a fence, so does the pipeline's output,
    * which is then a trimmed, DOCTYPE-led text. */
  lemma FencedOutput(text: string)
    requires EndsWith(Clean(text), Fence)
    ensures StartsWithDoctype(Normalize(text)) && IsTrimmed(Normalize(text)) && EndsWith(Normalize(text), Fence)
  {
    var c := Clean(text);
    if !StartsWithDoctype(c) {
      PreambleKeepsFence(c);
    }
  }

  /** Prepending the preamble to a trimmed text that ends with a fence keeps
    * it trimmed and ending with that fence. */
  lemma PreambleKeepsFence(c: string)
    requires IsTrimmed(c) && EndsWith(c, Fence)
    ensures IsTrimmed(Doctype + c) && EndsWith(Doctype + c, Fence)
  {
    var p := Doctype + c;
    assert p[0] == '<';
    assert p[|p| - 1] == c[|c| - 1];
    assert p[|p| - 3..] == c[|c| - 3..];
  }
}
