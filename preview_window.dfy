/** The live preview: the generated code with any markdown fences removed,
    placed in an HTML page that loads React and renders `App` inside a
    sandboxed frame, and the component state that reloads the frame and
    clears its error whenever the code changes. */
module PreviewWindow {
  import opened JsText
  import opened Pattern
  import Sanitizer

  const Fence := "```"
  /** /```(?:javascript|js)?\n?/g : a fence with an optional language tag. */
  const FenceWithLanguage: seq<Atom> := [Lit(Fence), Optional(["javascript", "js"]), Optional(["\n"])]

  const FrameErrorMessage := "Failed to load preview"
  const Sandbox := "allow-scripts"

  /** The page around the code, up to the point where it is inserted inside
      the page's `try` block. The template is written as short literals
      joined with `+`, which the verifier handles cheaply. */
  const HtmlBefore :=
    "\n" +
    "  <!DOCTYPE " + "html>\n" +
    "  <html lang=\"en\">\n" +
    "    <head>\n" +
    "      <meta " + "charset=\"UTF-8\">\n" +
    "      <meta " + "name=\"viewport\" " + "content=\"width=devic" + "e-width, initial-sca" + "le=1.0\">\n" +
    "      <title>Preview" + "</title>\n" +
    "      <style>\n" +
    "        body " + "{\n" +
    "          " + "margin: 0;\n" +
    "          " + "padding: 0;\n" +
    "          " + "font-family: " + "-apple-system, " + "BlinkMacSystemFont, " + "'Segoe UI', " + "'Roboto', " + "'Oxygen', " + "'Ubuntu', " + "'Cantarell', " + "'Fira Sans', " + "'Droid Sans', " + "'Helvetica " + "Neue', sans-serif;\n" +
    "          " + "-webkit-font-smoothi" + "ng: antialiased;\n" +
    "          " + "-moz-osx-font-smooth" + "ing: grayscale;\n" +
    "        }\n" +
    "        * " + "{\n" +
    "          " + "box-sizing: " + "border-box;\n" +
    "        }\n" +
    "        #root " + "{\n" +
    "          " + "min-height: " + "100vh;\n" +
    "        }\n" +
    "      </style>\n" +
    "    </head>\n" +
    "    <body>\n" +
    "      <div " + "id=\"root\"></div>\n" +
    "      \n" +
    "      <!-- " + "Load React " + "from CDN -->\n" +
    "      <script " + "crossorigin " + "src=\"https://unpkg.c" + "om/react@18/umd/reac" + "t.production.min.js\"" + "></script>\n" +
    "      <script " + "crossorigin " + "src=\"https://unpkg.c" + "om/react-dom@18/umd/" + "react-dom.production" + ".min.js\"></script>\n" +
    "      \n" +
    "      <script>\n" +
    "        try " + "{\n" +
    "          " + "// Generated " + "code\n" +
    "          "

  /** The page after the code: the call that renders `App` and the error
      screen shown when the code throws. */
  const HtmlAfter :=
    "\n" +
    "          " + "\n" +
    "          " + "// Render " + "the app\n" +
    "          " + "const root " + "= ReactDOM.createRoo" + "t(document.getElemen" + "tById(\"root\"));\n" +
    "          " + "root.render(React.cr" + "eateElement(App));\n" +
    "        } " + "catch (error) " + "{\n" +
    "          " + "// Display " + "error in a " + "user-friendly " + "way\n" +
    "          " + "document.body.innerH" + "TML = `\n" +
    "          " + "  <div style=\"\n" +
    "          " + "    padding: " + "2rem; \n" +
    "          " + "    color: " + "#dc2626; \n" +
    "          " + "    font-family: " + "'Courier New', " + "monospace; " + "\n" +
    "          " + "    background: " + "linear-gradient(135d" + "eg, #fee2e2 " + "0%, #fecaca " + "100%); \n" +
    "          " + "    min-height: " + "100vh;\n" +
    "          " + "    display: " + "flex;\n" +
    "          " + "    align-items: " + "center;\n" +
    "          " + "    justify-content:" + " center;\n" +
    "          " + "  \">\n" +
    "          " + "    <div style=\"\n" +
    "          " + "      background: " + "white; \n" +
    "          " + "      padding: " + "2rem; \n" +
    "          " + "      border-radius:" + " 12px; \n" +
    "          " + "      box-shadow: " + "0 10px 25px " + "rgba(0,0,0,0.1);\n" +
    "          " + "      max-width: " + "600px;\n" +
    "          " + "    \">\n" +
    "          " + "      <h3 " + "style=\"margin: " + "0 0 1rem 0; " + "color: #991b1b;\">\U{26A0}\U{FE0F} " + "Preview Error</h3>\n" +
    "          " + "      <pre " + "style=\"\n" +
    "          " + "        background: " + "#fef2f2; \n" +
    "          " + "        padding: " + "1rem; \n" +
    "          " + "        border-radiu" + "s: 8px; \n" +
    "          " + "        overflow: " + "auto;\n" +
    "          " + "        border-left:" + " 4px solid " + "#dc2626;\n" +
    "          " + "        margin: " + "1rem 0;\n" +
    "          " + "        font-size: " + "0.875rem;\n" +
    "          " + "      \">${error.mess" + "age}</pre>\n" +
    "          " + "      <p style=\"marg" + "in: 1rem 0 " + "0 0; font-size: " + "0.875rem; " + "color: #6b7280; " + "font-family: " + "system-ui;\">\n" +
    "          " + "        The " + "AI-generated " + "code encountered " + "an error. " + "Try generating " + "again with " + "different " + "inputs.\n" +
    "          " + "      </p>\n" +
    "          " + "    </div>\n" +
    "          " + "  </div>\n" +
    "          " + "`;\n" +
    "          " + "console.error('Previ" + "ew render " + "error:', error);\n" +
    "        }\n" +
    "      </script>\n" +
    "    </body>\n" +
    "  </html>\n" +
    "  "

  /** `cleanCode` as the component computes it: the trimmed code, and, when
      that opens with a fence, with every fence and language tag deleted and
      then a fence at the very end. Only characters are deleted; code that
      does not open with a fence is only trimmed. */
  function Cleaned(code: string): (r: string)
    ensures IsSubsequence(r, code)
    ensures !StartsWith(Trim(code), Fence) ==> r == Trim(code)
  {
    var trimmed := Trim(code);
    TrimIsSubsequence(code);
    if StartsWith(trimmed, Fence) then
      var unfenced := ReplaceAll(FenceWithLanguage, trimmed);
      var r := ReplaceAll(Sanitizer.FenceClose, unfenced);
      ReplaceAllIsSubsequence(FenceWithLanguage, trimmed);
      ReplaceAllIsSubsequence(Sanitizer.FenceClose, unfenced);
      SubsequenceTrans(r, unfenced, trimmed);
      SubsequenceTrans(r, trimmed, code);
      r
    else
      trimmed
  }

  /** The step-by-step form: `let cleanCode = code.trim()`, reassigned by
      the two replacements when it opens with a fence. */
  method CleanCode(code: string) returns (cleanCode: string)
    ensures cleanCode == Cleaned(code)
  {
    cleanCode := Trim(code);
    if StartsWith(cleanCode, Fence) {
      cleanCode := ReplaceAll(FenceWithLanguage, cleanCode);
      cleanCode := ReplaceAll(Sanitizer.FenceClose, cleanCode);
    }
  }

  /** The document given to the frame, with the code in its `try` block;
      the document contains the code verbatim. */
  function Html(cleanCode: string): (r: string)
    ensures Contains(r, cleanCode)
  {
    ContainsMiddle(HtmlBefore, cleanCode, HtmlAfter);
    HtmlBefore + cleanCode + HtmlAfter
  }

  /** Text placed between the same two others can be read back. */
  lemma EmbeddedInjective(before: string, a: string, b: string, after: string)
    requires before + a + after == before + b + after
    ensures a == b
  {
    var x, y := before + a + after, before + b + after;
    assert |a| == |b|;
    assert x[|before|..|before| + |a|] == a;
    assert y[|before|..|before| + |b|] == b;
  }

  /** Different code gives a different document: the frame always runs
      exactly the code it was given. */
  lemma HtmlInjective(a: string, b: string)
    requires Html(a) == Html(b)
    ensures a == b
  {
    EmbeddedInjective(HtmlBefore, a, b, HtmlAfter);
  }

  /** No fence can begin at a position whose next three characters do not
      read as a fence. */
  lemma NoFenceMatch(pat: seq<Atom>, s: string, k: nat)
    requires k <= |s| && pat != [] && pat[0] == Lit(Fence)
    requires !StartsWith(s[k..], Fence)
    ensures MatchAt(pat, s, k).None?
  {
  }

  /** In `a + body + "\n" + tail`, where `body` holds no fence, no fence
      begins inside the body or at its line break. */
  lemma NoFenceInside(a: string, body: string, tail: string, k: nat)
    requires !Contains(body, Fence) && |a| <= k <= |a| + |body|
    ensures !StartsWith((a + body + "\n" + tail)[k..], Fence)
  {
    var s := a + body + "\n" + tail;
    var j := k - |a|;
    if k + 3 <= |a| + |body| {
      if StartsWith(s[k..], Fence) {
        forall d | 0 <= d < 3 ensures body[j..j + 3][d] == Fence[d] {
          assert s[k..][d] == s[k + d] == body[j + d];
        }
        assert body[j..j + 3] == Fence;
        OccursImpliesContains(body, Fence, j);
      }
    } else {
      var d := |a| + |body| - k;
      assert s[k..][d] == s[|a| + |body|] == '\n';
      assert Fence[d] == '`';
    }
  }

  /** Where the fence-with-tag pattern begins at a fence, its match takes
      the fence, the tag the first alternative gives, and a line break if
      one follows. */
  lemma FenceWithLanguageAt(s: string, i: nat)
    requires i + 3 <= |s| && StartsWith(s[i..], Fence)
    ensures var tag := FirstAlternative(["javascript", "js"], s, i + 3);
      MatchAt(FenceWithLanguage, s, i) == Some(i + 3 + tag + FirstAlternative(["\n"], s, i + 3 + tag))
  {
    var tag := FirstAlternative(["javascript", "js"], s, i + 3);
    var end := i + 3 + tag + FirstAlternative(["\n"], s, i + 3 + tag);
    var pat := FenceWithLanguage;
    assert pat[0] == Lit(Fence) && |Fence| == 3;
    assert MatchAt(pat, s, i) == MatchAt(pat[1..], s, i + 3);
    assert pat[1..][0] == Optional(["javascript", "js"]);
    assert MatchAt(pat[1..], s, i + 3) == MatchAt(pat[2..], s, i + 3 + tag);
    assert pat[2..][0] == Optional(["\n"]) && pat[2..][1..] == [];
    assert MatchAt(pat[2..], s, i + 3 + tag) == MatchAt([], s, end);
  }

  /** The tag alternatives: "javascript" first, then "js". */
  lemma TagLength(s: string, j: nat)
    requires j <= |s|
    ensures FirstAlternative(["javascript", "js"], s, j) ==
      if StartsWith(s[j..], "javascript") then 10 else if StartsWith(s[j..], "js") then 2 else 0
  {
    var alts := ["javascript", "js"];
    assert alts[0] == "javascript" && alts[1..] == ["js"];
    assert ["js"][0] == "js" && ["js"][1..] == [];
    assert FirstAlternative([], s, j) == 0;
  }

  /** A text opening with ```javascript and a line break: those fourteen
      characters are the first match. */
  lemma OpeningMatch(code: string)
    requires 14 <= |code| && code[..3] == Fence && code[3..13] == "javascript" && code[13] == '\n'
    ensures MatchAt(FenceWithLanguage, code, 0) == Some(14)
  {
    assert code[0..][..3] == Fence;
    assert code[3..][..10] == code[3..13];
    TagLength(code, 3);
    assert code[13..][..1] == [code[13]];
    assert ["\n"][0] == "\n" && ["\n"][1..] == [];
    FenceWithLanguageAt(code, 0);
  }

  /** A fence that ends the text is a match of its own. */
  lemma ClosingMatch(code: string, n: nat)
    requires n + 3 == |code| && code[n..] == Fence
    ensures MatchAt(FenceWithLanguage, code, n) == Some(|code|)
  {
    TagLength(code, n + 3);
    assert ["\n"][0] == "\n" && ["\n"][1..] == [];
    FenceWithLanguageAt(code, n);
  }

  /** A text made of an opening match, a stretch where no match begins and
      a closing match comes out as the stretch. */
  lemma {:induction false} ReplaceAllKeepsMiddle(pat: seq<Atom>, a: string, m: string, b: string)
    requires |a| > 0 && |b| > 0
    requires MatchAt(pat, a + m + b, 0) == Some(|a|)
    requires forall k :: |a| <= k < |a| + |m| ==> MatchAt(pat, a + m + b, k).None?
    requires MatchAt(pat, a + m + b, |a| + |m|) == Some(|a + m + b|)
    ensures ReplaceAll(pat, a + m + b) == m
  {
    var s := a + m + b;
    ReplaceFromSegment(pat, s, |a|, |a| + |m|);
    assert s[|a|..|a| + |m|] == m;
  }

  /** The first pass on a ```javascript block: the opening fence with its
      tag and the closing fence are the only matches. */
  lemma FirstPassUnwraps(body: string)
    requires !Contains(body, Fence)
    ensures ReplaceAll(FenceWithLanguage, Fence + "javascript\n" + body + "\n" + Fence) == body + "\n"
  {
    var a := Fence + "javascript\n";
    var m := body + "\n";
    var code := a + m + Fence;
    assert code == Fence + "javascript\n" + body + "\n" + Fence;
    assert |a| == 14;
    assert code[..3] == Fence && code[3..13] == "javascript" && code[13] == '\n' by {
      assert code[..14] == a;
    }
    OpeningMatch(code);
    forall k | |a| <= k < |a| + |m| ensures MatchAt(FenceWithLanguage, code, k).None? {
      NoFenceInside(a, body, Fence, k);
      assert a + body + "\n" + Fence == code;
      NoFenceMatch(FenceWithLanguage, code, k);
    }
    assert code[|a| + |m|..] == Fence;
    ClosingMatch(code, |a| + |m|);
    ReplaceAllKeepsMiddle(FenceWithLanguage, a, m, Fence);
  }

  /** The closing-fence pass finds nothing in a text without a fence that
      ends in a line break. */
  lemma SecondPassKeeps(body: string)
    requires !Contains(body, Fence)
    ensures ReplaceAll(Sanitizer.FenceClose, body + "\n") == body + "\n"
  {
    var unfenced := body + "\n";
    assert Sanitizer.FenceClose[0] == Lit(Fence);
    forall k | 0 <= k < |unfenced| ensures MatchAt(Sanitizer.FenceClose, unfenced, k).None? {
      NoFenceInside([], body, [], k);
      assert unfenced == [] + body + "\n" + [];
      NoFenceMatch(Sanitizer.FenceClose, unfenced, k);
    }
    ReplaceAllNoMatch(Sanitizer.FenceClose, unfenced);
  }

  /** A block fenced as ```javascript comes out as its body and the line
      break before the closing fence, when the body holds no fence itself. */
  lemma FencedBlockUnwrapped(body: string)
    requires !Contains(body, Fence)
    ensures Cleaned(Fence + "javascript\n" + body + "\n" + Fence) == body + "\n"
  {
    var code := Fence + "javascript\n" + body + "\n" + Fence;
    assert code[0] == '`' && code[|code| - 1] == '`';
    TrimTrimmed(code);
    assert code[..3] == Fence;
    FirstPassUnwraps(body);
    SecondPassKeeps(body);
  }

  /** A fence tagged ```jsx loses only "```js": the "x" of the tag is kept
      at the front of the code the frame runs. */
  lemma JsxTagLeavesX(rest: string)
    requires IsTrimmed("```jsx" + rest)
    ensures Cleaned("```jsx" + rest) != [] && Cleaned("```jsx" + rest)[0] == 'x'
  {
    var code := "```jsx" + rest;
    TrimTrimmed(code);
    assert code[..3] == Fence;
    assert code[3..][..2] == "js";
    assert code[3..][2] == 'x' && "javascript"[2] == 'v';
    TagLength(code, 3);
    assert code[5..][0] == 'x';
    assert ["\n"][0] == "\n" && ["\n"][1..] == [];
    FenceWithLanguageAt(code, 0);
    assert ReplaceFrom(FenceWithLanguage, code, 0) == ReplaceFrom(FenceWithLanguage, code, 5);
    NoFenceMatch(FenceWithLanguage, code, 5);
    var unfenced := ReplaceAll(FenceWithLanguage, code);
    assert unfenced == [code[5]] + ReplaceFrom(FenceWithLanguage, code, 6);
    assert Sanitizer.FenceClose[0] == Lit(Fence);
    NoFenceMatch(Sanitizer.FenceClose, unfenced, 0);
    assert ReplaceAll(Sanitizer.FenceClose, unfenced) == [unfenced[0]] + ReplaceFrom(Sanitizer.FenceClose, unfenced, 1);
  }

  /** What the component renders. */
  datatype View =
    | Placeholder
    | Frame(key: int, sandbox: string, srcDoc: string, banner: Option<string>)

  /** The component's state: the `code` prop, the `error` banner text and
      the frame's `key`. */
  class Preview {
    var code: string
    var error: Option<string>
    var key: int

    /** Mounting: `useState(null)`, `useState(0)`, then the effect's first
        run. */
    constructor (code: string)
      ensures this.code == code && error == None && key == 1
    {
      this.code := code;
      error := None;
      key := 1;
    }

    /** A render with a new `code` prop. The effect runs only when the prop
        changed: it clears the error and gives the frame a new key, so the
        frame is rebuilt. */
    method CodeChanged(newCode: string)
      modifies this
      ensures code == newCode
      ensures newCode != old(code) ==> error == None && key == old(key) + 1
      ensures newCode == old(code) ==> error == old(error) && key == old(key)
    {
      var changed := newCode != code;
      code := newCode;
      if changed {
        error := None;
        key := key + 1;
      }
    }

    /** The frame's `onError`. */
    method FrameFailed()
      modifies this
      ensures error == Some(FrameErrorMessage)
      ensures code == old(code) && key == old(key)
    {
      error := Some(FrameErrorMessage);
    }

    /** The placeholder for empty code, otherwise a scripts-only sandboxed
        frame keyed by `key` that runs the cleaned code, under the error
        banner if there is one. */
    function Render(): (v: View)
      reads this
      ensures v.Placeholder? <==> code == []
      ensures v.Frame? ==> v.key == key && v.sandbox == Sandbox && v.banner == error
      ensures v.Frame? ==> v.srcDoc == Html(Cleaned(code))
    {
      if code == [] then Placeholder else Frame(key, Sandbox, Html(Cleaned(code)), error)
    }
  }

  /** Code of whitespace only is not empty, so it gets a frame, but the
      cleaned code placed in the page is empty. */
  lemma BlankCodeCleansToEmpty(code: string)
    requires forall k :: 0 <= k < |code| ==> IsSpace(code[k])
    ensures Cleaned(code) == []
  {
    TrimEmptyIffBlank(code);
  }
}
