/** The server's clean-up of model output (`sanitizeCode`): thirteen
    pattern-deletion passes in a fixed order, then trim, then a minimum
    length check. */
module Sanitizer {
  import opened JsText
  import opened Json
  import opened Pattern

  const InvalidCodeMessage := InvalidWord + " code: must be a non-empty string"
  const TooShortMessage := "Sanitized code is too short - generation may have failed"
  const MinimumLength := 50

  /** /```[\w]*\n?/g : an opening fence with its language tag. */
  const FenceOpen: seq<Atom> := [Lit("```"), Run(Word, false), Optional(["\n"])]
  /** /```\n?$/g : a fence that ends the text. */
  const FenceClose: seq<Atom> := [Lit("```"), Optional(["\n"]), EndOfInput]
  /** /import\s+.*?from\s+['"].*?['"];?\s* /g */
  const ImportFrom: seq<Atom> :=
    [Lit("import"), Run(Space, true), LazyDot, Lit("from"), Run(Space, true),
     One(Quote), LazyDot, One(Quote), Optional([";"]), Run(Space, false)]
  /** /const\s+\w+\s*=\s*require\s*\(.*?\);?\s* /g */
  const RequireBinding: seq<Atom> :=
    [Lit("const"), Run(Space, true), Run(Word, true), Run(Space, false), Lit("="),
     Run(Space, false), Lit("require"), Run(Space, false), Lit("("), LazyDot, Lit(")"),
     Optional([";"]), Run(Space, false)]
  /** /require\s*\(.*?\)/g */
  const RequireCall: seq<Atom> := [Lit("require"), Run(Space, false), Lit("("), LazyDot, Lit(")")]
  /** /export\s+default\s+/g */
  const ExportDefault: seq<Atom> := [Lit("export"), Run(Space, true), Lit("default"), Run(Space, true)]
  /** /export\s+\{.*?\};?\s* /g */
  const ExportList: seq<Atom> :=
    [Lit("export"), Run(Space, true), Lit("{"), LazyDot, Lit("}"), Optional([";"]), Run(Space, false)]
  /** /eval\s*\(/g */
  const EvalCall: seq<Atom> := [Lit("eval"), Run(Space, false), Lit("(")]
  /** /Function\s*\(/g */
  const FunctionCall: seq<Atom> := [Lit("Function"), Run(Space, false), Lit("(")]
  /** /localStorage\./g */
  const LocalStorage: seq<Atom> := [Lit("localStorage.")]
  /** /sessionStorage\./g */
  const SessionStorage: seq<Atom> := [Lit("sessionStorage.")]
  /** /fetch\s*\(/g */
  const FetchCall: seq<Atom> := [Lit("fetch"), Run(Space, false), Lit("(")]
  /** /XMLHttpRequest/g */
  const XmlHttpRequest: seq<Atom> := [Lit("XMLHttpRequest")]

  /** The passes in the order they run: fences first, then imports and
      requires, exports, code evaluation, storage and network access. */
  const Passes: seq<seq<Atom>> :=
    [FenceOpen, FenceClose, ImportFrom, RequireBinding, RequireCall, ExportDefault, ExportList,
     EvalCall, FunctionCall, LocalStorage, SessionStorage, FetchCall, XmlHttpRequest]

  lemma PassesAreNonEmpty()
    ensures forall k :: 0 <= k < |Passes| ==> NonEmptyPattern(Passes[k])
  {
  }

  /** The text after running `passes` one after the other. */
  function StripAll(passes: seq<seq<Atom>>, s: string): string
  {
    if passes == [] then s else StripAll(passes[1..], ReplaceAll(passes[0], s))
  }

  /** Every pass only deletes text. */
  lemma {:induction false} StripAllIsSubsequence(passes: seq<seq<Atom>>, s: string)
    ensures IsSubsequence(StripAll(passes, s), s)
  {
    if passes == [] {
      SubsequenceRefl(s);
    } else {
      var t := ReplaceAll(passes[0], s);
      ReplaceAllIsSubsequence(passes[0], s);
      StripAllIsSubsequence(passes[1..], t);
      SubsequenceTrans(StripAll(passes[1..], t), t, s);
    }
  }

  /** Passes none of which matches anywhere change nothing. */
  lemma {:induction false} StripAllNoMatch(passes: seq<seq<Atom>>, s: string)
    requires forall p, k :: p in passes && 0 <= k < |s| ==> MatchAt(p, s, k).None?
    ensures StripAll(passes, s) == s
  {
    if passes != [] {
      ReplaceAllNoMatch(passes[0], s);
      StripAllNoMatch(passes[1..], s);
    }
  }

  /** `sanitizeCode(code)`: throws for a falsy or non-string argument and for
      a result shorter than 50 characters; otherwise returns the stripped,
      trimmed text, which is at least 50 characters long, has no whitespace
      at either end and is obtained from the input by deleting characters. */
  function Sanitize(code: Json): (r: Result<string>)
    ensures !Truthy(code) || !code.JStr? ==> r == Err(InvalidCodeMessage)
    ensures code.JStr? && code.s != [] ==> r != Err(InvalidCodeMessage)
    ensures r.Ok? ==> code.JStr? && |r.value| >= MinimumLength && IsTrimmed(r.value)
    ensures r.Ok? ==> IsSubsequence(r.value, code.s)
    ensures r.Err? ==> r.message == InvalidCodeMessage || r.message == TooShortMessage
  {
    if !Truthy(code) || !code.JStr? then Err(InvalidCodeMessage)
    else
      var stripped := StripAll(Passes, code.s);
      var cleaned := Trim(stripped);
      TrimSpec(stripped);
      StripAllIsSubsequence(Passes, code.s);
      TrimIsSubsequence(stripped);
      SubsequenceTrans(cleaned, stripped, code.s);
      if |cleaned| < MinimumLength then Err(TooShortMessage) else Ok(cleaned)
  }

  /** A missing or non-string argument is rejected with a message containing
      "Invalid", which the server answers with status 400. */
  lemma InvalidCodeMentionsInvalid(code: Json)
    requires !Truthy(code) || !code.JStr?
    ensures Sanitize(code).Err? && Contains(Sanitize(code).message, InvalidWord)
  {
    ContainsPrefix(InvalidWord, " code: must be a non-empty string");
  }

  /** One pass of a suffix of the pass list. */
  lemma StripStep(k: nat, t: string)
    requires k < |Passes|
    ensures StripAll(Passes[k..], t) == StripAll(Passes[k + 1..], ReplaceAll(Passes[k], t))
  {
    assert Passes[k..][0] == Passes[k];
    assert Passes[k..][1..] == Passes[k + 1..];
  }

  /** The step-by-step form of `sanitizeCode`: the local text is replaced by
      the outcome of each pass in turn, then trimmed and checked. */
  method SanitizeCode(code: Json) returns (r: Result<string>)
    ensures r == Sanitize(code)
  {
    if !Truthy(code) || !code.JStr? {
      return Err(InvalidCodeMessage);
    }
    var cleaned := code.s;
    assert Passes[0..] == Passes;
    StripStep(0, cleaned);
    cleaned := ReplaceAll(FenceOpen, cleaned);
    StripStep(1, cleaned);
    cleaned := ReplaceAll(FenceClose, cleaned);
    StripStep(2, cleaned);
    cleaned := ReplaceAll(ImportFrom, cleaned);
    StripStep(3, cleaned);
    cleaned := ReplaceAll(RequireBinding, cleaned);
    StripStep(4, cleaned);
    cleaned := ReplaceAll(RequireCall, cleaned);
    StripStep(5, cleaned);
    cleaned := ReplaceAll(ExportDefault, cleaned);
    StripStep(6, cleaned);
    cleaned := ReplaceAll(ExportList, cleaned);
    StripStep(7, cleaned);
    cleaned := ReplaceAll(EvalCall, cleaned);
    StripStep(8, cleaned);
    cleaned := ReplaceAll(FunctionCall, cleaned);
    StripStep(9, cleaned);
    cleaned := ReplaceAll(LocalStorage, cleaned);
    StripStep(10, cleaned);
    cleaned := ReplaceAll(SessionStorage, cleaned);
    StripStep(11, cleaned);
    cleaned := ReplaceAll(FetchCall, cleaned);
    StripStep(12, cleaned);
    cleaned := ReplaceAll(XmlHttpRequest, cleaned);
    assert cleaned == StripAll(Passes, code.s);
    cleaned := Trim(cleaned);
    if |cleaned| < MinimumLength {
      return Err(TooShortMessage);
    }
    return Ok(cleaned);
  }

  /** Text that is already trimmed, at least 50 characters long and free of
      every pattern comes back unchanged. */
  lemma SanitizeUnchanged(s: string)
    requires |s| >= MinimumLength && IsTrimmed(s)
    requires forall p, k :: p in Passes && 0 <= k < |s| ==> MatchAt(p, s, k).None?
    ensures Sanitize(JStr(s)) == Ok(s)
  {
    StripAllNoMatch(Passes, s);
    TrimTrimmed(s);
  }

  /** The length check is applied to the trimmed text: the call fails for a
      non-empty string exactly when fewer than 50 characters remain. */
  lemma SanitizeTooShortIff(s: string)
    requires s != []
    ensures Sanitize(JStr(s)) == Err(TooShortMessage) <==> |Trim(StripAll(Passes, s))| < MinimumLength
    ensures Sanitize(JStr(s)).Ok? ==> Sanitize(JStr(s)).value == Trim(StripAll(Passes, s))
  {
  }
}
