/** The server's prompt composer (`buildPrompt`): the request's fields, a
    default section list and a default theme, dropped into a fixed
    instruction text with one example whose colours follow the theme. */
module PromptBuilder {
  import opened JsText
  import opened Json
  import opened Validator

  const DefaultSections := "About, Services, Contact"
  const DefaultTheme := "modern " + "blue" + " gradient"
  /** What V8 reports when `includes` is called on a theme that is neither
      a string nor an array. */
  const IncludesNotAFunction := "colorTheme.includes is not a function"

  /** Example colours used when the theme mentions "blue", and otherwise. */
  datatype ColorPair = ColorPair(primary: string, accent: string)
  const BluePair := ColorPair("#4F46E5", "#818CF8")
  const OtherPair := ColorPair("#667eea", "#764ba2")

  // The fixed text is written as short literals joined with `+`, which the
  // verifier handles far more cheaply than long ones.
  const Intro :=
    "\n" +
    "Generate a " + "COMPLETE, " + "PRODUCTION-READY " + "React website " + "for the following " + "business:\n" +
    "\n" +
    "BUSINESS INFORMATION" + ":\n"

  const RequirementsHeader := "\nCRITICAL " + "REQUIREMENTS:\n"

  /** Requirements 1 to 8: no JSX, the `h` shorthand, a function named App,
      inline styles, no import/export/require, no fences, no comments,
      code only. */
  const FixedRequirements :=
    "1. Use ONLY " + "React.createElement(" + ") syntax - " + "ABSOLUTELY " + "NO JSX\n" +
    "2. Use shorthand: " + "const h = " + "React.createElement;" + "\n" +
    "3. Function " + "name must " + "be: App\n" +
    "4. Use inline " + "styles with " + "modern, professional" + " design\n" +
    "5. NO import/export/" + "require statements\n" +
    "6. NO markdown " + "code blocks " + "or backticks\n" +
    "7. NO comments " + "or explanations\n" +
    "8. Return " + "ONLY executable " + "JavaScript " + "code\n"

  const Guidelines :=
    "10. Make it " + "visually stunning " + "with gradients, " + "shadows, and " + "modern aesthetics\n" +
    "\n" +
    "DESIGN GUIDELINES:\n" +
    "- Use modern " + "color schemes " + "with gradients\n" +
    "- Add subtle " + "shadows and " + "hover effects\n" +
    "- Ensure responsive " + "design principles\n" +
    "- Use professional " + "typography\n" +
    "- Include " + "smooth transitions\n" +
    "- Make it " + "visually appealing " + "and premium-looking\n" +
    "\n" +
    "CODE STRUCTURE " + "EXAMPLE:\n" +
    "function App() " + "{\n" +
    "  const h " + "= React.createElemen" + "t;\n" +
    "  \n"

  const ExampleHeader :=
    "  \n" +
    "  const headerStyle " + "= {\n" +
    "    background: " + "'linear-gradient(135" + "deg, ' + primaryColo" + "r + ' 0%, " + "' + accentColor " + "+ ' 100%)',\n" +
    "    padding: " + "'80px 20px',\n" +
    "    textAlign: " + "'center',\n" +
    "    color: " + "'white'\n" +
    "  };\n" +
    "  \n" +
    "  return h('div', " + "{ style: { " + "fontFamily: " + "'system-ui, " + "-apple-system, " + "sans-serif' " + "} },\n" +
    "    h('header', " + "{ style: headerStyle" + " },\n" +
    "      h('h1', " + "{ style: { " + "fontSize: " + "'48px', margin: " + "'0 0 16px " + "0' } }, '"

  const TitleToIndustry :=
    "'),\n" +
    "      h('p', " + "{ style: { " + "fontSize: " + "'20px', opacity: " + "0.9 } }, 'Profession" + "al "

  const IndustryToSections :=
    " Services')\n" +
    "    ),\n" +
    "    h('main', " + "null,\n" +
    "      // Include " + "sections here: "

  /** The example footer; the copyright sign appears as the two characters
      the source file holds there. */
  const SectionsToFooter :=
    "\n" +
    "    ),\n" +
    "    h('footer', " + "{ style: { " + "background: " + "'#1a1a1a', " + "color: 'white', " + "padding: '40px " + "20px', textAlign: " + "'center' } " + "},\n" +
    "      h('p', " + "null, '\U{00C2}\U{00A9} " + "2024 "

  const FooterToClosing :=
    ". All rights " + "reserved.')\n" +
    "    )\n" +
    "  );\n" +
    "}\n" +
    "\n" +
    "Generate the " + "complete App " + "function now " + "with ALL sections " + "("

  const Closing := "). Make it " + "professional " + "and visually " + "stunning:\n"

  /** One line of the business block: "- <field>: <value>". */
  function InfoLine(field: string, value: string): string
  {
    "- " + field + ": " + value + "\n"
  }

  /** Requirement 9, which repeats the section list. */
  function SectionsRequirement(sectionsText: string): string
  {
    "9. Include ALL requested sections: " + sectionsText + "\n"
  }

  /** A colour constant of the example: "  const <name> = '<value>';". */
  function ExampleColorLine(name: string, value: string): string
  {
    "  const " + name + " = '" + value + "';\n"
  }

  /** The prompt template, piece by piece. */
  function PromptPieces(name: string, industry: string, audience: string, theme: string,
                        sectionsText: string, colors: ColorPair): seq<string>
  {
    [Intro,
     InfoLine("Business Name", name),
     InfoLine("Industry", industry),
     InfoLine("Target Audience", audience),
     InfoLine("Color Theme", theme),
     InfoLine("Required Sections", sectionsText),
     RequirementsHeader,
     FixedRequirements,
     SectionsRequirement(sectionsText),
     Guidelines,
     ExampleColorLine("primaryColor", colors.primary),
     ExampleColorLine("accentColor", colors.accent),
     ExampleHeader,
     name,
     TitleToIndustry,
     industry,
     IndustryToSections,
     sectionsText,
     SectionsToFooter,
     name,
     FooterToClosing,
     sectionsText,
     Closing]
  }

  /** `sections.length > 0 ? sections.join(", ") : "About, Services, Contact"`. */
  function SectionsText(sections: seq<Json>): string
  {
    if |sections| > 0 then JoinValues(sections, ", ") else DefaultSections
  }

  /** `data.color || "modern blue gradient"`. */
  function ColorTheme(color: Json): (theme: Json)
    ensures Truthy(theme)
  {
    if Truthy(color) then color else JStr(DefaultTheme)
  }

  /** `colorTheme.includes('blue')`: a substring test on a string, a
      membership test on an array, a TypeError on anything else. */
  function IncludesBlue(theme: Json): Result<bool>
  {
    match theme
    case JStr(s) => Ok(Contains(s, "blue"))
    case JArr(items) => Ok(IncludesString(items, "blue"))
    case _ => Err(IncludesNotAFunction)
  }

  function ExampleColors(blue: bool): ColorPair
  {
    if blue then BluePair else OtherPair
  }

  /** `buildPrompt(data)` on a request that passed `validateInput`. The
      section list is joined first, and joining converts every element, so
      an element object that owns a "toString" key (never callable in
      parsed JSON) throws the conversion TypeError; the theme is converted
      next, by the template, with the same outcome; then any truthy colour
      that is neither a string nor an array makes `includes` throw. Every
      other valid request gets its prompt. */
  function BuildPrompt(data: Json): (r: Result<string>)
    requires ValidRequest(data)
    ensures r.Err? <==> (!Convertible(Get(data, "sections")) ||
      (Truthy(Get(data, "color")) &&
       (!Convertible(Get(data, "color")) || (!Get(data, "color").JStr? && !Get(data, "color").JArr?))))
    ensures r.Err? ==> (r.message ==
      if Convertible(Get(data, "sections")) && Convertible(Get(data, "color")) then IncludesNotAFunction
      else CannotConvert)
  {
    if !Convertible(Get(data, "sections")) then Err(CannotConvert)
    else
      var theme := ColorTheme(Get(data, "color"));
      if !Convertible(theme) then Err(CannotConvert)
      else
        match IncludesBlue(theme)
        case Err(m) => Err(m)
        case Ok(blue) =>
          Ok(Concat(PromptPieces(Get(data, "name").s, Get(data, "industry").s, Get(data, "audience").s,
                                 ToJsString(theme), SectionsText(Get(data, "sections").items),
                                 ExampleColors(blue))))
  }

  /** Neither error of `BuildPrompt` says "Invalid", so the server answers
      both with status 500. */
  lemma PromptErrorLacksInvalid(data: Json)
    requires ValidRequest(data)
    ensures BuildPrompt(data).Err? ==>
      BuildPrompt(data).message != [] && !Contains(BuildPrompt(data).message, InvalidWord)
  {
    if BuildPrompt(data).Err? {
      var m := BuildPrompt(data).message;
      assert m == CannotConvert || m == IncludesNotAFunction;
      if m == CannotConvert {
        CannotConvertLacksInvalid();
      } else {
        IncludesErrorLacksInvalid();
      }
    }
  }

  /** The `includes` TypeError's text has no capital I. */
  lemma IncludesErrorLacksInvalid()
    ensures !Contains(IncludesNotAFunction, InvalidWord)
  {
    assert InvalidWord[0] == 'I';
    assert forall k :: 0 <= k < |IncludesNotAFunction| ==> IncludesNotAFunction[k] != 'I';
    NotContainsWithoutFirst(IncludesNotAFunction, InvalidWord);
  }

  /** The pieces a successful `BuildPrompt` assembles. */
  function PiecesOf(data: Json): (pieces: seq<string>)
    requires ValidRequest(data) && BuildPrompt(data).Ok?
    ensures Concat(pieces) == BuildPrompt(data).value
    ensures pieces == PromptPieces(Get(data, "name").s, Get(data, "industry").s, Get(data, "audience").s,
                                   ToJsString(ColorTheme(Get(data, "color"))),
                                   SectionsText(Get(data, "sections").items),
                                   ExampleColors(IncludesBlue(ColorTheme(Get(data, "color"))).value))
  {
    PromptPieces(Get(data, "name").s, Get(data, "industry").s, Get(data, "audience").s,
                 ToJsString(ColorTheme(Get(data, "color"))),
                 SectionsText(Get(data, "sections").items),
                 ExampleColors(IncludesBlue(ColorTheme(Get(data, "color"))).value))
  }

  /** The five labelled lines of the business block. */
  lemma {:induction false} PromptHasInfoLines(name: string, industry: string, audience: string, theme: string,
                                              sectionsText: string, colors: ColorPair)
    ensures var p := Concat(PromptPieces(name, industry, audience, theme, sectionsText, colors));
      Contains(p, InfoLine("Business Name", name)) &&
      Contains(p, InfoLine("Industry", industry)) &&
      Contains(p, InfoLine("Target Audience", audience)) &&
      Contains(p, InfoLine("Color Theme", theme)) &&
      Contains(p, InfoLine("Required Sections", sectionsText))
  {
    var pieces := PromptPieces(name, industry, audience, theme, sectionsText, colors);
    ConcatContainsPiece(pieces, 1);
    ConcatContainsPiece(pieces, 2);
    ConcatContainsPiece(pieces, 3);
    ConcatContainsPiece(pieces, 4);
    ConcatContainsPiece(pieces, 5);
  }

  /** Requirements 1 to 9 in one run, the last naming the sections. */
  lemma {:induction false} PromptHasRequirements(name: string, industry: string, audience: string, theme: string,
                                                 sectionsText: string, colors: ColorPair)
    ensures Contains(Concat(PromptPieces(name, industry, audience, theme, sectionsText, colors)),
                     RequirementsHeader + FixedRequirements + SectionsRequirement(sectionsText))
  {
    var pieces := PromptPieces(name, industry, audience, theme, sectionsText, colors);
    ConcatSlice(pieces, 6, 9);
    assert pieces[6..9] == [RequirementsHeader, FixedRequirements, SectionsRequirement(sectionsText)];
    ConcatThree(RequirementsHeader, FixedRequirements, SectionsRequirement(sectionsText));
  }

  /** The two colour declarations of the example. */
  lemma {:induction false} PromptHasColorLines(name: string, industry: string, audience: string, theme: string,
                                               sectionsText: string, colors: ColorPair)
    ensures var p := Concat(PromptPieces(name, industry, audience, theme, sectionsText, colors));
      Contains(p, ExampleColorLine("primaryColor", colors.primary)) &&
      Contains(p, ExampleColorLine("accentColor", colors.accent))
  {
    var pieces := PromptPieces(name, industry, audience, theme, sectionsText, colors);
    ConcatContainsPiece(pieces, 10);
    ConcatContainsPiece(pieces, 11);
  }

  /** The section list inside the example's comment and the closing line. */
  lemma {:induction false} PromptHasSectionMentions(name: string, industry: string, audience: string, theme: string,
                                                    sectionsText: string, colors: ColorPair)
    ensures var p := Concat(PromptPieces(name, industry, audience, theme, sectionsText, colors));
      Contains(p, IndustryToSections + sectionsText + SectionsToFooter) &&
      Contains(p, FooterToClosing + sectionsText + Closing) &&
      Contains(p, sectionsText)
  {
    var pieces := PromptPieces(name, industry, audience, theme, sectionsText, colors);
    ConcatSlice(pieces, 16, 19);
    assert pieces[16..19] == [IndustryToSections, sectionsText, SectionsToFooter];
    ConcatThree(IndustryToSections, sectionsText, SectionsToFooter);
    ConcatSlice(pieces, 20, 23);
    assert pieces[20..23] == [FooterToClosing, sectionsText, Closing];
    ConcatThree(FooterToClosing, sectionsText, Closing);
    ConcatContainsPiece(pieces, 17);
  }

  /** The business block lists name, industry, audience, theme and sections
      verbatim, one labelled line each; every prompt carries requirements 1
      to 8 and requirement 9 with the section list, which also appears in
      the example's comment and in the closing line. */
  lemma PromptContents(data: Json)
    requires ValidRequest(data) && BuildPrompt(data).Ok?
    ensures var p := BuildPrompt(data).value;
      var sectionsText := SectionsText(Get(data, "sections").items);
      Contains(p, InfoLine("Business Name", Get(data, "name").s)) &&
      Contains(p, InfoLine("Industry", Get(data, "industry").s)) &&
      Contains(p, InfoLine("Target Audience", Get(data, "audience").s)) &&
      Contains(p, InfoLine("Color Theme", ToJsString(ColorTheme(Get(data, "color"))))) &&
      Contains(p, InfoLine("Required Sections", sectionsText)) &&
      Contains(p, RequirementsHeader + FixedRequirements + SectionsRequirement(sectionsText)) &&
      Contains(p, IndustryToSections + sectionsText + SectionsToFooter) &&
      Contains(p, FooterToClosing + sectionsText + Closing)
  {
    var pieces := PiecesOf(data);
    var args := (Get(data, "name").s, Get(data, "industry").s, Get(data, "audience").s,
                 ToJsString(ColorTheme(Get(data, "color"))), SectionsText(Get(data, "sections").items),
                 ExampleColors(IncludesBlue(ColorTheme(Get(data, "color"))).value));
    PromptHasInfoLines(args.0, args.1, args.2, args.3, args.4, args.5);
    PromptHasRequirements(args.0, args.1, args.2, args.3, args.4, args.5);
    PromptHasSectionMentions(args.0, args.1, args.2, args.3, args.4, args.5);
  }

  /** Every string in the list appears in its rendering. */
  lemma SectionsTextContains(items: seq<Json>, k: nat)
    requires k < |items| && items[k].JStr?
    ensures Contains(SectionsText(items), items[k].s)
  {
    var rendered := seq(|items|, j requires 0 <= j < |items| => ElementString(items[j]));
    assert rendered[k] == ElementString(items[k]) == ToJsString(items[k]) == items[k].s;
    JoinContainsEach(rendered, ", ", k);
  }

  /** Every section name asked for appears in the prompt. */
  lemma PromptMentionsSections(data: Json, k: nat)
    requires ValidRequest(data) && BuildPrompt(data).Ok?
    requires k < |Get(data, "sections").items| && Get(data, "sections").items[k].JStr?
    ensures Contains(BuildPrompt(data).value, Get(data, "sections").items[k].s)
  {
    var items := Get(data, "sections").items;
    var sectionsText := SectionsText(items);
    var pieces := PiecesOf(data);
    PromptHasSectionMentions(Get(data, "name").s, Get(data, "industry").s, Get(data, "audience").s,
                             ToJsString(ColorTheme(Get(data, "color"))), sectionsText,
                             ExampleColors(IncludesBlue(ColorTheme(Get(data, "color"))).value));
    assert Contains(BuildPrompt(data).value, sectionsText);
    SectionsTextContains(items, k);
    ContainsTrans(BuildPrompt(data).value, sectionsText, items[k].s);
  }

  /** With no sections the default list is asked for. */
  lemma PromptDefaultSections(data: Json)
    requires ValidRequest(data) && BuildPrompt(data).Ok?
    requires Get(data, "sections").items == []
    ensures Contains(BuildPrompt(data).value, InfoLine("Required Sections", DefaultSections))
    ensures Contains(BuildPrompt(data).value, SectionsRequirement(DefaultSections))
  {
    PromptContents(data);
    ContainsSuffix(RequirementsHeader + FixedRequirements, SectionsRequirement(DefaultSections));
    ContainsTrans(BuildPrompt(data).value, RequirementsHeader + FixedRequirements + SectionsRequirement(DefaultSections),
                  SectionsRequirement(DefaultSections));
  }

  /** The example colours are the blue pair exactly when the theme text
      contains lowercase "blue" (a case-sensitive test), and the example
      declares them. */
  lemma PromptExampleColors(data: Json)
    requires ValidRequest(data) && Get(data, "color").JStr?
    ensures BuildPrompt(data).Ok? <==> Convertible(Get(data, "sections"))
    ensures BuildPrompt(data).Ok? ==>
      var colors := if Contains(ColorTheme(Get(data, "color")).s, "blue") then BluePair else OtherPair;
      Contains(BuildPrompt(data).value, ExampleColorLine("primaryColor", colors.primary)) &&
      Contains(BuildPrompt(data).value, ExampleColorLine("accentColor", colors.accent))
  {
    if BuildPrompt(data).Ok? {
      var pieces := PiecesOf(data);
      PromptHasColorLines(Get(data, "name").s, Get(data, "industry").s, Get(data, "audience").s,
                          ToJsString(ColorTheme(Get(data, "color"))), SectionsText(Get(data, "sections").items),
                          ExampleColors(IncludesBlue(ColorTheme(Get(data, "color"))).value));
    }
  }

  /** The default theme contains lowercase "blue". */
  lemma DefaultThemeMentionsBlue()
    ensures Contains(DefaultTheme, "blue")
  {
    ContainsMiddle("modern ", "blue", " gradient");
  }

  /** With no colour the default theme applies, and it mentions "blue": the
      example uses the blue pair. */
  lemma AbsentColorGivesBluePair(data: Json)
    requires ValidRequest(data) && !Truthy(Get(data, "color"))
    ensures BuildPrompt(data).Ok? <==> Convertible(Get(data, "sections"))
    ensures BuildPrompt(data).Ok? ==>
      Contains(BuildPrompt(data).value, InfoLine("Color Theme", DefaultTheme)) &&
      Contains(BuildPrompt(data).value, ExampleColorLine("primaryColor", BluePair.primary)) &&
      Contains(BuildPrompt(data).value, ExampleColorLine("accentColor", BluePair.accent))
  {
    DefaultThemeMentionsBlue();
    if BuildPrompt(data).Ok? {
      var pieces := PiecesOf(data);
      PromptHasInfoLines(Get(data, "name").s, Get(data, "industry").s, Get(data, "audience").s,
                         DefaultTheme, SectionsText(Get(data, "sections").items), BluePair);
      PromptHasColorLines(Get(data, "name").s, Get(data, "industry").s, Get(data, "audience").s,
                          DefaultTheme, SectionsText(Get(data, "sections").items), BluePair);
    }
  }

  /** The prompt depends on the five request fields and nothing else. */
  lemma PromptDependsOnlyOnFields(d1: Json, d2: Json)
    requires ValidRequest(d1) && ValidRequest(d2)
    requires Get(d1, "name") == Get(d2, "name") && Get(d1, "industry") == Get(d2, "industry")
    requires Get(d1, "audience") == Get(d2, "audience") && Get(d1, "color") == Get(d2, "color")
    requires Get(d1, "sections") == Get(d2, "sections")
    ensures BuildPrompt(d1) == BuildPrompt(d2)
  {
  }
}
