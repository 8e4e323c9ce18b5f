/** The demonstration generator: a fixed React template filled in with the
    business details, a colour pair picked by keyword and one block for each
    selected section. `Template` holds the template's literal text,
    character for character, as the stretches between its substitutions;
    the structural lemmas hold for any such text. */
module MockGenerator {
  import opened JsText
  import opened Pattern
  import opened BusinessForm

  /** The two colours the generated page uses. */
  datatype Palette = Palette(primary: string, accent: string)

  const BluePalette: Palette := Palette("#4F46E5", "#818CF8")
  const PurplePalette: Palette := Palette("#9333EA", "#C084FC")
  const GreenPalette: Palette := Palette("#10B981", "#34D399")
  const RedPalette: Palette := Palette("#EF4444", "#F87171")

  /** The colour families, in the order their words are looked for. */
  const Families: seq<(string, Palette)> :=
    [("blue", BluePalette), ("purple", PurplePalette), ("green", GreenPalette), ("red", RedPalette)]

  /** `primaryColor`: a chain of `color.toLowerCase().includes(word)` tests. */
  function PrimaryColor(color: string): string
  {
    var lower := ToLower(color);
    if Contains(lower, "blue") then "#4F46E5"
    else if Contains(lower, "purple") then "#9333EA"
    else if Contains(lower, "green") then "#10B981"
    else if Contains(lower, "red") then "#EF4444"
    else "#4F46E5"
  }

  /** `accentColor`: the same chain of tests, written out a second time. */
  function AccentColor(color: string): string
  {
    var lower := ToLower(color);
    if Contains(lower, "blue") then "#818CF8"
    else if Contains(lower, "purple") then "#C084FC"
    else if Contains(lower, "green") then "#34D399"
    else if Contains(lower, "red") then "#F87171"
    else "#818CF8"
  }

  /** Reference choice: the palette of the first family whose word occurs
      in `lower`, the blue one when none does. */
  function FirstFamily(families: seq<(string, Palette)>, lower: string): Palette
  {
    if families == [] then BluePalette
    else if Contains(lower, families[0].0) then families[0].1
    else FirstFamily(families[1..], lower)
  }

  /** Both colours come from one family: the first, in the order blue,
      purple, green, red, whose word occurs in the lowercased colour, and
      the blue family when none does. So "Red and Blue" gives the blue
      pair. */
  lemma ColorsFromFirstFamily(color: string)
    ensures Palette(PrimaryColor(color), AccentColor(color)) == FirstFamily(Families, ToLower(color))
  {
    var lower := ToLower(color);
    var f1 := [("purple", PurplePalette), ("green", GreenPalette), ("red", RedPalette)];
    var f2 := [("green", GreenPalette), ("red", RedPalette)];
    var f3 := [("red", RedPalette)];
    assert Families[1..] == f1 && f1[1..] == f2 && f2[1..] == f3 && f3[1..] == [];
    assert FirstFamily(f3, lower) == if Contains(lower, "red") then RedPalette else BluePalette;
    assert FirstFamily(f2, lower) == if Contains(lower, "green") then GreenPalette else FirstFamily(f3, lower);
    assert FirstFamily(f1, lower) == if Contains(lower, "purple") then PurplePalette else FirstFamily(f2, lower);
    assert FirstFamily(Families, lower) == if Contains(lower, "blue") then BluePalette else FirstFamily(f1, lower);
  }

  /** The choice ignores ASCII letter case. */
  lemma ColorsIgnoreCase(color: string)
    ensures PrimaryColor(ToLower(color)) == PrimaryColor(color)
    ensures AccentColor(ToLower(color)) == AccentColor(color)
  {
    ToLowerIdempotent(color);
  }

  /** `/\\s+/g` inside the template's substitution: a backslash followed by
      one or more letters "s" (not whitespace). */
  const EmailSeparator: seq<Atom> := [Lit("\\"), Run(Exactly('s'), true)]

  /** `name.toLowerCase().replace(/\\s+/g, '')`. */
  function EmailSlug(name: string): (slug: string)
    ensures IsSubsequence(slug, ToLower(name))
  {
    ReplaceAllIsSubsequence(EmailSeparator, ToLower(name));
    ReplaceAll(EmailSeparator, ToLower(name))
  }

  /** A name without a backslash is only lowercased: its spaces stay in the
      e-mail address. */
  lemma EmailSlugKeepsSpaces(name: string)
    requires forall k :: 0 <= k < |name| ==> name[k] != '\\'
    ensures EmailSlug(name) == ToLower(name)
  {
    var lower := ToLower(name);
    forall k | 0 <= k < |lower| ensures MatchAt(EmailSeparator, lower, k).None? {
      assert lower[k] == LowerChar(name[k]);
      NoSeparatorAt(lower, k);
    }
    ReplaceAllNoMatch(EmailSeparator, lower);
  }

  lemma NoSeparatorAt(s: string, k: nat)
    requires k < |s| && s[k] != '\\'
    ensures MatchAt(EmailSeparator, s, k).None?
  {
    assert s[k..][0] == s[k];
  }

  /** The blocks the template can include, in the order it includes them. */
  datatype Section = About | Services | Products | Testimonials | Gallery | Contact

  /** The exact, case-sensitive name `sections` must contain. */
  function SectionName(s: Section): string
  {
    match s
    case About => "About"
    case Services => "Services"
    case Products => "Products"
    case Testimonials => "Testimonials"
    case Gallery => "Gallery"
    case Contact => "Contact"
  }

  /** Different sections are asked for by different names. */
  lemma SectionNamesDistinct(s: Section, t: Section)
    requires s != t
    ensures SectionName(s) != SectionName(t)
  {
    assert SectionName(s)[0] != SectionName(t)[0] || |SectionName(s)| != |SectionName(t)|;
  }

  /** The literal stretches of the template, between its substitutions. */
  datatype MockText = MockText(
    appOpening: string,
    headBeforePrimary: string,
    headBeforeAccent: string,
    headBeforeName: string,
    headBeforeIndustry: string,
    headBeforeSections: string,
    slotSeparator: string,
    footerBeforeCopyright: string,
    copyrightLead: string,
    rightsReserved: string,
    footerBeforeServing: string,
    servingLead: string,
    withExcellence: string,
    footerEnd: string,
    aboutBeforeName: string,
    aboutBeforeIndustry: string,
    aboutBeforeAudience: string,
    aboutEnd: string,
    servicesBeforeIndustry: string,
    servicesEnd: string,
    products: string,
    testimonialsBeforeName: string,
    testimonialsBeforeIndustry: string,
    testimonialsBetween: string,
    testimonialsEnd: string,
    gallery: string,
    contactBeforeEmail: string,
    emailLead: string,
    emailTail: string,
    contactEnd: string)

  /** The template of `generateMockWebsite`, stretch by stretch. Each line
      of the template is written as a few short literals joined with `+`:
      the verifier handles many short literals far more cheaply than a few
      long ones. */
  const Template: MockText := MockText(
    appOpening :=
      "function App() " + "{\n" +
      "  const h " + "= React.createElemen" + "t;",
    headBeforePrimary :=
      "\n" +
      "  \n" +
      "  const primaryColor" + " = '",
    headBeforeAccent :=
      "';\n" +
      "  const accentColor " + "= '",
    headBeforeName :=
      "';\n" +
      "  \n" +
      "  const headerStyle " + "= {\n" +
      "    background: " + "'linear-gradient(135" + "deg, ' + primaryColo" + "r + ' 0%, " + "' + accentColor " + "+ ' 100%)',\n" +
      "    padding: " + "'80px 20px',\n" +
      "    textAlign: " + "'center',\n" +
      "    color: " + "'white',\n" +
      "    boxShadow: " + "'0 4px 6px " + "rgba(0,0,0,0.1)'\n" +
      "  };\n" +
      "  \n" +
      "  const containerSty" + "le = {\n" +
      "    maxWidth: " + "'1200px',\n" +
      "    margin: " + "'0 auto',\n" +
      "    padding: " + "'20px'\n" +
      "  };\n" +
      "  \n" +
      "  const sectionStyle" + " = {\n" +
      "    padding: " + "'60px 20px',\n" +
      "    margin: " + "'40px 0'\n" +
      "  };\n" +
      "  \n" +
      "  const cardStyle " + "= {\n" +
      "    background: " + "'white',\n" +
      "    padding: " + "'30px',\n" +
      "    borderRadius: " + "'12px',\n" +
      "    boxShadow: " + "'0 4px 12px " + "rgba(0,0,0,0.1)',\n" +
      "    margin: " + "'20px 0'\n" +
      "  };\n" +
      "  \n" +
      "  const buttonStyle " + "= {\n" +
      "    background: " + "primaryColor,\n" +
      "    color: " + "'white',\n" +
      "    padding: " + "'12px 30px',\n" +
      "    border: " + "'none',\n" +
      "    borderRadius: " + "'8px',\n" +
      "    fontSize: " + "'16px',\n" +
      "    cursor: " + "'poin" + "ter',\n" +
      "    marginTop: " + "'20px'\n" +
      "  };\n" +
      "  \n" +
      "  const footerStyle " + "= {\n" +
      "    background: " + "'#1a1a1a',\n" +
      "    color: " + "'white',\n" +
      "    padding: " + "'40px 20px',\n" +
      "    textAlign: " + "'center',\n" +
      "    marginTop: " + "'60px'\n" +
      "  };\n" +
      "\n" +
      "  return h('div', " + "{ style: { " + "fontFamily: " + "'system-ui, " + "-apple-system, " + "sans-serif', " + "background: " + "'#f8f9fa' " + "} },\n" +
      "    h('header', " + "{ style: headerStyle" + " },\n" +
      "      h('div', " + "{ style: containerSt" + "yle },\n" +
      "        h('h1', " + "{ style: { " + "fontSize: " + "'48px', margin: " + "'0 0 16px " + "0', fontWeight: " + "'bold' } }, " + "'",
    headBeforeIndustry :=
      "'),\n" +
      "        h('p', " + "{ style: { " + "fontSize: " + "'20px', opacity: " + "0.95, margin: " + "'0' } }, 'Profession" + "al ",
    headBeforeSections :=
      " Services'),\n" +
      "        h('button', " + "{ style: buttonStyle" + " }, 'Get Started')\n" +
      "      )\n" +
      "    ),\n" +
      "    \n" +
      "    h('main', " + "{ style: containerSt" + "yle },\n" +
      "      ",
    slotSeparator :=
      "\n" +
      "      \n" +
      "      ",
    footerBeforeCopyright :=
      "\n" +
      "    ),\n" +
      "    \n" +
      "    h('footer', " + "{ style: footerStyle" + " },\n" +
      "      h('div', " + "{ style: containerSt" + "yle },\n" +
      "        h('p', " + "{ style: { " + "margin: '0', " + "fontSize: " + "'16px' } }, " + "'",
    copyrightLead :=
      "\U{00A9} 2024 ",
    rightsReserved :=
      ". All rights " + "reserved.",
    footerBeforeServing :=
      "'),\n" +
      "        h('p', " + "{ style: { " + "margin: '10px " + "0 0 0', fontSize: " + "'14px', opacity: " + "0.8 } }, '",
    servingLead :=
      "Serving ",
    withExcellence :=
      " with excellence",
    footerEnd :=
      "')\n" +
      "      )\n" +
      "    )\n" +
      "  );\n" +
      "}",
    aboutBeforeName :=
      "\n" +
      "      h('section', " + "{ style: sectionStyl" + "e },\n" +
      "        h('h2', " + "{ style: { " + "fontSize: " + "'36px', color: " + "'#1a1a1a', " + "marginBottom: " + "'20px' } }, " + "'About Us'),\n" +
      "        h('div', " + "{ style: cardStyle " + "},\n" +
      "          " + "h('p', { style: " + "{ fontSize: " + "'18px', lineHeight: " + "'1.8', color: " + "'#4a5568' " + "} }, \n" +
      "          " + "  'Welcome " + "to ",
    aboutBeforeIndustry :=
      "! We are a " + "leading provider " + "of ",
    aboutBeforeAudience :=
      " solutions, " + "dedicated " + "to serving ",
    aboutEnd :=
      ". Our team " + "of experts " + "brings years " + "of experience " + "and innovation " + "to help you " + "achieve your " + "goals.'\n" +
      "          " + ")\n" +
      "        )\n" +
      "      ),",
    servicesBeforeIndustry :=
      "\n" +
      "      h('section', " + "{ style: sectionStyl" + "e },\n" +
      "        h('h2', " + "{ style: { " + "fontSize: " + "'36px', color: " + "'#1a1a1a', " + "marginBottom: " + "'20px', textAlign: " + "'center' } " + "}, 'Our Services'),\n" +
      "        h('div', " + "{ style: { " + "display: 'grid', " + "gridTemplateColumns:" + " 'repeat(auto-fit, " + "minmax(300px, " + "1fr))', gap: " + "'20px' } },\n" +
      "          " + "h('div', { " + "style: cardStyle " + "},\n" +
      "          " + "  h('h3', " + "{ style: { " + "color: primaryColor," + " fontSize: " + "'24px', marginBottom" + ": '12px' } " + "}, '\U{1F3AF} Consulting'),\n" +
      "          " + "  h('p', { " + "style: { color: " + "'#4a5568', " + "lineHeight: " + "'1.6' } }, " + "'Expert guidance " + "tailored to " + "your business " + "needs in ",
    servicesEnd :=
      ".')\n" +
      "          " + "),\n" +
      "          " + "h('div', { " + "style: cardStyle " + "},\n" +
      "          " + "  h('h3', " + "{ style: { " + "color: primaryColor," + " fontSize: " + "'24px', marginBottom" + ": '12px' } " + "}, '\U{26A1} Implementation" + "'),\n" +
      "          " + "  h('p', { " + "style: { color: " + "'#4a5568', " + "lineHeight: " + "'1.6' } }, " + "'Seamless " + "integration " + "and deployment " + "of cutting-edge " + "solutions.')\n" +
      "          " + "),\n" +
      "          " + "h('div', { " + "style: cardStyle " + "},\n" +
      "          " + "  h('h3', " + "{ style: { " + "color: primaryColor," + " fontSize: " + "'24px', marginBottom" + ": '12px' } " + "}, '\U{1F6E0}\U{FE0F} Support'),\n" +
      "          " + "  h('p', { " + "style: { color: " + "'#4a5568', " + "lineHeight: " + "'1.6' } }, " + "'24/7 dedicated " + "support to " + "keep your " + "operations " + "running smoothly.')\n" +
      "          " + ")\n" +
      "        )\n" +
      "      ),",
    products :=
      "\n" +
      "      h('section', " + "{ style: sectionStyl" + "e },\n" +
      "        h('h2', " + "{ style: { " + "fontSize: " + "'36px', color: " + "'#1a1a1a', " + "marginBottom: " + "'20px', textAlign: " + "'center' } " + "}, 'Our Products'),\n" +
      "        h('div', " + "{ style: { " + "display: 'grid', " + "gridTemplateColumns:" + " 'repeat(auto-fit, " + "minmax(280px, " + "1fr))', gap: " + "'20px' } },\n" +
      "          " + "h('div', { " + "style: cardStyle " + "},\n" +
      "          " + "  h('h3', " + "{ style: { " + "color: primaryColor," + " fontSize: " + "'22px' } }, " + "'Premium Package'),\n" +
      "          " + "  h('p', { " + "style: { fontSize: " + "'32px', fontWeight: " + "'bold', color: " + "'#1a1a1a', " + "margin: '16px " + "0' } }, '$99/mo'),\n" +
      "          " + "  h('ul', " + "{ style: { " + "listStyle: " + "'none', padding: " + "0, color: " + "'#4a5568' " + "} },\n" +
      "          " + "    h('li', " + "{ style: { " + "padding: '8px " + "0' } }, '\U{2713} " + "Full access " + "to all features'),\n" +
      "          " + "    h('li', " + "{ style: { " + "padding: '8px " + "0' } }, '\U{2713} " + "Priority support'),\n" +
      "          " + "    h('li', " + "{ style: { " + "padding: '8px " + "0' } }, '\U{2713} " + "Advanced analytics')" + "\n" +
      "          " + "  ),\n" +
      "          " + "  h('button', " + "{ style: buttonStyle" + " }, 'Choose " + "Plan')\n" +
      "          " + "),\n" +
      "          " + "h('div', { " + "style: cardStyle " + "},\n" +
      "          " + "  h('h3', " + "{ style: { " + "color: primaryColor," + " fontSize: " + "'22px' } }, " + "'Enterprise'),\n" +
      "          " + "  h('p', { " + "style: { fontSize: " + "'32px', fontWeight: " + "'bold', color: " + "'#1a1a1a', " + "margin: '16px " + "0' } }, 'Custom'),\n" +
      "          " + "  h('ul', " + "{ style: { " + "listStyle: " + "'none', padding: " + "0, color: " + "'#4a5568' " + "} },\n" +
      "          " + "    h('li', " + "{ style: { " + "padding: '8px " + "0' } }, '\U{2713} " + "Everything " + "in Premium'),\n" +
      "          " + "    h('li', " + "{ style: { " + "padding: '8px " + "0' } }, '\U{2713} " + "Dedicated " + "account manager'),\n" +
      "          " + "    h('li', " + "{ style: { " + "padding: '8px " + "0' } }, '\U{2713} " + "Custom integrations'" + ")\n" +
      "          " + "  ),\n" +
      "          " + "  h('button', " + "{ style: buttonStyle" + " }, 'Contact " + "Sales')\n" +
      "          " + ")\n" +
      "        )\n" +
      "      ),",
    testimonialsBeforeName :=
      "\n" +
      "      h('section', " + "{ style: sectionStyl" + "e },\n" +
      "        h('h2', " + "{ style: { " + "fontSize: " + "'36px', color: " + "'#1a1a1a', " + "marginBottom: " + "'20px', textAlign: " + "'center' } " + "}, 'What Our " + "Clients Say'),\n" +
      "        h('div', " + "{ style: { " + "display: 'grid', " + "gridTemplateColumns:" + " 'repeat(auto-fit, " + "minmax(300px, " + "1fr))', gap: " + "'20px' } },\n" +
      "          " + "h('div', { " + "style: { ...cardStyl" + "e, borderLeft: " + "'4px solid " + "' + primaryColor " + "} },\n" +
      "          " + "  h('p', { " + "style: { fontSize: " + "'16px', fontStyle: " + "'italic', " + "color: '#4a5568', " + "marginBottom: " + "'16px' } }, " + "\n" +
      "          " + "    '\"",
    testimonialsBeforeIndustry :=
      " transformed " + "our business. " + "Their expertise " + "in ",
    testimonialsBetween :=
      " is unmatched!\"'\n" +
      "          " + "  ),\n" +
      "          " + "  h('p', { " + "style: { fontWeight:" + " 'bold', color: " + "'#1a1a1a' " + "} }, '- Sarah " + "Johnson, CEO')\n" +
      "          " + "),\n" +
      "          " + "h('div', { " + "style: { ...cardStyl" + "e, borderLeft: " + "'4px solid " + "' + primaryColor " + "} },\n" +
      "          " + "  h('p', { " + "style: { fontSize: " + "'16px', fontStyle: " + "'italic', " + "color: '#4a5568', " + "marginBottom: " + "'16px' } }, " + "\n" +
      "          " + "    '\"Outstanding " + "service and " + "results. Highly " + "recommend " + "to anyone " + "in ",
    testimonialsEnd :=
      ".\"'\n" +
      "          " + "  ),\n" +
      "          " + "  h('p', { " + "style: { fontWeight:" + " 'bold', color: " + "'#1a1a1a' " + "} }, '- Michael " + "Chen, Director')\n" +
      "          " + ")\n" +
      "        )\n" +
      "      ),",
    gallery :=
      "\n" +
      "      h('section', " + "{ style: sectionStyl" + "e },\n" +
      "        h('h2', " + "{ style: { " + "fontSize: " + "'36px', color: " + "'#1a1a1a', " + "marginBottom: " + "'20px', textAlign: " + "'center' } " + "}, 'Gallery'),\n" +
      "        h('div', " + "{ style: { " + "display: 'grid', " + "gridTemplateColumns:" + " 'repeat(auto-fit, " + "minmax(250px, " + "1fr))', gap: " + "'20px' } },\n" +
      "          " + "h('div', { " + "style: { ...cardStyl" + "e, height: " + "'200px', background:" + " 'linear-gradient(13" + "5deg, ' + " + "primaryColor " + "+ ', ' + accentColor" + " + ')', display: " + "'flex', alignItems: " + "'center', " + "justifyContent: " + "'center', " + "color: 'white', " + "fontSize: " + "'24px' } }, " + "'\U{1F4F8} Project " + "1'),\n" +
      "          " + "h('div', { " + "style: { ...cardStyl" + "e, height: " + "'200px', background:" + " 'linear-gradient(13" + "5deg, ' + " + "accentColor " + "+ ', ' + primaryColo" + "r + ')', display: " + "'flex', alignItems: " + "'center', " + "justifyContent: " + "'center', " + "color: 'white', " + "fontSize: " + "'24px' } }, " + "'\U{1F4F8} Project " + "2'),\n" +
      "          " + "h('div', { " + "style: { ...cardStyl" + "e, height: " + "'200px', background:" + " 'linear-gradient(13" + "5deg, ' + " + "primaryColor " + "+ ', ' + accentColor" + " + ')', display: " + "'flex', alignItems: " + "'center', " + "justifyContent: " + "'center', " + "color: 'white', " + "fontSize: " + "'24px' } }, " + "'\U{1F4F8} Project " + "3')\n" +
      "        )\n" +
      "      ),",
    contactBeforeEmail :=
      "\n" +
      "      h('section', " + "{ style: sectionStyl" + "e },\n" +
      "        h('h2', " + "{ style: { " + "fontSize: " + "'36px', color: " + "'#1a1a1a', " + "marginBottom: " + "'20px', textAlign: " + "'center' } " + "}, 'Contact " + "Us'),\n" +
      "        h('div', " + "{ style: { " + "...cardStyle, " + "maxWidth: " + "'600px', margin: " + "'0 auto' } " + "},\n" +
      "          " + "h('div', { " + "style: { marginBotto" + "m: '20px' " + "} },\n" +
      "          " + "  h('p', { " + "style: { fontSize: " + "'18px', color: " + "'#4a5568', " + "marginBottom: " + "'12px' } }, " + "'\U{1F4E7} Email: ",
    emailLead :=
      "contact@",
    emailTail :=
      ".com",
    contactEnd :=
      "'),\n" +
      "          " + "  h('p', { " + "style: { fontSize: " + "'18px', color: " + "'#4a5568', " + "marginBottom: " + "'12px' } }, " + "'\U{1F4F1} Phone: " + "+1 (555) 123-4567')," + "\n" +
      "          " + "  h('p', { " + "style: { fontSize: " + "'18px', color: " + "'#4a5568', " + "marginBottom: " + "'12px' } }, " + "'\U{1F4CD} Address: " + "123 Business " + "St, City, " + "State 12345')\n" +
      "          " + "),\n" +
      "          " + "h('button', " + "{ style: { " + "...buttonStyle, " + "width: '100%' " + "} }, 'Send " + "Message')\n" +
      "        )\n" +
      "      )")

  /** The text of one section block, with the business details filled in. */
  function Block(t: MockText, s: Section, name: string, industry: string, audience: string): string
  {
    match s
    case About => t.aboutBeforeName + name + t.aboutBeforeIndustry + industry + t.aboutBeforeAudience + audience + t.aboutEnd
    case Services => t.servicesBeforeIndustry + industry + t.servicesEnd
    case Products => t.products
    case Testimonials =>
      t.testimonialsBeforeName + name + t.testimonialsBeforeIndustry + industry + t.testimonialsBetween + industry
      + t.testimonialsEnd
    case Gallery => t.gallery
    case Contact => t.contactBeforeEmail + t.emailLead + EmailSlug(name) + t.emailTail + t.contactEnd
  }

  /** `sections.includes(name) ? block : ''`. */
  function Slot(t: MockText, s: Section, d: FormData): string
  {
    if SectionName(s) in d.sections then Block(t, s, d.name, d.industry, d.audience) else ""
  }

  /** Position of a section among the six slots. */
  function Rank(s: Section): (k: nat)
    ensures k < 6
  {
    match s
    case About => 0
    case Services => 1
    case Products => 2
    case Testimonials => 3
    case Gallery => 4
    case Contact => 5
  }

  /** The six slot texts, in template order. */
  function Slots(t: MockText, d: FormData): (slots: seq<string>)
    ensures |slots| == 6
    ensures forall s: Section :: slots[Rank(s)] == Slot(t, s, d)
  {
    [Slot(t, About, d), Slot(t, Services, d), Slot(t, Products, d), Slot(t, Testimonials, d),
     Slot(t, Gallery, d), Slot(t, Contact, d)]
  }

  /** The template as its literal stretches and substitutions, in order. */
  function Pieces(t: MockText, primary: string, accent: string, name: string, industry: string,
                  audience: string, slots: seq<string>): (pieces: seq<string>)
    requires |slots| == 6
    ensures |pieces| == 30
    ensures forall k :: 0 <= k < 6 ==> pieces[10 + 2 * k] == slots[k]
  {
    [t.appOpening, t.headBeforePrimary, primary, t.headBeforeAccent, accent,
     t.headBeforeName, name, t.headBeforeIndustry, industry, t.headBeforeSections,
     slots[0], t.slotSeparator, slots[1], t.slotSeparator, slots[2], t.slotSeparator,
     slots[3], t.slotSeparator, slots[4], t.slotSeparator, slots[5],
     t.footerBeforeCopyright, t.copyrightLead, name, t.rightsReserved,
     t.footerBeforeServing, t.servingLead, audience, t.withExcellence, t.footerEnd]
  }

  /** The template filled in for one form. */
  function Render(t: MockText, d: FormData): string
  {
    Concat(Pieces(t, PrimaryColor(d.color), AccentColor(d.color), d.name, d.industry, d.audience, Slots(t, d)))
  }

  /** `generateMockWebsite(data)`: a function named App that starts by
      binding `React.createElement` to `h`. */
  function GenerateMockWebsite(d: FormData): (r: string)
    ensures StartsWith(r, Template.appOpening)
  {
    RenderStartsWithOpening(Template, d);
    Render(Template, d)
  }

  /** The output begins with the template's opening stretch. */
  lemma RenderStartsWithOpening(t: MockText, d: FormData)
    ensures StartsWith(Render(t, d), t.appOpening)
  {
    var p := Pieces(t, PrimaryColor(d.color), AccentColor(d.color), d.name, d.industry, d.audience, Slots(t, d));
    assert Render(t, d) == t.appOpening + Concat(p[1..]);
  }

  /** Every selected section's block appears in the output. */
  lemma MockHasSelectedBlocks(t: MockText, d: FormData, s: Section)
    requires SectionName(s) in d.sections
    ensures Contains(Render(t, d), Block(t, s, d.name, d.industry, d.audience))
  {
    var p := Pieces(t, PrimaryColor(d.color), AccentColor(d.color), d.name, d.industry, d.audience, Slots(t, d));
    ConcatContainsPiece(p, 10 + 2 * Rank(s));
  }

  /** The output depends on `sections` only through which of the six
      names it contains: order, repetitions and unknown names make no
      difference. */
  lemma MockDependsOnSelectionOnly(d1: FormData, d2: FormData)
    requires d1.name == d2.name && d1.industry == d2.industry
    requires d1.audience == d2.audience && d1.color == d2.color
    requires forall s: Section :: SectionName(s) in d1.sections <==> SectionName(s) in d2.sections
    ensures GenerateMockWebsite(d1) == GenerateMockWebsite(d2)
  {
    assert forall s: Section :: Slot(Template, s, d1) == Slot(Template, s, d2);
    assert Slots(Template, d1) == Slots(Template, d2);
  }

  /** Replacing one piece of a template replaces its text in place. */
  lemma ConcatReplace(p: seq<string>, i: nat, x: string)
    requires i < |p|
    ensures Concat(p) == Concat(p[..i]) + p[i] + Concat(p[i + 1..])
    ensures Concat(p[i := x]) == Concat(p[..i]) + x + Concat(p[i + 1..])
  {
    var q := p[i := x];
    assert p == p[..i] + ([p[i]] + p[i + 1..]);
    assert q == p[..i] + ([x] + p[i + 1..]);
    ConcatSplit(p[..i], [p[i]] + p[i + 1..]);
    ConcatSplit(p[..i], [x] + p[i + 1..]);
    assert ([p[i]] + p[i + 1..])[1..] == p[i + 1..];
    assert ([x] + p[i + 1..])[1..] == p[i + 1..];
  }

  /** Selecting an unselected section fills its slot and no other. */
  lemma SlotsAfterSelecting(t: MockText, d: FormData, s: Section)
    requires SectionName(s) !in d.sections
    ensures Slots(t, d.(sections := d.sections + [SectionName(s)]))
         == Slots(t, d)[Rank(s) := Block(t, s, d.name, d.industry, d.audience)]
  {
    var d' := d.(sections := d.sections + [SectionName(s)]);
    forall u: Section | u != s ensures Slot(t, u, d') == Slot(t, u, d) {
      SectionNamesDistinct(s, u);
    }
  }

  /** Changing one slot changes one piece. */
  lemma ReplaceSlot(t: MockText, primary: string, accent: string, name: string, industry: string,
                    audience: string, slots: seq<string>, k: nat, x: string)
    requires |slots| == 6 && k < 6
    ensures Pieces(t, primary, accent, name, industry, audience, slots[k := x])
         == Pieces(t, primary, accent, name, industry, audience, slots)[10 + 2 * k := x]
  {
  }

  /** Filling one more slot inserts its text between the same two parts. */
  lemma PiecesInsert(t: MockText, primary: string, accent: string, name: string, industry: string,
                     audience: string, slots: seq<string>, k: nat, x: string) returns (before: string, after: string)
    requires |slots| == 6 && k < 6 && slots[k] == ""
    ensures Concat(Pieces(t, primary, accent, name, industry, audience, slots)) == before + after
    ensures Concat(Pieces(t, primary, accent, name, industry, audience, slots[k := x])) == before + x + after
  {
    var p := Pieces(t, primary, accent, name, industry, audience, slots);
    ReplaceSlot(t, primary, accent, name, industry, audience, slots, k, x);
    var i := 10 + 2 * k;
    ConcatReplace(p, i, x);
    before, after := Concat(p[..i]), Concat(p[i + 1..]);
    assert p[i] == slots[k] == [];
    assert before + p[i] + after == before + after;
  }

  /** Selecting one more section puts exactly its block into its fixed
      slot and changes nothing else: each block appears iff its name is
      selected, always in the order About, Services, Products,
      Testimonials, Gallery, Contact. */
  lemma SelectingInsertsBlock(t: MockText, d: FormData, s: Section) returns (before: string, after: string)
    requires SectionName(s) !in d.sections
    ensures Render(t, d) == before + after
    ensures Render(t, d.(sections := d.sections + [SectionName(s)]))
         == before + Block(t, s, d.name, d.industry, d.audience) + after
  {
    var block := Block(t, s, d.name, d.industry, d.audience);
    var slots := Slots(t, d);
    SlotsAfterSelecting(t, d, s);
    before, after := PiecesInsert(t, PrimaryColor(d.color), AccentColor(d.color), d.name, d.industry, d.audience,
                                  slots, Rank(s), block);
  }

  /** Three consecutive pieces of a template occur together. */
  lemma PiecesTogether(p: seq<string>, i: nat)
    requires i + 3 <= |p|
    ensures Contains(Concat(p), p[i] + p[i + 1] + p[i + 2])
  {
    var run := p[i..i + 3];
    ConcatSlice(p, i, i + 3);
    assert run == [p[i], p[i + 1], p[i + 2]] by {
      assert |run| == 3 && run[0] == p[i] && run[1] == p[i + 1] && run[2] == p[i + 2];
    }
    ConcatThree(p[i], p[i + 1], p[i + 2]);
  }

  /** In every filling of the template, the name and the audience stand in
      their fixed surroundings. */
  lemma PiecesShowBusiness(t: MockText, primary: string, accent: string, name: string, industry: string,
                           audience: string, slots: seq<string>)
    requires |slots| == 6
    ensures var text := Concat(Pieces(t, primary, accent, name, industry, audience, slots));
      Contains(text, t.headBeforeName + name + t.headBeforeIndustry) &&
      Contains(text, t.copyrightLead + name + t.rightsReserved) &&
      Contains(text, t.servingLead + audience + t.withExcellence)
  {
    var p := Pieces(t, primary, accent, name, industry, audience, slots);
    PiecesTogether(p, 5);
    PiecesTogether(p, 22);
    PiecesTogether(p, 26);
  }

  /** The header shows the name, and the footer the copyright line with the
      name and the line serving the audience. */
  lemma MockShowsBusiness(t: MockText, d: FormData)
    ensures Contains(Render(t, d), t.headBeforeName + d.name + t.headBeforeIndustry)
    ensures Contains(Render(t, d), t.copyrightLead + d.name + t.rightsReserved)
    ensures Contains(Render(t, d), t.servingLead + d.audience + t.withExcellence)
  {
    PiecesShowBusiness(t, PrimaryColor(d.color), AccentColor(d.color), d.name, d.industry, d.audience, Slots(t, d));
  }

  /** The Contact block gives the address "contact@" + slug + ".com". */
  lemma ContactShowsEmail(t: MockText, d: FormData)
    requires SectionName(Contact) in d.sections
    ensures Contains(Render(t, d), t.emailLead + EmailSlug(d.name) + t.emailTail)
  {
    var email := t.emailLead + EmailSlug(d.name) + t.emailTail;
    var block := Block(t, Contact, d.name, d.industry, d.audience);
    MockHasSelectedBlocks(t, d, Contact);
    assert block == t.contactBeforeEmail + email + t.contactEnd;
    ContainsMiddle(t.contactBeforeEmail, email, t.contactEnd);
    ContainsTrans(Render(t, d), block, email);
  }
}
