/** The server's request check (`validateInput`): an ordered list of
    presence, type and size checks that stops at the first failure. */
module Validator {
  import opened JsText
  import opened Json

  /** The opening every message of this check shares. */
  const InvalidInput := InvalidWord + " input: "

  const NotAnObject := InvalidInput + "data must be an object"
  const NameRequired := InvalidInput + "Business name is required"
  const IndustryRequired := InvalidInput + "Industry is required"
  const AudienceRequired := InvalidInput + "Target audience is required"
  const SectionsNotArray := InvalidInput + "Sections must be an array"
  const NameTooLong := InvalidInput + "Business name is too long (max 100 characters)"
  const IndustryTooLong := InvalidInput + "Industry is too long (max 100 characters)"
  const AudienceTooLong := InvalidInput + "Target audience is too long (max 200 characters)"
  const ColorTooLong := InvalidInput + "Color theme is too long (max 50 characters)"
  const TooManySections := InvalidInput + "Too many sections (max 10)"

  const MaxNameLength := 100
  const MaxIndustryLength := 100
  const MaxAudienceLength := 200
  const MaxColorLength := 50
  const MaxSections := 10
  /** The number of checks, counting the colour length's conversion. */
  const CheckCount := 11

  /** Returning normally, or throwing an Error with a message. */
  datatype Outcome = Pass | Fail(message: string)

  /** `!v || typeof v !== 'string' || v.trim().length === 0`. */
  predicate MissingText(v: Json)
  {
    !Truthy(v) || !v.JStr? || Trim(v.s) == []
  }

  /** `validateInput(data)`: it returns normally exactly for a valid
      request (`ValidRequest`, stated field by field below). */
  function ValidateInput(data: Json): (r: Outcome)
    ensures r == Pass <==> ValidRequest(data)
  {
    if !Truthy(data) || !IsObjectType(data) then Fail(NotAnObject)
    else if MissingText(Get(data, "name")) then Fail(NameRequired)
    else if MissingText(Get(data, "industry")) then Fail(IndustryRequired)
    else if MissingText(Get(data, "audience")) then Fail(AudienceRequired)
    else if !Get(data, "sections").JArr? then Fail(SectionsNotArray)
    else if |Get(data, "name").s| > MaxNameLength then Fail(NameTooLong)
    else if |Get(data, "industry").s| > MaxIndustryLength then Fail(IndustryTooLong)
    else if |Get(data, "audience").s| > MaxAudienceLength then Fail(AudienceTooLong)
    else if Truthy(Get(data, "color")) && !LengthComparable(Get(data, "color")) then Fail(CannotConvert)
    else if Truthy(Get(data, "color")) && LongerThan(Get(data, "color"), MaxColorLength) then Fail(ColorTooLong)
    else if |Get(data, "sections").items| > MaxSections then Fail(TooManySections)
    else Pass
  }

  /** A string trims to nothing exactly when it is all whitespace. */
  lemma TextBlankness(v: Json)
    ensures v.JStr? ==> (Trim(v.s) == [] <==> forall k :: 0 <= k < |v.s| ==> IsSpace(v.s[k]))
  {
    if v.JStr? {
      TrimEmptyIffBlank(v.s);
    }
  }

  /** A non-blank string of at most `max` characters (the untrimmed length
      counts). */
  predicate BoundedText(v: Json, max: nat)
  {
    v.JStr? && Trim(v.s) != [] && |v.s| <= max
  }

  /** The request the rest of the server may rely on, stated field by field. */
  predicate ValidRequest(data: Json)
  {
    data.JObj?
    && BoundedText(Get(data, "name"), MaxNameLength)
    && BoundedText(Get(data, "industry"), MaxIndustryLength)
    && BoundedText(Get(data, "audience"), MaxAudienceLength)
    && Get(data, "sections").JArr? && |Get(data, "sections").items| <= MaxSections
    && (Truthy(Get(data, "color")) ==>
          LengthComparable(Get(data, "color")) && !LongerThan(Get(data, "color"), MaxColorLength))
  }

  /** The eleven checks in source order, each stated on its own. The
      colour's length test can fail in two ways: its conversion throws
      (check 8), or it is above the bound (check 9). */
  predicate CheckHolds(k: nat, data: Json)
    requires k < CheckCount
  {
    var name, industry, audience := Get(data, "name"), Get(data, "industry"), Get(data, "audience");
    var color, sections := Get(data, "color"), Get(data, "sections");
    if k == 0 then Truthy(data) && IsObjectType(data)
    else if k == 1 then !MissingText(name)
    else if k == 2 then !MissingText(industry)
    else if k == 3 then !MissingText(audience)
    else if k == 4 then sections.JArr?
    else if k == 5 then !LongerThan(name, MaxNameLength)
    else if k == 6 then !LongerThan(industry, MaxIndustryLength)
    else if k == 7 then !LongerThan(audience, MaxAudienceLength)
    else if k == 8 then !Truthy(color) || LengthComparable(color)
    else if k == 9 then !Truthy(color) || !LongerThan(color, MaxColorLength)
    else !LongerThan(sections, MaxSections)
  }

  /** The error message of each check. */
  function CheckMessage(k: nat): string
    requires k < CheckCount
  {
    if k == 0 then NotAnObject
    else if k == 1 then NameRequired
    else if k == 2 then IndustryRequired
    else if k == 3 then AudienceRequired
    else if k == 4 then SectionsNotArray
    else if k == 5 then NameTooLong
    else if k == 6 then IndustryTooLong
    else if k == 7 then AudienceTooLong
    else if k == 8 then CannotConvert
    else if k == 9 then ColorTooLong
    else TooManySections
  }

  /** The checks report different messages. */
  lemma MessagesDistinct(j: nat, k: nat)
    requires j < CheckCount && k < CheckCount && j != k
    ensures CheckMessage(j) != CheckMessage(k)
  {
    assert |CheckMessage(j)| != |CheckMessage(k)| || CheckMessage(j)[0] != CheckMessage(k)[0] ||
      CheckMessage(j)[15] != CheckMessage(k)[15];
  }

  /** Every check's own message opens with "Invalid input: ". The
      conversion error of check 8 comes from the engine and does not
      contain "Invalid" at all. */
  lemma CheckMessageOpening(k: nat)
    requires k < CheckCount
    ensures CheckMessage(k) != CannotConvert ==> StartsWith(CheckMessage(k), InvalidInput) && Contains(CheckMessage(k), InvalidWord)
    ensures CheckMessage(k) == CannotConvert ==> k == 8 && !Contains(CheckMessage(k), InvalidWord)
  {
    if k == 8 {
      CannotConvertLacksInvalid();
      return;
    }
    MessagesDistinct(k, 8);
    var m := CheckMessage(k);
    var rest := m[|InvalidInput|..];
    assert m == InvalidInput + rest;
    ContainsPrefix(InvalidInput, rest);
    ContainsPrefix(InvalidWord, " input: ");
    ContainsTrans(m, InvalidInput, InvalidWord);
  }

  /** The conversion error's text has no capital I, so no "Invalid". */
  lemma CannotConvertLacksInvalid()
    ensures !Contains(CannotConvert, InvalidWord)
  {
    assert InvalidWord[0] == 'I';
    assert forall k :: 0 <= k < |CannotConvert| ==> CannotConvert[k] != 'I';
    NotContainsWithoutFirst(CannotConvert, InvalidWord);
  }

  /** The outcome the ordered checks give: the message of the first check
      (from `i` on) that fails, or a normal return. */
  function FirstFailureFrom(data: Json, i: nat): Outcome
    requires i <= CheckCount
    decreases CheckCount - i
  {
    if i == CheckCount then Pass
    else if !CheckHolds(i, data) then Fail(CheckMessage(i))
    else FirstFailureFrom(data, i + 1)
  }

  /** The chain of `if`s in the source is the ordered check list. */
  lemma ValidateInputIsFirstFailure(data: Json)
    ensures ValidateInput(data) == FirstFailureFrom(data, 0)
  {
    assert FirstFailureFrom(data, 4) == if !CheckHolds(4, data) then Fail(SectionsNotArray) else FirstFailureFrom(data, 5);
    assert FirstFailureFrom(data, 3) == if !CheckHolds(3, data) then Fail(AudienceRequired) else FirstFailureFrom(data, 4);
    assert FirstFailureFrom(data, 2) == if !CheckHolds(2, data) then Fail(IndustryRequired) else FirstFailureFrom(data, 3);
    assert FirstFailureFrom(data, 1) == if !CheckHolds(1, data) then Fail(NameRequired) else FirstFailureFrom(data, 2);
    assert FirstFailureFrom(data, 0) == if !CheckHolds(0, data) then Fail(NotAnObject) else FirstFailureFrom(data, 1);
    if forall j :: 0 <= j < 5 ==> CheckHolds(j, data) {
      SizeChecksAreFirstFailure(data);
    }
  }

  /** Once the presence and type checks pass, the size checks that follow
      are the rest of the list. */
  lemma SizeChecksAreFirstFailure(data: Json)
    requires forall j :: 0 <= j < 5 ==> CheckHolds(j, data)
    ensures ValidateInput(data) == FirstFailureFrom(data, 5)
  {
    assert CheckHolds(0, data) && CheckHolds(1, data) && CheckHolds(2, data) && CheckHolds(3, data) && CheckHolds(4, data);
    ColorChecksAreFirstFailure(data);
    assert FirstFailureFrom(data, 7) == if !CheckHolds(7, data) then Fail(AudienceTooLong) else FirstFailureFrom(data, 8);
    assert FirstFailureFrom(data, 6) == if !CheckHolds(6, data) then Fail(IndustryTooLong) else FirstFailureFrom(data, 7);
    assert FirstFailureFrom(data, 5) == if !CheckHolds(5, data) then Fail(NameTooLong) else FirstFailureFrom(data, 6);
  }

  /** The last three checks, on the colour and the section count. */
  lemma ColorChecksAreFirstFailure(data: Json)
    ensures FirstFailureFrom(data, 8) ==
      if !CheckHolds(8, data) then Fail(CannotConvert)
      else if !CheckHolds(9, data) then Fail(ColorTooLong)
      else if !CheckHolds(10, data) then Fail(TooManySections)
      else Pass
  {
    assert FirstFailureFrom(data, 10) == if !CheckHolds(10, data) then Fail(TooManySections) else Pass;
    assert FirstFailureFrom(data, 9) == if !CheckHolds(9, data) then Fail(ColorTooLong) else FirstFailureFrom(data, 10);
  }

  /** Checks after `k` never report the message of check `k`. */
  lemma {:induction false} FirstFailureFromAfter(data: Json, i: nat, k: nat)
    requires k < i <= CheckCount
    ensures FirstFailureFrom(data, i) != Fail(CheckMessage(k))
    decreases CheckCount - i
  {
    if i < CheckCount {
      if !CheckHolds(i, data) {
        MessagesDistinct(i, k);
      } else {
        FirstFailureFromAfter(data, i + 1, k);
      }
    }
  }

  /** From `i` on, the outcome names check `k` exactly when `k` is the first
      failing one. */
  lemma {:induction false} FirstFailureFromIff(data: Json, i: nat, k: nat)
    requires i <= k < CheckCount
    ensures FirstFailureFrom(data, i) == Fail(CheckMessage(k)) <==>
      (!CheckHolds(k, data) && forall j :: i <= j < k ==> CheckHolds(j, data))
    decreases CheckCount - i
  {
    if i == k {
      if CheckHolds(k, data) {
        FirstFailureFromAfter(data, k + 1, k);
      }
    } else if !CheckHolds(i, data) {
      MessagesDistinct(i, k);
    } else {
      FirstFailureFromIff(data, i + 1, k);
    }
  }

  /** A failure reports the first failing check in source order: the call
      fails with the message of check `k` exactly when check `k` fails and
      every earlier check holds. */
  lemma ValidateInputFirstFailure(data: Json, k: nat)
    requires k < CheckCount
    ensures ValidateInput(data) == Fail(CheckMessage(k)) <==>
      (!CheckHolds(k, data) && forall j :: 0 <= j < k ==> CheckHolds(j, data))
  {
    ValidateInputIsFirstFailure(data);
    FirstFailureFromIff(data, 0, k);
  }

  /** The ordered checks only ever report one of the eleven check messages. */
  lemma {:induction false} FirstFailureFromNamesCheck(data: Json, i: nat)
    requires i <= CheckCount
    ensures FirstFailureFrom(data, i).Fail? ==>
      exists k :: i <= k < CheckCount && FirstFailureFrom(data, i) == Fail(CheckMessage(k))
    decreases CheckCount - i
  {
    if i < CheckCount && CheckHolds(i, data) {
      FirstFailureFromNamesCheck(data, i + 1);
    }
  }

  /** Every rejection's message opens with "Invalid input: ", so the server
      answers it with status 400, except the conversion error of the
      colour's length, which lacks "Invalid" and is answered with 500. */
  lemma ValidationFailureMentionsInvalid(data: Json)
    ensures ValidateInput(data).Fail? && ValidateInput(data).message != CannotConvert ==>
      StartsWith(ValidateInput(data).message, InvalidInput) && Contains(ValidateInput(data).message, InvalidWord)
    ensures ValidateInput(data).Fail? && ValidateInput(data).message == CannotConvert ==>
      !Contains(ValidateInput(data).message, InvalidWord)
  {
    ValidateInputIsFirstFailure(data);
    FirstFailureMessageForm(data);
  }

  /** The same statement for the ordered check list. */
  lemma FirstFailureMessageForm(data: Json)
    ensures FirstFailureFrom(data, 0).Fail? && FirstFailureFrom(data, 0).message != CannotConvert ==>
      StartsWith(FirstFailureFrom(data, 0).message, InvalidInput) && Contains(FirstFailureFrom(data, 0).message, InvalidWord)
    ensures FirstFailureFrom(data, 0).Fail? && FirstFailureFrom(data, 0).message == CannotConvert ==>
      !Contains(FirstFailureFrom(data, 0).message, InvalidWord)
  {
    FirstFailureFromNamesCheck(data, 0);
    if FirstFailureFrom(data, 0).Fail? {
      var k :| 0 <= k < CheckCount && FirstFailureFrom(data, 0) == Fail(CheckMessage(k));
      CheckMessageOpening(k);
    }
  }

  /** The size limits are on the raw length: a name of exactly 100
      characters passes that check and one of 101 fails it, whatever the
      surrounding whitespace. */
  lemma NameLengthBoundary(data: Json)
    requires Get(data, "name").JStr?
    requires forall j :: 0 <= j < 5 ==> CheckHolds(j, data)
    ensures |Get(data, "name").s| == 100 ==> ValidateInput(data) != Fail(NameTooLong)
    ensures |Get(data, "name").s| == 101 ==> ValidateInput(data) == Fail(NameTooLong)
  {
    ValidateInputFirstFailure(data, 5);
  }

  /** An absent or empty colour never fails either colour check. */
  lemma FalsyColorPasses(data: Json)
    requires !Truthy(Get(data, "color"))
    ensures ValidateInput(data) != Fail(ColorTooLong)
    ensures ValidateInput(data) != Fail(CannotConvert)
  {
    ValidateInputFirstFailure(data, 8);
    ValidateInputFirstFailure(data, 9);
  }

  /** Sections are checked for array-ness only after the three required
      fields: a request missing its name reports the name even when its
      sections are not an array. */
  lemma NameReportedBeforeSections(data: Json)
    requires data.JObj? && MissingText(Get(data, "name")) && !Get(data, "sections").JArr?
    ensures ValidateInput(data) == Fail(NameRequired)
  {
  }

  /** An object colour's `length` is converted by `Number` before the
      comparison: the number n, its text and the one-element array [n] all
      convert, and all count as n. */
  lemma ColorLengthConverted(color: Json, n: int)
    requires color.JObj?
    requires Get(color, "length") in {JNum(n), JStr(ToJsString(JNum(n))), JArr([JNum(n)])}
    ensures LengthComparable(color)
    ensures LongerThan(color, MaxColorLength) <==> n > MaxColorLength
  {
    NumberStringRoundTrip(n);
    SingletonArrayNumber(n);
    IntegerGreaterThan(n, MaxColorLength);
  }

  /** A failing colour-length comparison after nine passing checks is what
      the call reports. */
  lemma ColorCheckReported(data: Json)
    requires forall j :: 0 <= j < 9 ==> CheckHolds(j, data)
    requires !CheckHolds(9, data)
    ensures ValidateInput(data) == Fail(ColorTooLong)
  {
    ValidateInputFirstFailure(data, 9);
    assert ValidateInput(data) == Fail(CheckMessage(9));
  }

  /** So a colour object whose `length` is the text of an integer above 50
      (such as "51") or a one-element array holding one (such as [51]) is
      rejected as too long, once the earlier checks pass. */
  lemma ConvertedColorLengthRejected(data: Json, n: int)
    requires forall j :: 0 <= j < 8 ==> CheckHolds(j, data)
    requires Get(data, "color").JObj? && n > MaxColorLength
    requires Get(Get(data, "color"), "length") in {JStr(ToJsString(JNum(n))), JArr([JNum(n)])}
    ensures ValidateInput(data) == Fail(ColorTooLong)
  {
    var color := Get(data, "color");
    ColorLengthConverted(color, n);
    assert CheckHolds(8, data) && !CheckHolds(9, data) by {
      assert Truthy(color) && LengthComparable(color) && LongerThan(color, MaxColorLength);
    }
    ColorCheckReported(data);
  }

  /** A colour object whose `length` is itself an object with its own
      "toString" key makes the comparison throw the conversion TypeError,
      once the earlier checks pass. */
  lemma UnconvertibleColorLengthThrows(data: Json)
    requires forall j :: 0 <= j < 8 ==> CheckHolds(j, data)
    requires Get(data, "color").JObj?
    requires Get(Get(data, "color"), "length").JObj? && "toString" in Get(Get(data, "color"), "length").fields
    ensures ValidateInput(data) == Fail(CannotConvert)
  {
    ValidateInputFirstFailure(data, 8);
    assert ValidateInput(data) == Fail(CheckMessage(8));
  }

  /** Near the bound the length is compared after `Number` rounds it: a
      `length` of "50." followed by n - 1 zeros and a 1 (the value
      50 + 10^-n) fails the check exactly for n up to 14. So
      "50.00000000000001" is too long, and "50.000000000000001" reads as
      50 and passes. */
  lemma ColorLengthRounded(color: Json, zeros: string)
    requires color.JObj? && forall k :: 0 <= k < |zeros| ==> zeros[k] == '0'
    requires Get(color, "length") == JStr("50" + "." + (zeros + "1"))
    ensures LengthComparable(color)
    ensures LongerThan(color, MaxColorLength) <==> |zeros| < 14
  {
    var n := |zeros| + 1;
    FiftyPointOne(zeros);
    assert ToNumber(Get(color, "length")) == Decimal(50 * Pow10(n) + 1, n);
    assert LongerThan(color, MaxColorLength) == GreaterThan(Decimal(50 * Pow10(n) + 1, n), 50);
    FiftyPlusTenPowerRounding(n);
  }
}
