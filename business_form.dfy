/** The business details form: the record it collects, the text-field
    update, and the section buttons that toggle names in and out of the
    selected list. */
module BusinessForm {
  import opened JsText

  /** `{ name, industry, audience, color, sections }` as the form holds it. */
  datatype FormData = FormData(name: string, industry: string, audience: string, color: string,
                               sections: seq<string>)

  /** The section buttons the form offers, in display order. */
  const SectionsList: seq<string> := ["About", "Services", "Products", "Contact", "Testimonials"]

  /** The state the form starts in. */
  const EmptyForm: FormData := FormData("", "", "", "", [])

  /** The `name` attributes of the four text inputs. */
  datatype Field = Name | Industry | Audience | Color

  /** `{ ...prev, [field]: value }`. */
  function WithField(d: FormData, field: Field, value: string): (r: FormData)
    ensures r.sections == d.sections
    ensures r.name == (if field == Name then value else d.name)
    ensures r.industry == (if field == Industry then value else d.industry)
    ensures r.audience == (if field == Audience then value else d.audience)
    ensures r.color == (if field == Color then value else d.color)
  {
    match field
    case Name => d.(name := value)
    case Industry => d.(industry := value)
    case Audience => d.(audience := value)
    case Color => d.(color := value)
  }

  /** `xs.filter(s => s !== x)`: every occurrence of `x` goes, every other
      entry stays, in order. */
  function Without(xs: seq<string>, x: string): (r: seq<string>)
    ensures x !in r
    ensures IsSubsequence(r, xs)
    ensures multiset(r) == multiset(xs)[x := 0]
  {
    if xs == [] then []
    else if xs[0] == x then
      assert xs == [xs[0]] + xs[1..];
      SubsequenceDrop(Without(xs[1..], x), xs, 1);
      Without(xs[1..], x)
    else
      var rest := Without(xs[1..], x);
      assert xs == [xs[0]] + xs[1..];
      SubsequenceCons(xs[0], rest, xs[1..]);
      [xs[0]] + rest
  }

  /** A list without `x` is its own filter. */
  lemma {:induction false} WithoutAbsent(xs: seq<string>, x: string)
    requires x !in xs
    ensures Without(xs, x) == xs
  {
    if xs != [] {
      assert xs[0] != x;
      WithoutAbsent(xs[1..], x);
      assert xs == [xs[0]] + xs[1..];
    }
  }

  /** Filtering distributes over concatenation. */
  lemma {:induction false} WithoutAppend(xs: seq<string>, ys: seq<string>, x: string)
    ensures Without(xs + ys, x) == Without(xs, x) + Without(ys, x)
  {
    if xs == [] {
      assert xs + ys == ys;
    } else {
      assert (xs + ys)[1..] == xs[1..] + ys;
      WithoutAppend(xs[1..], ys, x);
    }
  }

  /** `prev.sections.includes(section) ? filter : [...prev.sections, section]`. */
  function Toggle(xs: seq<string>, x: string): (r: seq<string>)
    ensures x in r <==> x !in xs
    ensures x in xs ==> IsSubsequence(r, xs)
    ensures x !in xs ==> IsSubsequence(xs, r) && |r| == |xs| + 1
  {
    SubsequenceOfAppend(xs, [x]);
    if x in xs then Without(xs, x) else xs + [x]
  }

  /** After a toggle, `x` is selected exactly when it was not before, and
      every other name keeps its selection. */
  lemma ToggleMembership(xs: seq<string>, x: string, y: string)
    ensures y in Toggle(xs, x) <==> (if y == x then x !in xs else y in xs)
  {
    if x in xs {
      var r := Without(xs, x);
      if y != x {
        assert multiset(r)[y] == multiset(xs)[y];
        assert y in r <==> multiset(r)[y] > 0;
        assert y in xs <==> multiset(xs)[y] > 0;
      }
    }
  }

  /** Toggling an absent name appends it at the end; toggling it again
      gives back the list that was there before. */
  lemma ToggleTwiceRestores(xs: seq<string>, x: string)
    requires x !in xs
    ensures Toggle(xs, x) == xs + [x]
    ensures Toggle(Toggle(xs, x), x) == xs
  {
    WithoutAppend(xs, [x], x);
    WithoutAbsent(xs, x);
    assert Without([x], x) == [];
  }

  predicate NoDuplicates(xs: seq<string>)
  {
    forall i, j :: 0 <= i < j < |xs| ==> xs[i] != xs[j]
  }

  /** Dropping entries keeps a duplicate-free list duplicate-free. */
  lemma {:induction false} SubsequenceNoDuplicates(ys: seq<string>, xs: seq<string>)
    requires IsSubsequence(ys, xs) && NoDuplicates(xs)
    ensures NoDuplicates(ys)
  {
    if ys != [] && xs != [] {
      if ys[0] == xs[0] {
        SubsequenceNoDuplicates(ys[1..], xs[1..]);
        forall j | 0 < j < |ys| ensures ys[0] != ys[j] {
          assert ys[j] in ys[1..];
          SubsequenceMembership(ys[1..], xs[1..], ys[j]);
          var k :| 0 <= k < |xs[1..]| && xs[1..][k] == ys[j];
          assert xs[k + 1] == ys[j];
        }
      } else {
        SubsequenceNoDuplicates(ys, xs[1..]);
      }
    }
  }

  /** Every element of a subsequence is an element of the list. */
  lemma {:induction false} SubsequenceMembership(ys: seq<string>, xs: seq<string>, y: string)
    requires IsSubsequence(ys, xs) && y in ys
    ensures y in xs
  {
    assert xs != [];
    if ys[0] == xs[0] {
      if y != ys[0] {
        assert ys == [ys[0]] + ys[1..];
        SubsequenceMembership(ys[1..], xs[1..], y);
      }
    } else {
      SubsequenceMembership(ys, xs[1..], y);
    }
  }

  /** The selection never holds a name twice, however the buttons are
      pressed. */
  lemma TogglePreservesNoDuplicates(xs: seq<string>, x: string)
    requires NoDuplicates(xs)
    ensures NoDuplicates(Toggle(xs, x))
  {
    if x in xs {
      SubsequenceNoDuplicates(Without(xs, x), xs);
    }
  }

  /** Pressing only the offered buttons keeps the selection within the
      offered names. */
  lemma ToggleStaysInList(xs: seq<string>, x: string)
    requires forall y :: y in xs ==> y in SectionsList
    requires x in SectionsList
    ensures forall y :: y in Toggle(xs, x) ==> y in SectionsList
  {
    forall y | y in Toggle(xs, x) ensures y in SectionsList {
      ToggleMembership(xs, x, y);
    }
  }

  /** The form's state and its event handlers. */
  class Form {
    var formData: FormData

    /** `useState({ name: "", industry: "", audience: "", color: "", sections: [] })`. */
    constructor ()
      ensures formData == EmptyForm
    {
      formData := EmptyForm;
    }

    /** `handleChange`: the input named `field` now holds `value`. */
    method HandleChange(field: Field, value: string)
      modifies this
      ensures formData == WithField(old(formData), field, value)
    {
      formData := WithField(formData, field, value);
    }

    /** `toggleSection`. */
    method ToggleSection(section: string)
      modifies this
      ensures formData == old(formData).(sections := Toggle(old(formData).sections, section))
    {
      formData := formData.(sections := Toggle(formData.sections, section));
    }

    /** The class of a section button: "tag active" while it is selected. */
    function TagClass(section: string): (r: string)
      reads this
      ensures r == "tag active" <==> section in formData.sections
      ensures r == "tag" <==> section !in formData.sections
    {
      if section in formData.sections then "tag active" else "tag"
    }

    /** `handleSubmit`: hands the form data over as it is. */
    method HandleSubmit() returns (submitted: FormData)
      ensures submitted == formData
    {
      submitted := formData;
    }
  }
}
