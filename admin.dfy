/** The admin upload form: a schema of minimum-length rules on three text
    fields, empty defaults, and a reset after a successful submit. */
module Admin {
  import opened Wrappers

  /** The validated text fields, in schema order. */
  datatype Field = Title | Category | Description

  /** One validation issue: the field it belongs to and the message shown under it. */
  datatype FieldError = FieldError(field: Field, message: string)

  /** The form's values. The schema's `image` rule (`z.any()`) accepts any
      value; the page's file input is not bound to the form, so the key only
      ever holds `undefined`, which is `None`. `Some` stands for any other value. */
  datatype FormValues = FormValues(title: string, category: string, description: string, image: Option<string>)

  /** `defaultValues`: every text field empty, no image. */
  const DefaultValues := FormValues("", "", "", None)

  /** The text a field holds. */
  function Text(v: FormValues, f: Field): string {
    match f
    case Title => v.title
    case Category => v.category
    case Description => v.description
  }

  /** The minimum length of each field's `z.string().min(n, ...)` rule. */
  function MinLength(f: Field): nat {
    match f
    case Title => 2
    case Category => 2
    case Description => 10
  }

  /** The message of each field's rule. */
  function Message(f: Field): string {
    match f
    case Title => "Project title must be at least 2 characters."
    case Category => "Category is required (e.g., Residential, Commercial)."
    case Description => "Description must be at least 10 characters."
  }

  /** A field satisfies its rule. */
  predicate FieldValid(v: FormValues, f: Field) {
    |Text(v, f)| >= MinLength(f)
  }

  /** One `z.string().min(n, { message })` rule on one field. */
  function CheckMin(f: Field, text: string, n: nat, message: string): (r: seq<FieldError>)
    ensures |r| <= 1
    ensures forall e :: e in r <==> |text| < n && e == FieldError(f, message)
  {
    if |text| < n then [FieldError(f, message)] else []
  }

  /** A field's position in the schema. */
  function Rank(f: Field): nat {
    match f
    case Title => 0
    case Category => 1
    case Description => 2
  }

  /** `formSchema`: the issues of the three text rules, in schema order; the
      `image` rule accepts anything. */
  function Validate(v: FormValues): (errs: seq<FieldError>)
    ensures errs == [] <==> |v.title| >= 2 && |v.category| >= 2 && |v.description| >= 10
    ensures forall f :: FieldError(f, Message(f)) in errs <==> !FieldValid(v, f)
    ensures forall e :: e in errs ==> !FieldValid(v, e.field) && e.message == Message(e.field)
    ensures forall i, j :: 0 <= i < j < |errs| ==> Rank(errs[i].field) < Rank(errs[j].field)
  {
    var t := CheckMin(Title, v.title, MinLength(Title), Message(Title));
    var c := CheckMin(Category, v.category, MinLength(Category), Message(Category));
    var d := CheckMin(Description, v.description, MinLength(Description), Message(Description));
    IssuesInSchemaOrder(t, c, d);
    t + c + d
  }

  /** The issues of three single-field rules, one after the other, come in
      schema order and are exactly the issues of the parts. */
  lemma IssuesInSchemaOrder(t: seq<FieldError>, c: seq<FieldError>, d: seq<FieldError>)
    requires |t| <= 1 && |c| <= 1 && |d| <= 1
    requires forall e :: e in t ==> e.field == Title
    requires forall e :: e in c ==> e.field == Category
    requires forall e :: e in d ==> e.field == Description
    ensures forall e :: e in t + c + d <==> e in t || e in c || e in d
    ensures forall i, j :: 0 <= i < j < |t + c + d| ==> Rank((t + c + d)[i].field) < Rank((t + c + d)[j].field)
  {
    var errs := t + c + d;
    forall k | 0 <= k < |errs|
      ensures Rank(errs[k].field) == if k < |t| then 0 else if k < |t| + |c| then 1 else 2
    {
      if k < |t| {
        assert errs[k] == t[k] && t[k] in t;
      } else if k < |t| + |c| {
        assert errs[k] == c[k - |t|] && c[k - |t|] in c;
      } else {
        assert errs[k] == d[k - |t| - |c|] && d[k - |t| - |c|] in d;
      }
    }
  }

  /** The image value never decides validity. */
  lemma ImageUnconstrained(v: FormValues, image: Option<string>)
    ensures Validate(v.(image := image)) == Validate(v)
  {
  }

  /** The empty defaults fail every text rule, each with its own message. */
  lemma DefaultsFailEveryField()
    ensures Validate(DefaultValues) == [
      FieldError(Title, Message(Title)),
      FieldError(Category, Message(Category)),
      FieldError(Description, Message(Description))]
  {
  }

  /** The form state held by the page. */
  class AdminForm {
    var values: FormValues

    /** `useForm({ defaultValues })`. */
    constructor ()
      ensures values == DefaultValues
    {
      values := DefaultValues;
    }

    /** A field control's change: the typed text replaces the field's value. */
    method Edit(f: Field, text: string)
      modifies this
      ensures Text(values, f) == text
      ensures forall g :: g != f ==> Text(values, g) == Text(old(values), g)
      ensures values.image == old(values).image
    {
      match f
      case Title => values := values.(title := text);
      case Category => values := values.(category := text);
      case Description => values := values.(description := text);
    }

    /** `form.handleSubmit(onSubmit)`: with issues, nothing is submitted, the
        values stay and the issues are reported; without, `onSubmit` receives
        the values and resets the form to its defaults. */
    method Submit() returns (submitted: Option<FormValues>, errs: seq<FieldError>)
      modifies this
      ensures errs == Validate(old(values))
      ensures errs == [] ==> submitted == Some(old(values)) && values == DefaultValues
      ensures errs != [] ==> submitted == None && values == old(values)
    {
      errs := Validate(values);
      if errs == [] {
        submitted := Some(values);
        values := DefaultValues;
      } else {
        submitted := None;
      }
    }
  }
}
