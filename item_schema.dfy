/** The validation schema of the catalog item form. src/components/ItemManagement.tsx and
    src/components/item-management/ItemForm.tsx declare the same schema word for word; it is modelled
    once here. Parsing the price text (`parseFloat`, with NaN as `None`) is a parameter. String
    lengths are JavaScript's `length`, counted in UTF-16 code units. */
module ItemSchema {
  import opened Wrappers
  import opened Storage
  import opened Text

  /** The raw form values; `description` is optional. */
  datatype FormValues = FormValues(name: string, category: string, price: string, description: Option<string>)

  /** The values once the schema accepted them, with the category as the enum and the parsed price. */
  datatype ItemData = ItemData(name: string, category: Category, price: real, description: Option<string>)

  /** A failed rule; a rejected category carries the text that was received. */
  datatype Issue = NameTooShort | NameTooLong | InvalidCategory(received: string) | PriceNotPositive | DescriptionTooLong

  /** The messages the schema attaches to each rule. */
  function Message(i: Issue): string {
    match i
    case NameTooShort => "Name must be at least 2 characters"
    case NameTooLong => "Name must be less than 50 characters"
    case InvalidCategory(received) =>
      "Invalid enum value. Expected 'pizza' | 'topping' | 'beverage' | 'other', received '" + received + "'"
    case PriceNotPositive => "Price must be a positive number"
    case DescriptionTooLong => "Description must be less than 200 characters"
  }

  const MinNameLength: nat := 2
  const MaxNameLength: nat := 50
  const MaxDescriptionLength: nat := 200

  /** `z.string().min(2).max(50)`: both bounds are inclusive and count UTF-16 code units. */
  function NameIssues(name: string): (r: seq<Issue>)
    ensures r == [] <==> MinNameLength <= Utf16Length(name) <= MaxNameLength
    ensures Utf16Length(name) < MinNameLength ==> r == [NameTooShort]
    ensures Utf16Length(name) > MaxNameLength ==> r == [NameTooLong]
  {
    var n := Utf16Length(name);
    (if n < MinNameLength then [NameTooShort] else []) +
    (if n > MaxNameLength then [NameTooLong] else [])
  }

  /** A name fifty code units long passes, although the message speaks of fewer than 50. */
  lemma FiftyCharacterNameAccepted(name: string)
    requires Utf16Length(name) == 50
    ensures NameIssues(name) == [] && Message(NameTooLong) == "Name must be less than 50 characters"
  {
  }

  /** One character above U+FFFF is two code units, so it is a name long enough to pass. */
  lemma {:induction false} AstralCharacterCountsTwice()
    ensures |"\U{1F600}"| == 1 && Utf16Length("\U{1F600}") == 2
    ensures NameIssues("\U{1F600}") == []
  {
    assert "\U{1F600}"[..0] == [];
  }

  function CategoryName(c: Category): string {
    match c
    case Pizza => "pizza"
    case Topping => "topping"
    case Beverage => "beverage"
    case Other => "other"
  }

  /** `z.enum(['pizza', 'topping', 'beverage', 'other'])`. */
  function ParseCategory(s: string): (r: Option<Category>)
    ensures r.Some? <==> s == "pizza" || s == "topping" || s == "beverage" || s == "other"
    ensures r.Some? ==> CategoryName(r.value) == s
  {
    if s == "pizza" then Some(Pizza)
    else if s == "topping" then Some(Topping)
    else if s == "beverage" then Some(Beverage)
    else if s == "other" then Some(Other)
    else None
  }

  lemma CategoryRoundTrip(c: Category)
    ensures ParseCategory(CategoryName(c)) == Some(c)
  {
  }

  /** The price refinement: the text must parse to a number strictly above 0. */
  function PriceIssues(price: string, parse: string -> Option<real>): (r: seq<Issue>)
    ensures r == [] <==> parse(price).Some? && parse(price).value > 0.0
    ensures r != [] ==> r == [PriceNotPositive]
  {
    match parse(price)
    case Some(v) => if v > 0.0 then [] else [PriceNotPositive]
    case None => [PriceNotPositive]
  }

  /** `z.string().max(200).optional()`: absent, or at most 200 code units. */
  function DescriptionIssues(d: Option<string>): (r: seq<Issue>)
    ensures r == [] <==> d.None? || Utf16Length(d.value) <= MaxDescriptionLength
    ensures r != [] ==> r == [DescriptionTooLong]
  {
    if d.Some? && Utf16Length(d.value) > MaxDescriptionLength then [DescriptionTooLong] else []
  }

  predicate Accepted(v: FormValues, parse: string -> Option<real>) {
    && MinNameLength <= Utf16Length(v.name) <= MaxNameLength
    && ParseCategory(v.category).Some?
    && parse(v.price).Some? && parse(v.price).value > 0.0
    && (v.description.None? || Utf16Length(v.description.value) <= MaxDescriptionLength)
  }

  /** The whole schema: every rule is checked and every failing rule is reported, in field order; the
      values pass exactly when no rule fails. */
  function Validate(v: FormValues, parse: string -> Option<real>): (r: Result<ItemData, seq<Issue>>)
    ensures r.Success? <==> Accepted(v, parse)
    ensures r.Success? ==> r.value.name == v.name && CategoryName(r.value.category) == v.category
    ensures r.Success? ==> parse(v.price) == Some(r.value.price) && r.value.price > 0.0
    ensures r.Success? ==> r.value.description == v.description
    ensures r.Failure? ==> r.error != []
    ensures r.Failure? ==> (NameTooShort in r.error <==> Utf16Length(v.name) < MinNameLength)
    ensures r.Failure? ==> (NameTooLong in r.error <==> Utf16Length(v.name) > MaxNameLength)
    ensures r.Failure? ==> (InvalidCategory(v.category) in r.error <==> ParseCategory(v.category).None?)
    ensures r.Failure? ==> (PriceNotPositive in r.error <==> !(parse(v.price).Some? && parse(v.price).value > 0.0))
    ensures r.Failure? ==>
      (DescriptionTooLong in r.error <==> !(v.description.None? || Utf16Length(v.description.value) <= MaxDescriptionLength))
  {
    var category := ParseCategory(v.category);
    var issues := NameIssues(v.name) + (if category.None? then [InvalidCategory(v.category)] else []) +
      PriceIssues(v.price, parse) + DescriptionIssues(v.description);
    if issues == [] then Success(ItemData(v.name, category.value, parse(v.price).value, v.description))
    else Failure(issues)
  }
}
