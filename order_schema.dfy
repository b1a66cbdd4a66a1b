/**
 * The order schema of the checkout form (`orderSchema` in
 * src/app/porudzbine/form.tsx): a record of six fields, each checked by
 * its own rule with its own fixed message. A parse walks the fields in
 * declaration order and collects one issue per failing field; the record
 * is accepted only when no issue is raised.
 */
module OrderSchema {
  import opened Wrappers

  datatype Ingredient = Ingredient(name: string, isAlergen: bool)

  /** The inferred `OrderFormInputs` type. The price is a number; it is a
      `real` here. */
  datatype OrderFormInputs = OrderFormInputs(
    name: string,
    description: string,
    category: string,
    price: real,
    addedIngredients: seq<Ingredient>,
    images: seq<string>)

  datatype Field = Name | Description | Category | Price | AddedIngredients | Images

  /** The keys of the schema object, in declaration order. */
  const Shape: seq<Field> := [Name, Description, Category, Price, AddedIngredients, Images]

  /** One failed rule: the field it is about and the rule's message. */
  datatype Issue = Issue(field: Field, message: string)

  /** The fixed message of each field's rule; `images` has no rule. */
  function RuleMessage(f: Field): (r: Option<string>)
    ensures r.None? <==> f == Images
    ensures r.Some? ==> |r.value| > 0
  {
    match f
    case Name => Some("Product name is required")
    case Description => Some("Product description is required")
    case Category => Some("Product category is required")
    case Price => Some("Product price must be a positive number")
    case AddedIngredients => Some("At least one ingredient must be selected")
    case Images => None
  }

  /** Whether the field's rule holds: `min(1)` on the three strings and the
      ingredient array, `min(0)` on the price, nothing on the images. */
  function FieldValid(o: OrderFormInputs, f: Field): (ok: bool)
    ensures f == Images ==> ok
    ensures Accepts(o) ==> ok
    ensures f == Price && o.price == 0.0 ==> ok
  {
    match f
    case Name => |o.name| >= 1
    case Description => |o.description| >= 1
    case Category => |o.category| >= 1
    case Price => o.price >= 0.0
    case AddedIngredients => |o.addedIngredients| >= 1
    case Images => true
  }

  /** The issue a failing field raises: the field with its rule's message. */
  function IssueFor(f: Field): Issue
    requires f != Images
  {
    Issue(f, RuleMessage(f).value)
  }

  /** The issues one field raises: none when its rule holds, else its own. */
  function Raised(o: OrderFormInputs, f: Field): (r: seq<Issue>)
    ensures r == [] <==> FieldValid(o, f)
    ensures |r| <= 1
    ensures forall i :: i in r ==> i.field == f && RuleMessage(f) == Some(i.message)
  {
    if FieldValid(o, f) then [] else [IssueFor(f)]
  }

  /** The issues raised by the given fields, in the order of the fields. */
  function Issues(o: OrderFormInputs, fields: seq<Field>): (r: seq<Issue>)
    ensures |r| <= |fields|
    ensures forall i :: i in r ==> i.field in fields && !FieldValid(o, i.field) && i.field != Images && i == IssueFor(i.field)
    ensures forall f :: f in fields && !FieldValid(o, f) ==> f != Images && IssueFor(f) in r
    decreases |fields|
  {
    if fields == [] then []
    else
      var rest := Issues(o, fields[1..]);
      assert forall f :: f in fields ==> f == fields[0] || f in fields[1..];
      Raised(o, fields[0]) + rest
  }

  /** Every issue a record raises under the schema. */
  function Validate(o: OrderFormInputs): (r: seq<Issue>)
    ensures forall i :: i in r ==> !FieldValid(o, i.field) && i.field != Images && i == IssueFor(i.field)
    ensures forall f :: !FieldValid(o, f) ==> f != Images && IssueFor(f) in r
    ensures r == [] <==> Accepts(o)
  {
    assert forall f :: f in Shape by {
      forall f ensures f in Shape { FieldInShape(f); }
    }
    Issues(o, Shape)
  }

  lemma FieldInShape(f: Field)
    ensures f in Shape
  {
  }

  /** The schema written out as one condition, independently of the walk. */
  predicate Accepts(o: OrderFormInputs)
  {
    o.name != "" && o.description != "" && o.category != ""
    && o.price >= 0.0 && |o.addedIngredients| >= 1
  }

  /** `safeParse`: the record itself when valid, the issues otherwise. */
  function SafeParse(o: OrderFormInputs): (r: Result<OrderFormInputs, seq<Issue>>)
    ensures r.Ok? <==> Accepts(o)
    ensures r.Ok? ==> r.value == o
    ensures r.Err? ==> r.error == Validate(o) && r.error != []
  {
    var issues := Validate(o);
    if issues == [] then Ok(o) else Err(issues)
  }

  /** A price of zero passes `min(0)`, although the message speaks of a
      positive number; any negative price fails. */
  lemma PriceBoundary(o: OrderFormInputs)
    ensures o.price == 0.0 ==> Raised(o, Price) == []
    ensures o.price < 0.0 ==> Raised(o, Price) == [Issue(Price, "Product price must be a positive number")]
  {
  }

  /** Two records that agree on everything but the images and the allergen
      flags of the ingredients raise the same issues, field by field. */
  lemma {:induction false} IssuesIgnoreImagesAndAllergens(o: OrderFormInputs, o': OrderFormInputs, fields: seq<Field>)
    requires o.name == o'.name && o.description == o'.description && o.category == o'.category
    requires o.price == o'.price && |o.addedIngredients| == |o'.addedIngredients|
    ensures Issues(o, fields) == Issues(o', fields)
    decreases |fields|
  {
    if fields != [] {
      IssuesIgnoreImagesAndAllergens(o, o', fields[1..]);
      assert FieldValid(o, fields[0]) == FieldValid(o', fields[0]);
    }
  }

  /** The images and the ingredients' contents are never constrained. */
  lemma UnconstrainedContents(o: OrderFormInputs, images: seq<string>, ingredients: seq<Ingredient>)
    requires |ingredients| == |o.addedIngredients|
    ensures Validate(o.(images := images, addedIngredients := ingredients)) == Validate(o)
  {
    IssuesIgnoreImagesAndAllergens(o.(images := images, addedIngredients := ingredients), o, Shape);
  }

  /** Walking one more field in front adds that field's issue, if any, in front. */
  lemma IssuesCons(o: OrderFormInputs, f: Field, fields: seq<Field>)
    ensures Issues(o, [f] + fields) == Raised(o, f) + Issues(o, fields)
  {
    assert ([f] + fields)[1..] == fields;
  }

  /** The issues come out in the order the fields are declared. */
  lemma ValidateInShapeOrder(o: OrderFormInputs)
    ensures Validate(o) == Raised(o, Name) + (Raised(o, Description) + (Raised(o, Category)
                         + (Raised(o, Price) + Raised(o, AddedIngredients))))
  {
    var s5: seq<Field> := [Images];
    var s4 := [AddedIngredients] + s5;
    var s3 := [Price] + s4;
    var s2 := [Category] + s3;
    var s1 := [Description] + s2;
    assert Shape == [Name] + s1;
    assert Issues(o, s5) == [] by { IssuesCons(o, Images, []); }
    assert Issues(o, s4) == Raised(o, AddedIngredients) by { IssuesCons(o, AddedIngredients, s5); }
    IssuesCons(o, Price, s4);
    IssuesCons(o, Category, s3);
    IssuesCons(o, Description, s2);
    IssuesCons(o, Name, s1);
  }

  /** The form's `defaultValues`. */
  const Defaults: OrderFormInputs := OrderFormInputs("", "", "", 0.0, [], [])

  /** A record with the three strings and the ingredient list empty and a
      price of at least zero raises exactly four issues, in this order. */
  lemma EmptyFieldsRejected(o: OrderFormInputs)
    requires o.name == "" && o.description == "" && o.category == ""
    requires o.price >= 0.0 && o.addedIngredients == []
    ensures Validate(o) == [
      Issue(Name, "Product name is required"),
      Issue(Description, "Product description is required"),
      Issue(Category, "Product category is required"),
      Issue(AddedIngredients, "At least one ingredient must be selected")]
  {
    var nameIssue := Issue(Name, "Product name is required");
    var descriptionIssue := Issue(Description, "Product description is required");
    var categoryIssue := Issue(Category, "Product category is required");
    var ingredientIssue := Issue(AddedIngredients, "At least one ingredient must be selected");
    calc {
      Validate(o);
      { ValidateInShapeOrder(o); }
      Raised(o, Name) + (Raised(o, Description) + (Raised(o, Category)
        + (Raised(o, Price) + Raised(o, AddedIngredients))));
      [nameIssue] + ([descriptionIssue] + ([categoryIssue] + ([] + [ingredientIssue])));
      [nameIssue, descriptionIssue, categoryIssue, ingredientIssue];
    }
  }

  /** The default values are rejected by every rule except the price rule. */
  lemma DefaultsRejected()
    ensures !Accepts(Defaults)
    ensures SafeParse(Defaults) == Err([
      Issue(Name, "Product name is required"),
      Issue(Description, "Product description is required"),
      Issue(Category, "Product category is required"),
      Issue(AddedIngredients, "At least one ingredient must be selected")])
  {
    EmptyFieldsRejected(Defaults);
  }

  /** Filling in the three strings and one ingredient makes the defaults valid. */
  lemma FilledDefaultsAccepted(name: string, description: string, category: string, i: Ingredient)
    requires name != "" && description != "" && category != ""
    ensures SafeParse(Defaults.(name := name, description := description, category := category,
                                addedIngredients := [i])).Ok?
  {
  }
}
