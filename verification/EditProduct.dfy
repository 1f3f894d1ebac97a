/**
 * The product editor (frontend/components/products/edit-product-form.tsx):
 * filling the form from a product and computing the patch on submit.
 */
module EditProduct {
  import opened Wrappers
  import opened Doubles
  import opened JsText
  import opened Money

  const OTHER: string := "__other__"

  datatype Product = Product(
    name: string, sku: string, priceCents: int, reorderThreshold: int,
    category: Option<string>, active: bool)

  datatype FormValues = FormValues(
    name: string, sku: string, price: string, reorderThreshold: string,
    category: string, customCategory: string, active: bool)

  // The body of the PATCH request: absent fields are left alone.
  datatype Patch = Patch(
    name: Option<string>, sku: Option<string>, priceCents: Option<int>, reorderThreshold: Option<int>,
    category: Option<Option<string>>, active: Option<bool>)

  const EMPTY: Patch := Patch(None, None, None, None, None, None)

  function Or<T>(change: Option<T>, current: T): T {
    match change
    case None => current
    case Some(v) => v
  }

  function Apply(p: Product, body: Patch): Product {
    Product(Or(body.name, p.name), Or(body.sku, p.sku), Or(body.priceCents, p.priceCents),
            Or(body.reorderThreshold, p.reorderThreshold), Or(body.category, p.category), Or(body.active, p.active))
  }

  // No field of the patch repeats the value the product already has.
  predicate Minimal(p: Product, body: Patch) {
    && body.name != Some(p.name) && body.sku != Some(p.sku)
    && body.priceCents != Some(p.priceCents) && body.reorderThreshold != Some(p.reorderThreshold)
    && body.category != Some(p.category) && body.active != Some(p.active)
  }

  // The cents a price field asks for; None where validation refuses it.
  function PriceCents(text: string): Option<int> {
    match ParseFloat(text)
    case None => None
    case Some(x) => if x < 0.0 then None else Some(MathRound(Nearest(x * 100.0)))
  }

  function Threshold(text: string): Option<int> {
    match ParseInt(text)
    case None => None
    case Some(n) => if n < 0 then None else Some(n)
  }

  // What the form's validation accepts.
  predicate SchemaAccepts(v: FormValues) {
    && v.name != "" && v.sku != "" && v.price != "" && v.reorderThreshold != ""
    && PriceCents(v.price).Some? && Threshold(v.reorderThreshold).Some?
  }

  function NonEmpty(s: string): Option<string> {
    if s == "" then None else Some(s)
  }

  function ResolvedCategory(v: FormValues): Option<string> {
    if v.category == OTHER then NonEmpty(Trim(v.customCategory)) else NonEmpty(v.category)
  }

  // The product the submitted form asks for.
  function Resolved(v: FormValues): Product
    requires SchemaAccepts(v)
  {
    Product(v.name, v.sku, PriceCents(v.price).value, Threshold(v.reorderThreshold).value,
            ResolvedCategory(v), v.active)
  }

  /** What the form lets through is a proper product, with the cents and the threshold its texts denote. */
  lemma ResolvedIsProper(v: FormValues)
    requires SchemaAccepts(v)
    ensures var p := Resolved(v);
            && p.name == v.name != "" && p.sku == v.sku != "" && p.active == v.active
            && p.priceCents == DollarsToCents(v.price)
            && p.reorderThreshold >= 0 && ParseInt(v.reorderThreshold) == Some(p.reorderThreshold)
            && p.category != Some("")
            && (p.category.Some? ==>
                  p.category.value == if v.category == OTHER then Trim(v.customCategory) else v.category)
            && (p.category.None? <==> (if v.category == OTHER then Trim(v.customCategory) else v.category) == "")
  {
    PriceIsCents(v.price, ParseFloat(v.price));
  }

  lemma PriceIsCents(text: string, amount: Option<real>)
    requires amount == ParseFloat(text) && PriceCents(text).Some?
    ensures PriceCents(text) == Some(DollarsToCents(text))
  {
  }

  /** A form is refused exactly for an empty name or SKU, or a field that does not start with a number from 0 on. */
  lemma AcceptedIff(v: FormValues)
    ensures SchemaAccepts(v) <==>
            && v.name != "" && v.sku != ""
            && ParseFloat(v.price).Some? && ParseFloat(v.price).value >= 0.0
            && ParseInt(v.reorderThreshold).Some? && ParseInt(v.reorderThreshold).value >= 0
  {
    assert TrimStart("") == "";
  }

  // The form as it opens on a product.
  function ResetForm(p: Product, categories: seq<string>): FormValues
    requires p.reorderThreshold >= 0
  {
    var current := Or(p.category, "");
    var isCustom := current != "" && current !in categories;
    FormValues(p.name, p.sku, ToFixed2(Nearest(p.priceCents as real / 100.0)), Print(p.reorderThreshold),
               if isCustom then OTHER else current, if isCustom then current else "", p.active)
  }

  // Fills the request body field by field with what differs from the product.
  method FillBody(next: Product, product: Product) returns (body: Patch)
    ensures Apply(product, body) == next
    ensures Minimal(product, body)
  {
    body := EMPTY;
    if next.name != product.name { body := body.(name := Some(next.name)); }
    if next.sku != product.sku { body := body.(sku := Some(next.sku)); }
    if next.priceCents != product.priceCents { body := body.(priceCents := Some(next.priceCents)); }
    if next.reorderThreshold != product.reorderThreshold {
      body := body.(reorderThreshold := Some(next.reorderThreshold));
    }
    if next.category != product.category { body := body.(category := Some(next.category)); }
    if next.active != product.active { body := body.(active := Some(next.active)); }
  }

  /** The request body on submit; nothing is sent when it stays empty. */
  method OnSubmit(values: FormValues, product: Product) returns (body: Patch, sent: bool)
    requires SchemaAccepts(values)
    ensures Apply(product, body) == Resolved(values)
    ensures Minimal(product, body)
    ensures sent <==> Resolved(values) != product
    ensures !sent <==> body == EMPTY
  {
    var next := Resolved(values);
    body := FillBody(next, product);
    sent := body != EMPTY;
    EmptyPatch(product, body);
  }

  /** A minimal patch is empty exactly when it changes nothing. */
  lemma EmptyPatch(p: Product, body: Patch)
    requires Minimal(p, body)
    ensures body == EMPTY <==> Apply(p, body) == p
  {
  }

  /** A patch that is minimal and leads from one product to another is the only such patch. */
  lemma MinimalPatchIsUnique(p: Product, a: Patch, b: Patch)
    requires Minimal(p, a) && Minimal(p, b) && Apply(p, a) == Apply(p, b)
    ensures a == b
  {
  }

  // The categories the form can show and give back unchanged.
  predicate CategorySurvives(category: Option<string>, categories: seq<string>) {
    match category
    case None => true
    case Some(c) => c != "" && (if c in categories then c != OTHER else Trim(c) == c)
  }

  lemma CategoryRoundTrip(category: Option<string>, categories: seq<string>, v: FormValues)
    requires var current := Or(category, "");
             var isCustom := current != "" && current !in categories;
             v.category == (if isCustom then OTHER else current) &&
             v.customCategory == (if isCustom then current else "")
    ensures ResolvedCategory(v) == category <==> CategorySurvives(category, categories)
  {
  }

  // The two number fields of an untouched form read back as they were.
  lemma PriceRoundTrip(priceCents: int, price: string)
    requires 0 <= priceCents < CENTS_LIMIT
    requires price == ToFixed2(Nearest(priceCents as real / 100.0))
    ensures price != "" && PriceCents(price) == Some(priceCents)
  {
    ToFixedOfCents(priceCents);
    PriceOfText(price, priceCents);
  }

  lemma PriceOfText(text: string, cents: int)
    requires 0 <= cents < CENTS_LIMIT && text == WithPoint(cents)
    ensures text != "" && PriceCents(text) == Some(cents)
  {
    DecimalValueOfWithPoint(cents);
    CentsOfText(text, cents);
    RoundedPrice(text, ParseFloat(text), cents);
  }

  lemma RoundedPrice(text: string, amount: Option<real>, cents: int)
    requires ParseFloat(text) == amount && amount.Some? && amount.value >= 0.0
    requires MathRound(Nearest(amount.value * 100.0)) == cents
    ensures PriceCents(text) == Some(cents)
  {
  }

  lemma ThresholdRoundTrip(n: nat)
    ensures Threshold(Print(n)) == Some(n)
  {
    ParseIntOfPrint(n);
  }

  // A form that agrees with the product on everything but the category.
  lemma ResolvedWithCategory(p: Product, v: FormValues)
    requires p.name != "" && p.sku != "" && v.price != "" && v.reorderThreshold != ""
    requires v.name == p.name && v.sku == p.sku && v.active == p.active
    requires PriceCents(v.price) == Some(p.priceCents)
    requires Threshold(v.reorderThreshold) == Some(p.reorderThreshold)
    ensures SchemaAccepts(v) && Resolved(v) == p.(category := ResolvedCategory(v))
  {
  }

  /**
   * Opening the editor and saving untouched changes nothing exactly when the
   * category survives the form; name, price and threshold always do.
   */
  lemma UntouchedSave(p: Product, categories: seq<string>)
    requires 0 <= p.priceCents < CENTS_LIMIT && p.reorderThreshold >= 0
    requires p.name != "" && p.sku != ""
    ensures SchemaAccepts(ResetForm(p, categories))
    ensures var r := Resolved(ResetForm(p, categories));
            r == p.(category := r.category) && (r == p <==> CategorySurvives(p.category, categories))
  {
    var v := ResetForm(p, categories);
    PriceRoundTrip(p.priceCents, v.price);
    ThresholdRoundTrip(p.reorderThreshold);
    CategoryRoundTrip(p.category, categories, v);
    ResolvedWithCategory(p, v);
  }
}
