/** The seed's products of one organization (backend/prisma/seed.demo.ts:2155-2243). */
module ProductAllocation {
  import opened Lcg
  import opened JsText
  import opened PaymentBundles

  datatype Band = Band(min: int, max: int)

  datatype BizType = BizType(
    code: string, categories: seq<string>, productNamesByCategory: map<string, seq<string>>,
    priceBands: map<string, Band>)

  datatype ProductRow = ProductRow(
    id: nat, name: string, category: string, sku: string, priceCents: int, reorderThreshold: int)

  const VARIANTS: seq<string> := ["S", "M", "L", "XL", "Black", "White", "Navy", "Grey", "Green", "Natural"]

  predicate IsLetter(c: char) {
    'a' <= c <= 'z' || 'A' <= c <= 'Z'
  }

  function Upper(c: char): char {
    if 'a' <= c <= 'z' then c - ('a' - 'A') else c
  }

  // replace(/[^A-Z]/gi, '').toUpperCase()
  function Letters(s: string): string {
    if s == "" then ""
    else Letters(s[..|s| - 1]) + if IsLetter(s[|s| - 1]) then [Upper(s[|s| - 1])] else []
  }

  /** The letters of a text, one by one: A to Z as they are, a to z in upper case, and nothing for the rest. */
  lemma LettersAre(s: string, c: char)
    ensures Letters("") == ""
    ensures 'A' <= c <= 'Z' ==> Letters(s + [c]) == Letters(s) + [c]
    ensures 'a' <= c <= 'z' ==> Letters(s + [c]) == Letters(s) + [(c as int - 32) as char]
    ensures !('A' <= c <= 'Z') && !('a' <= c <= 'z') ==> Letters(s + [c]) == Letters(s)
  {
    assert (s + [c])[..|s|] == s;
  }

  /** A category's code is the first four of its letters, or all of fewer. */
  lemma CatCodeIs(category: string)
    ensures CatCode(category) <= Letters(category)
    ensures |CatCode(category)| == if |Letters(category)| < 4 then |Letters(category)| else 4
  {
  }

  function CatCode(category: string): string {
    var letters := Letters(category);
    if |letters| > 4 then letters[..4] else letters
  }

  function Sku(code: string, category: string, number: nat): string {
    code + "-" + CatCode(category) + "-" + PadStart(Print(number), 4)
  }

  function Max(a: int, b: int): int { if a < b then b else a }

  function PerCategory(n: nat, categories: nat): (per: nat)
    requires categories > 0
    ensures per >= 1
  {
    Max(1, n / categories)
  }

  function Repeat(category: string, count: int): (r: seq<string>)
    ensures |r| == Max(0, count)
  {
    seq(Max(0, count), i => category)
  }

  // How many products the k-th category gets, when made have been made before.
  function Count(categories: seq<string>, k: nat, n: nat, made: nat): int
    requires k < |categories|
  {
    if categories[k] == categories[|categories| - 1] then n - made else PerCategory(n, |categories|)
  }

  // The category of each product made for the first k categories.
  function Layout(categories: seq<string>, k: nat, n: nat): seq<string>
    requires k <= |categories|
  {
    if k == 0 then []
    else
      var before := Layout(categories, k - 1, n);
      before + Repeat(categories[k - 1], Count(categories, k - 1, n, |before|))
  }

  // Product names are known and price bands proper, as in the script's tables.
  ghost predicate Usable(biz: BizType) {
    && (forall c :: c in biz.productNamesByCategory ==> 0 < |biz.productNamesByCategory[c]| < WORDS)
    && (forall c :: c in biz.priceBands ==> 0 <= biz.priceBands[c].min <= biz.priceBands[c].max < 0x20_0000)
  }

  ghost predicate Made(rows: seq<ProductRow>, biz: BizType, layout: seq<string>) {
    |rows| == |layout| &&
    forall i :: 0 <= i < |rows| ==> rows[i].category == layout[i] && rows[i].sku == Sku(biz.code, layout[i], i + 1)
  }

  // ---- What the draws decide ---------------------------------------------------------------

  // The names and prices of a category, with the script's defaults.
  function NamesOf(biz: BizType, category: string): seq<string> {
    if category in biz.productNamesByCategory then biz.productNamesByCategory[category] else ["Item"]
  }

  function BandOf(biz: BizType, category: string): Band {
    if category in biz.priceBands then biz.priceBands[category] else Band(500, 5000)
  }

  // A name, by a chance of 0.4 with a variant.
  ghost predicate NameDrawn(name: string, names: seq<string>, w: int) {
    var u := NextWord(w);
    var v := NextWord(u);
    var base, variant := IndexDrawn(u, |names|), IndexDrawn(NextWord(v), 10);
    && 0 <= base < |names|
    && (if Chance(v, 0.4) then
          && 0 <= variant < 10
          && name == names[base] + " " +
                     ["S", "M", "L", "XL", "Black", "White", "Navy", "Grey", "Green", "Natural"][variant]
        else name == names[base])
  }

  ghost function AfterName(w: int): int {
    var v := NextWord(NextWord(w));
    if Chance(v, 0.4) then NextWord(v) else v
  }

  /** The product that a generator on word w draws for a category, before it stands on w'. */
  ghost predicate ProductDrawn(row: ProductRow, biz: BizType, w: int, w': int) {
    var band, u := BandOf(biz, row.category), NextWord(AfterName(w));
    && NameDrawn(row.name, NamesOf(biz, row.category), w)
    && band.min <= band.max && row.priceCents == band.min + IndexDrawn(u, band.max - band.min + 1)
    && row.reorderThreshold == Choice(5, 25, NextWord(u)) && w' == NextWord(u)
  }

  // One product after the other: words lists the generator's words between them.
  ghost predicate ProductsDrawn(rows: seq<ProductRow>, biz: BizType, words: seq<int>, w: int, w': int) {
    && |words| == |rows| + 1 && words[0] == w && words[|rows|] == w'
    && forall k :: 0 <= k < |rows| ==> ProductDrawn(rows[k], biz, words[k], words[k + 1])
  }

  lemma OneMoreDrawn(rows: seq<ProductRow>, row: ProductRow, biz: BizType, words: seq<int>, w: int, u: int, w': int)
    requires ProductsDrawn(rows, biz, words, w, u) && ProductDrawn(row, biz, u, w')
    ensures ProductsDrawn(rows + [row], biz, words + [w'], w, w')
  {
  }

  method DrawName(rng: Rng, names: seq<string>) returns (name: string)
    requires rng.Valid() && 0 < |names| < WORDS
    modifies rng
    ensures rng.Valid() && NameDrawn(name, names, old(rng.Word())) && rng.Word() == AfterName(old(rng.Word()))
  {
    var baseName, _ := rng.RngPick(names);
    name := baseName;
    var varied := rng.RngBool(0.4);
    if varied {
      var variant, _ := rng.RngPick(VARIANTS);
      name := baseName + " " + variant;
    }
  }

  method MakeProduct(seeder: Seeder, biz: BizType, category: string, productSeq: nat) returns (row: ProductRow)
    requires seeder.rng.Valid() && Usable(biz)
    modifies seeder, seeder.rng
    ensures seeder.rng.Valid() && ProductDrawn(row, biz, old(seeder.rng.Word()), seeder.rng.Word())
    ensures row.category == category && row.sku == Sku(biz.code, category, productSeq + 1)
  {
    var named := category in biz.productNamesByCategory;
    var namesForCat := if named then biz.productNamesByCategory[category] else ["Item"];
    var priceBand := if category in biz.priceBands then biz.priceBands[category] else Band(500, 5000);
    var name := DrawName(seeder.rng, namesForCat);
    var sku := Sku(biz.code, category, productSeq + 1);
    var priceCents := seeder.rng.RngInt(priceBand.min, priceBand.max);
    var reorderThreshold := seeder.rng.RngInt(5, 25);
    var id := seeder.FreshId();
    row := ProductRow(id, name, category, sku, priceCents, reorderThreshold);
  }

  /** The nested loops fill the categories as laid out, numbering the products' SKUs from 1. */
  method AllocateProducts(seeder: Seeder, biz: BizType, numProducts: nat)
      returns (productRows: seq<ProductRow>, ghost words: seq<int>)
    requires seeder.rng.Valid() && Usable(biz)
    modifies seeder, seeder.rng
    ensures seeder.rng.Valid() && ProductsDrawn(productRows, biz, words, old(seeder.rng.Word()), seeder.rng.Word())
    ensures Made(productRows, biz, Layout(biz.categories, |biz.categories|, numProducts))
  {
    productRows, words := [], [seeder.rng.Word()];
    var productSeq, categories := 0, biz.categories;
    for k := 0 to |categories|
      invariant seeder.rng.Valid() && productSeq == |productRows|
      invariant Made(productRows, biz, Layout(categories, k, numProducts))
      invariant ProductsDrawn(productRows, biz, words, old(seeder.rng.Word()), seeder.rng.Word())
    {
      var count := if categories[k] == categories[|categories| - 1] then numProducts - productSeq
                   else PerCategory(numProducts, |categories|);
      ghost var before := Layout(categories, k, numProducts);
      var p := 0;
      while p < count
        invariant 0 <= p <= Max(0, count) && seeder.rng.Valid() && productSeq == |productRows|
        invariant Made(productRows, biz, before + Repeat(categories[k], p))
        invariant ProductsDrawn(productRows, biz, words, old(seeder.rng.Word()), seeder.rng.Word())
      {
        ghost var u := seeder.rng.Word();
        var row := MakeProduct(seeder, biz, categories[k], productSeq);
        OneMoreDrawn(productRows, row, biz, words, old(seeder.rng.Word()), u, seeder.rng.Word());
        OneMoreProduct(productRows, row, biz, before, categories[k], p);
        productRows, words := productRows + [row], words + [seeder.rng.Word()];
        productSeq := productSeq + 1;
        p := p + 1;
      }
      assert p == Max(0, count);
      assert Repeat(categories[k], p) == Repeat(categories[k], count);
    }
  }

  lemma OneMoreProduct(
    rows: seq<ProductRow>, row: ProductRow, biz: BizType, before: seq<string>, category: string, p: nat)
    requires Made(rows, biz, before + Repeat(category, p))
    requires row.category == category && row.sku == Sku(biz.code, category, |rows| + 1)
    ensures Made(rows + [row], biz, before + Repeat(category, p + 1))
  {
  }

  // ---- How many products -----------------------------------------------------------------------

  predicate Distinct(categories: seq<string>) {
    forall i, j :: 0 <= i < j < |categories| ==> categories[i] != categories[j]
  }

  lemma NextMultiple(k: nat, per: nat)
    requires k > 0
    ensures k * per == (k - 1) * per + per
  {
  }

  // Every category but the last gets its equal share.
  lemma {:induction false} EqualShares(categories: seq<string>, k: nat, n: nat)
    requires Distinct(categories) && k < |categories|
    ensures |Layout(categories, k, n)| == k * PerCategory(n, |categories|)
  {
    if k > 0 {
      EqualShares(categories, k - 1, n);
      NextMultiple(k, PerCategory(n, |categories|));
    }
  }

  lemma SharesFit(n: nat, m: nat)
    requires m > 0
    ensures (m - 1) * PerCategory(n, m) <= n <==> n >= m - 1
    ensures n < m - 1 ==> PerCategory(n, m) == 1
  {
  }

  /**
   * With distinct categories the loops make exactly the number of products asked
   * for when it is at least the number of categories less one, and otherwise one
   * for each category but the last.
   */
  lemma ProductsMade(categories: seq<string>, n: nat)
    requires Distinct(categories) && categories != []
    ensures |Layout(categories, |categories|, n)| == Max(n, |categories| - 1)
    ensures |Layout(categories, |categories|, n)| == n <==> n >= |categories| - 1
  {
    var m := |categories|;
    EqualShares(categories, m - 1, n);
    SharesFit(n, m);
  }

  // ---- Distinct SKUs ---------------------------------------------------------------------------

  // The part of a text behind its last dash.
  function AfterLastDash(s: string): string {
    if s == "" || s[|s| - 1] == '-' then "" else AfterLastDash(s[..|s| - 1]) + [s[|s| - 1]]
  }

  lemma {:induction false} AfterLastDashOf(head: string, tail: string)
    requires '-' !in tail
    ensures AfterLastDash(head + "-" + tail) == tail
  {
    var s := head + "-" + tail;
    if tail != "" {
      assert s[..|s| - 1] == head + "-" + tail[..|tail| - 1];
      assert s[|s| - 1] == tail[|tail| - 1];
      AfterLastDashOf(head, tail[..|tail| - 1]);
    }
  }

  lemma NumberOfSku(code: string, category: string, number: nat)
    ensures AllDigits(AfterLastDash(Sku(code, category, number)))
    ensures Value(AfterLastDash(Sku(code, category, number))) == number
  {
    var pad := PadStart(Print(number), 4);
    ValueOfPrint(number);
    ValueOfPad(Print(number), 4);
    assert '-' !in pad;
    AfterLastDashOf(code + "-" + CatCode(category), pad);
  }

  /** Different numbers give different SKUs, so no product of a new organization is dropped as a conflict. */
  lemma SkusDiffer(rows: seq<ProductRow>, biz: BizType, layout: seq<string>, i: nat, j: nat)
    requires Made(rows, biz, layout) && i < j < |rows|
    ensures rows[i].sku != rows[j].sku
  {
    NumberOfSku(biz.code, layout[i], i + 1);
    NumberOfSku(biz.code, layout[j], j + 1);
  }
}
