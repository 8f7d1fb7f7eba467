/** The brand helper (`lib/brand.js`): the `data-brand` attribute, its copy
    in storage under 'ui.brand', and one 'brandchange' event per
    application. Any truthy value is a brand; the attribute and storage hold
    its string form. */
module Brand {
  import opened Dom
  import opened Js

  const BrandKey := "ui.brand"
  const DefaultBrand := "indigo"

  /** `brand || 'indigo'`. */
  function Chosen(brand: JsValue): (r: JsValue)
    ensures !Truthy(brand) ==> r == Str(DefaultBrand)
    ensures Truthy(brand) ==> r == brand
    ensures Truthy(r)
  {
    if Truthy(brand) then brand else Str(DefaultBrand)
  }

  /** A falsy brand becomes 'indigo'; a non-empty string is kept as it is. */
  lemma ChosenStrings(s: string)
    ensures s == "" ==> Render(Chosen(Str(s))) == DefaultBrand
    ensures s != "" ==> Render(Chosen(Str(s))) == s
  {
  }

  /** `getBrand`: the attribute, else storage, else 'indigo'. */
  function CurrentBrand(dataset: map<string, string>, storage: map<string, string>): (r: string)
    ensures Set(dataset, "brand") ==> r == dataset["brand"]
    ensures !Set(dataset, "brand") && Set(storage, BrandKey) ==> r == storage[BrandKey]
    ensures !Set(dataset, "brand") && !Set(storage, BrandKey) ==> r == DefaultBrand
  {
    FirstSet(dataset, "brand", storage, BrandKey, DefaultBrand)
  }

  method GetBrand(b: Browser) returns (brand: string)
    ensures brand == CurrentBrand(b.dataset, b.storage)
  {
    if "brand" in b.dataset && b.dataset["brand"] != "" {
      brand := b.dataset["brand"];
    } else if BrandKey in b.storage && b.storage[BrandKey] != "" {
      brand := b.storage[BrandKey];
    } else {
      brand := DefaultBrand;
    }
  }

  /** `applyBrand`: the chosen brand is written to the attribute (when it
      differs) and to storage, announced once, and returned. */
  method ApplyBrand(b: Browser, brand: JsValue) returns (next: JsValue)
    modifies b
    ensures next == Chosen(brand)
    ensures b.dataset == old(b.dataset)["brand" := Render(next)]
    ensures b.storage == old(b.storage)[BrandKey := Render(next)]
    ensures b.events == old(b.events) + [BrandChange(Render(next))]
    ensures b.style == old(b.style)
  {
    next := if Truthy(brand) then brand else Str(DefaultBrand);
    var text := Render(next);
    if !("brand" in b.dataset && b.dataset["brand"] == text) {
      b.dataset := b.dataset["brand" := text];
    }
    b.storage := b.storage[BrandKey := text];
    b.events := b.events + [BrandChange(text)];
  }

  method SetBrand(b: Browser, brand: JsValue) returns (next: JsValue)
    modifies b
    ensures next == Chosen(brand)
    ensures b.dataset == old(b.dataset)["brand" := Render(next)]
    ensures b.storage == old(b.storage)[BrandKey := Render(next)]
    ensures b.events == old(b.events) + [BrandChange(Render(next))]
    ensures b.style == old(b.style)
  {
    next := ApplyBrand(b, brand);
  }

  /** `initBrand`: applies the stored brand, or 'indigo'. */
  method InitBrand(b: Browser) returns (next: JsValue)
    modifies b
    ensures next == Str(if Set(old(b.storage), BrandKey) then old(b.storage)[BrandKey] else DefaultBrand)
    ensures b.dataset == old(b.dataset)["brand" := next.s]
    ensures b.storage == old(b.storage)[BrandKey := next.s]
    ensures b.events == old(b.events) + [BrandChange(next.s)]
    ensures b.style == old(b.style)
  {
    var stored := if BrandKey in b.storage && b.storage[BrandKey] != "" then b.storage[BrandKey] else DefaultBrand;
    next := ApplyBrand(b, Str(stored));
  }
}
