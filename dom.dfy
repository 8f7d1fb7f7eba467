/** The browser state the frontend helpers read and write: the `data-*`
    attributes of the root element, `localStorage`, the root element's inline
    CSS variables and the window events dispatched so far. */
module Dom {

  datatype Event = ThemeChange(theme: string) | BrandChange(brand: string)

  class Browser {
    /** `document.documentElement.dataset`. */
    var dataset: map<string, string>
    /** `localStorage`. */
    var storage: map<string, string>
    /** Inline properties of `document.documentElement.style`. */
    var style: map<string, string>
    /** The events dispatched on `window`, oldest first. */
    var events: seq<Event>

    constructor (dataset0: map<string, string>, storage0: map<string, string>)
      ensures dataset == dataset0 && storage == storage0 && style == map[] && events == []
    {
      dataset := dataset0;
      storage := storage0;
      style := map[];
      events := [];
    }
  }

  /** A stored or attribute value used with `||`: present and non-empty. */
  predicate Set(m: map<string, string>, key: string)
  {
    key in m && m[key] != ""
  }

  /** `a || b || fallback` over two optional string sources. */
  function FirstSet(m1: map<string, string>, k1: string, m2: map<string, string>, k2: string, fallback: string): (r: string)
    ensures Set(m1, k1) ==> r == m1[k1]
    ensures !Set(m1, k1) && Set(m2, k2) ==> r == m2[k2]
    ensures !Set(m1, k1) && !Set(m2, k2) ==> r == fallback
  {
    if Set(m1, k1) then m1[k1] else if Set(m2, k2) then m2[k2] else fallback
  }
}
