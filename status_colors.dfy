/** The strict status palette of `lib/statusColors.js`: the four failure
    statuses in chart order, a hex colour for each, borders and translucent
    backgrounds, and a case-insensitive lookup from chart labels.

    A `None` from `BgColor` stands for the TypeError `hexToRgba` throws when
    the status has no colour (`undefined.replace`). */
module StatusColors {
  import opened Common
  import opened Js
  import opened HexColors

  const StatusOrder: seq<string> := ["Resolved", "Active", "In Progress", "On Hold"]
  const DefaultBgAlpha: real := 0.2
  const DefaultDatasetAlpha: real := 0.85

  /** `STATUS_COLORS[status]`. */
  function StatusColor(status: string): (r: Option<string>)
    ensures r.Some? <==> status in StatusOrder
  {
    if status == "Resolved" then Some("#8FE0AD")
    else if status == "Active" then Some("#FC9796")
    else if status == "In Progress" then Some("#EEEE96")
    else if status == "On Hold" then Some("#FFC08C")
    else None
  }

  /** `borderColor`: the hex colour, undefined for any other status. */
  function BorderColor(status: string): (r: Option<string>)
    ensures r.Some? <==> status in StatusOrder
    ensures r == StatusColor(status)
  {
    StatusColor(status)
  }

  /** `bgColor`: the status colour at the given alpha; an unknown status
      throws (`None`). */
  function BgColor(status: string, alpha: real): (r: Option<Rgba>)
    ensures r.Some? <==> status in StatusOrder
  {
    match StatusColor(status)
    case None => None
    case Some(hex) => Some(HexToRgba(hex, alpha))
  }

  /** `arrayForOrder`: one colour per entry, in the order given. */
  function ArrayForOrder(order: seq<string>): (r: seq<Option<string>>)
    ensures |r| == |order|
    ensures forall i :: 0 <= i < |order| ==> r[i] == StatusColor(order[i])
  {
    if order == [] then [] else [StatusColor(order[0])] + ArrayForOrder(order[1..])
  }

  /** `colorForLabel`: the colour of the status equal to `String(name)`
      ignoring case. */
  function ColorForLabel(name: JsValue): (r: Option<string>)
    ensures r.Some? <==> exists s :: s in StatusOrder && Lower(s) == Lower(Render(name))
    ensures forall s :: s in StatusOrder && Lower(s) == Lower(Render(name)) ==> r == StatusColor(s)
  {
    match FindIgnoringCase(StatusOrder, Render(name))
    case None => None
    case Some(found) =>
      assert forall s :: s in StatusOrder && Lower(s) == Lower(Render(name)) ==> s == found by {
        forall s | s in StatusOrder && Lower(s) == Lower(Render(name)) {
          LowerDistinct(s, found);
        }
      }
      StatusColor(found)
  }

  /** No two statuses differ only in case (their lengths already differ). */
  lemma LowerDistinct(s: string, t: string)
    requires s in StatusOrder && t in StatusOrder && Lower(s) == Lower(t)
    ensures s == t
  {
    var n := |Lower(s)|;
    assert n == |s| && n == |t|;
    LengthsDiffer(s, t);
  }

  lemma LengthsDiffer(s: string, t: string)
    requires s in StatusOrder && t in StatusOrder && |s| == |t|
    ensures s == t
  {
  }

  datatype DatasetColors = DatasetColors(border: string, bg: Rgba)

  /** `colorsForDatasetLabel`: border and background for a name naming a
      status, undefined for any other name. */
  function ColorsForDatasetLabel(name: JsValue, bgAlpha: real): (r: Option<DatasetColors>)
    ensures r.Some? <==> ColorForLabel(name).Some?
    ensures r.Some? ==> r.value.border == ColorForLabel(name).value
                        && r.value.bg == HexToRgba(ColorForLabel(name).value, bgAlpha)
  {
    match ColorForLabel(name)
    case None => None
    case Some(hex) => Some(DatasetColors(hex, HexToRgba(hex, bgAlpha)))
  }

  /** The default order colours the four statuses, in that order. */
  lemma DefaultOrderColours()
    ensures ArrayForOrder(StatusOrder) == [Some("#8FE0AD"), Some("#FC9796"), Some("#EEEE96"), Some("#FFC08C")]
  {
  }

  /** The name lookup ignores case: any spelling of a status picks its
      colour, e.g. "ACTIVE" and "active". */
  lemma LabelCaseIgnored(name: string)
    ensures ColorForLabel(Str(Lower(name))) == ColorForLabel(Str(name))
  {
    LowerIdempotent(name);
  }

  lemma UpperCaseLabel()
    ensures ColorForLabel(Str("ACTIVE")) == Some("#FC9796")
  {
    SameIgnoringCase("ACTIVE", "Active");
  }

  lemma LowerCaseLabel()
    ensures ColorForLabel(Str("active")) == Some("#FC9796")
  {
    SameIgnoringCase("active", "Active");
  }

  /** A name that is no status, whatever its case, has no colours. */
  lemma UnknownLabel(name: JsValue)
    requires forall s :: s in StatusOrder ==> Lower(s) != Lower(Render(name))
    ensures ColorForLabel(name).None? && ColorsForDatasetLabel(name, DefaultDatasetAlpha).None?
  {
  }

  /** Every background for a known status has its three channels in
      0..255 and an alpha in [0, 1]. */
  lemma BackgroundsParse(status: string, alpha: real)
    requires status in StatusOrder
    ensures BgColor(status, alpha).Some?
    ensures var c := BgColor(status, alpha).value;
            && c.r.Some? && c.g.Some? && c.b.Some?
            && 0 <= c.r.value <= 255 && 0 <= c.g.value <= 255 && 0 <= c.b.value <= 255
            && 0.0 <= c.a <= 1.0
  {
    var hex := StatusColor(status).value;
    assert hex == "#" + hex[1..];
    assert |hex[1..]| == 6 && AllHex(hex[1..]);
    ChannelsInRange(hex[1..], alpha);
  }
}

/** The typed copy of the palette (`lib/statusColors.ts`): the same colours
    for a `Status` type restricted to the four names, in a different chart
    order, and a name lookup that only accepts an exact match. */
module StatusColorsTyped {
  import opened Common
  import opened Js
  import opened HexColors
  import StatusColors

  const StatusOrder: seq<string> := ["Active", "In Progress", "Resolved", "On Hold"]

  type Status = s: string | s in StatusOrder witness "Active"

  /** `STATUS_COLORS[status]`, total on `Status`. */
  function BorderColor(status: Status): (r: string)
    ensures StatusColors.StatusColor(status) == Some(r)
  {
    if status == "Active" then "#FC9796"
    else if status == "In Progress" then "#EEEE96"
    else if status == "Resolved" then "#8FE0AD"
    else "#FFC08C"
  }

  function BgColor(status: Status, alpha: real): (r: Rgba)
    ensures StatusColors.BgColor(status, alpha) == Some(r)
  {
    HexToRgba(BorderColor(status), alpha)
  }

  function ArrayForOrder(order: seq<Status>): (r: seq<string>)
    ensures |r| == |order|
    ensures forall i :: 0 <= i < |order| ==> Some(r[i]) == StatusColors.StatusColor(order[i])
  {
    if order == [] then [] else [BorderColor(order[0])] + ArrayForOrder(order[1..])
  }

  /** `colorForLabel`: only the exact name of a status finds its colour. */
  function ColorForLabel(name: string): (r: Option<string>)
    ensures r.Some? <==> name in StatusOrder
    ensures r.Some? ==> StatusColors.StatusColor(name) == r
  {
    if name in StatusOrder then Some(BorderColor(name)) else None
  }

  /** Both copies name the same four statuses, in different orders. */
  lemma SameStatuses()
    ensures multiset(StatusOrder) == multiset(StatusColors.StatusOrder)
    ensures StatusOrder != StatusColors.StatusOrder
  {
    assert StatusOrder[0] != StatusColors.StatusOrder[0];
  }

  /** An exact match in the typed lookup is a match in the untyped one,
      with the same colour; the converse fails on other spellings. */
  lemma ExactMatchAgrees(name: string)
    ensures ColorForLabel(name).Some? ==> StatusColors.ColorForLabel(Str(name)) == ColorForLabel(name)
  {
  }

  /** "active" is no status here, though the untyped lookup accepts it. */
  lemma CaseMatters()
    ensures ColorForLabel("active").None? && StatusColors.ColorForLabel(Str("active")).Some?
  {
    assert "active" !in StatusOrder;
    StatusColors.LowerCaseLabel();
  }
}
