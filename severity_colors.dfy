/** The severity palette of `src/lib/severityColors.js`: three severities,
    a hex colour for each, a case-insensitive lookup that ignores falsy
    labels, translucent backgrounds, and a palette for a list of labels with
    a neutral grey for anything unknown. */
module SeverityColors {
  import opened Common
  import opened Js
  import opened HexColors

  const SeverityOrder: seq<string> := ["Minor", "Major", "Critical"]
  const DefaultBgAlpha: real := 0.85
  const Neutral := "#9aa1a6"

  /** `SEVERITY_HEX[key]`. */
  function SeverityColor(severity: string): (r: Option<string>)
    ensures r.Some? <==> severity in SeverityOrder
  {
    if severity == "Critical" then Some("#FC9796")
    else if severity == "Major" then Some("#FFC08C")
    else if severity == "Minor" then Some("#8FE0AD")
    else None
  }

  /** No two severities differ only in case (their lengths already differ). */
  lemma LowerDistinct(s: string, t: string)
    requires s in SeverityOrder && t in SeverityOrder && Lower(s) == Lower(t)
    ensures s == t
  {
    var n := |Lower(s)|;
    assert n == |s| && n == |t| && n >= 5;
    assert LowerChar(s[1]) == Lower(s)[1] == Lower(t)[1] == LowerChar(t[1]);
    SecondLetterDiffers(s, t);
  }

  /** "Minor" and "Major" have the same length but differ in their second
      letter; "Critical" is longer. */
  lemma SecondLetterDiffers(s: string, t: string)
    requires s in SeverityOrder && t in SeverityOrder
    requires |s| == |t| && LowerChar(s[1]) == LowerChar(t[1])
    ensures s == t
  {
  }

  /** `severityHex`: undefined for a falsy label; otherwise the colour of
      the severity equal to `String(label)` ignoring case. */
  function SeverityHex(name: JsValue): (r: Option<string>)
    ensures !Truthy(name) ==> r.None?
    ensures Truthy(name) ==> (r.Some? <==> exists s :: s in SeverityOrder && Lower(s) == Lower(Render(name)))
    ensures Truthy(name) ==>
              forall s :: s in SeverityOrder && Lower(s) == Lower(Render(name)) ==> r == SeverityColor(s)
  {
    if !Truthy(name) then None
    else match FindIgnoringCase(SeverityOrder, Render(name))
      case None => None
      case Some(found) =>
        assert forall s :: s in SeverityOrder && Lower(s) == Lower(Render(name)) ==> s == found by {
          forall s | s in SeverityOrder && Lower(s) == Lower(Render(name)) {
            LowerDistinct(s, found);
          }
        }
        SeverityColor(found)
  }

  /** `severityBg`: the background for a label with a colour, undefined
      otherwise. */
  function SeverityBg(name: JsValue, alpha: real): (r: Option<Rgba>)
    ensures r.Some? <==> SeverityHex(name).Some?
    ensures r.Some? ==> r.value == HexToRgba(SeverityHex(name).value, alpha)
  {
    match SeverityHex(name)
    case None => None
    case Some(hex) => Some(HexToRgba(hex, alpha))
  }

  /** One entry of `paletteFor`: `severityHex(l) ?? '#9aa1a6'`. */
  function PaletteEntry(name: JsValue): (r: string)
    ensures SeverityHex(name).Some? ==> r == SeverityHex(name).value
    ensures SeverityHex(name).None? ==> r == Neutral
  {
    match SeverityHex(name)
    case None => Neutral
    case Some(hex) => hex
  }

  /** `paletteFor`: one colour per label, in order. */
  function PaletteFor(names: seq<JsValue>): (r: seq<string>)
    ensures |r| == |names|
    ensures forall i :: 0 <= i < |names| ==> r[i] == PaletteEntry(names[i])
  {
    if names == [] then [] else [PaletteEntry(names[0])] + PaletteFor(names[1..])
  }

  /** Every colour `PaletteEntry` can give is '#' and six hex digits. */
  lemma EntryIsHexColour(name: JsValue)
    ensures IsHexColour(PaletteEntry(name))
  {
    var c := PaletteEntry(name);
    assert c == "#FC9796" || c == "#FFC08C" || c == "#8FE0AD" || c == Neutral;
    PaletteColour(c);
  }

  lemma PaletteColour(c: string)
    requires c == "#FC9796" || c == "#FFC08C" || c == "#8FE0AD" || c == Neutral
    ensures IsHexColour(c)
  {
    HexColourByDigits(c);
  }

  /** Every palette colour reads back as three channels in 0..255. */
  lemma {:induction false} PaletteParses(names: seq<JsValue>, alpha: real)
    ensures forall i :: 0 <= i < |names| ==>
              var c := HexToRgba(PaletteFor(names)[i], alpha);
              c.r.Some? && c.g.Some? && c.b.Some?
              && 0 <= c.r.value <= 255 && 0 <= c.g.value <= 255 && 0 <= c.b.value <= 255
  {
    forall i | 0 <= i < |names|
      ensures var c := HexToRgba(PaletteFor(names)[i], alpha);
              c.r.Some? && c.g.Some? && c.b.Some?
              && 0 <= c.r.value <= 255 && 0 <= c.g.value <= 255 && 0 <= c.b.value <= 255
    {
      EntryIsHexColour(names[i]);
      HexColourParses(PaletteFor(names)[i], alpha);
    }
  }

  /** Null, undefined, false, 0 and "" have no colour and get the grey. */
  lemma FalsyIsNeutral(name: JsValue, alpha: real)
    requires !Truthy(name)
    ensures SeverityHex(name).None? && SeverityBg(name, alpha).None? && PaletteEntry(name) == Neutral
  {
  }

  /** The lookup ignores case. */
  lemma LabelCaseIgnored(name: string)
    ensures SeverityHex(Str(Lower(name))) == SeverityHex(Str(name))
  {
    LowerIdempotent(name);
    assert |Lower(name)| == |name|;
    assert Render(Str(Lower(name))) == Lower(name) && Render(Str(name)) == name;
    if name != "" {
      assert Truthy(Str(name)) && Truthy(Str(Lower(name)));
    }
  }

  lemma CriticalLabel()
    ensures SeverityHex(Str("CRITICAL")) == Some("#FC9796")
  {
    var name := Str("CRITICAL");
    assert Render(name) == "CRITICAL" && Truthy(name);
    SameIgnoringCase("CRITICAL", "Critical");
    assert "Critical" in SeverityOrder && Lower("Critical") == Lower(Render(name));
    assert SeverityColor("Critical") == Some("#FC9796");
  }
}
