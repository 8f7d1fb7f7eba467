/** The chart colour helpers of `src/lib/theme.js`: `withAlpha`, which
    rewrites a colour string so that it carries a given alpha, and the
    fallback rule of `getCssVar`.

    The alpha is passed as the text JavaScript renders for it inside a
    template literal; how a number is rendered is not modelled. A colour is
    a string, `None` standing for null or undefined. */
module CssColor {
  import opened Common
  import opened HexColors

  // -----------------------------------------------------------------------
  // `getCssVar`

  /** `val || fallback || '#000'` where `val` is the trimmed computed value
      (`getPropertyValue` gives "" for a property that is not set). */
  function CssVar(computed: map<string, string>, name: string, fallback: string): (r: string)
    ensures r != ""
    ensures Trim(if name in computed then computed[name] else "") != "" ==> r == Trim(computed[name])
    ensures Trim(if name in computed then computed[name] else "") == "" && fallback != "" ==> r == fallback
    ensures Trim(if name in computed then computed[name] else "") == "" && fallback == "" ==> r == "#000"
  {
    var val := Trim(if name in computed then computed[name] else "");
    if val != "" then val else if fallback != "" then fallback else "#000"
  }

  /** A set variable is returned trimmed, whatever the fallback. */
  lemma SetVariableWins(computed: map<string, string>, name: string, fallback: string)
    requires name in computed && Trim(computed[name]) != ""
    ensures CssVar(computed, name, fallback) == Trim(computed[name])
    ensures Trimmed(CssVar(computed, name, fallback))
  {
  }

  /** A variable that is missing or only whitespace falls back. */
  lemma UnsetVariableFallsBack(computed: map<string, string>, name: string, fallback: string)
    requires name !in computed || Trim(computed[name]) == ""
    ensures CssVar(computed, name, fallback) == (if fallback != "" then fallback else "#000")
  {
  }

  // -----------------------------------------------------------------------
  // The regular expressions /rgba\(([^)]+)\)/ and /rgb\(([^)]+)\)/

  /** The first ')' in `s` at or after `i`. */
  function CloseAfter(s: string, i: nat): (r: Option<nat>)
    requires i <= |s|
    ensures r.Some? ==> i <= r.value < |s| && s[r.value] == ')'
    ensures r.Some? ==> forall k :: i <= k < r.value ==> s[k] != ')'
    ensures r.None? ==> forall k :: i <= k < |s| ==> s[k] != ')'
    decreases |s| - i
  {
    if i == |s| then None else if s[i] == ')' then Some(i) else CloseAfter(s, i + 1)
  }

  /** Where the pattern `open([^)]+)\)` matching at `p` closes: the opening
      text, at least one character other than ')', then ')'. */
  function MatchAt(s: string, open: string, p: nat): (r: Option<nat>)
    requires p <= |s|
    ensures r.Some? ==> p + |open| < r.value < |s| && StartsWith(s[p..], open)
  {
    if StartsWith(s[p..], open) then
      match CloseAfter(s, p + |open|)
      case Some(q) => if q > p + |open| then Some(q) else None
      case None => None
    else None
  }

  /** The text around and inside the leftmost match. */
  datatype Group = Group(before: string, inner: string, after: string)

  function FirstMatchFrom(s: string, open: string, p: nat): (r: Option<Group>)
    requires p <= |s|
    ensures r.None? ==> forall j :: p <= j <= |s| ==> MatchAt(s, open, j).None?
    ensures r.Some? ==> exists j :: p <= j <= |s| && MatchAt(s, open, j).Some?
                                   && (forall k :: p <= k < j ==> MatchAt(s, open, k).None?)
                                   && r.value == Group(s[..j], s[j + |open|..MatchAt(s, open, j).value],
                                                       s[MatchAt(s, open, j).value + 1..])
    decreases |s| - p
  {
    match MatchAt(s, open, p)
    case Some(q) => Some(Group(s[..p], s[p + |open|..q], s[q + 1..]))
    case None => if p == |s| then None else FirstMatchFrom(s, open, p + 1)
  }

  /** `s.replace(regex, …)` finds this match, if any. */
  function FirstMatch(s: string, open: string): Option<Group>
  {
    FirstMatchFrom(s, open, 0)
  }

  /** A colour that starts with the opening text and closes its first
      parenthesis after a non-empty inner part matches at the start. */
  lemma MatchAtStart(open: string, inner: string, rest: string)
    requires inner != [] && forall k :: 0 <= k < |inner| ==> inner[k] != ')'
    ensures FirstMatch(open + inner + ")" + rest, open) == Some(Group("", inner, rest))
  {
    var s := open + inner + ")" + rest;
    assert s[0..] == s && StartsWith(s, open);
    CloseIsAfterInner(s, open, inner, rest, |open|);
    assert s[..0] == "";
    assert s[|open|..|open| + |inner|] == inner;
    assert s[|open| + |inner| + 1..] == rest;
  }

  lemma {:induction false} CloseIsAfterInner(s: string, open: string, inner: string, rest: string, i: nat)
    requires s == open + inner + ")" + rest
    requires forall k :: 0 <= k < |inner| ==> inner[k] != ')'
    requires |open| <= i <= |open| + |inner|
    ensures CloseAfter(s, i) == Some(|open| + |inner|)
    decreases |open| + |inner| - i
  {
    if i < |open| + |inner| {
      assert s[i] == inner[i - |open|];
      CloseIsAfterInner(s, open, inner, rest, i + 1);
    } else {
      assert s[i] == ')';
    }
  }

  // -----------------------------------------------------------------------
  // `withAlpha`

  /** A channel as a template literal renders it; NaN for no number. */
  function ChannelText(c: Option<int>): (r: string)
    ensures c.None? ==> r == "NaN"
    ensures c.Some? && c.value >= 0 ==> r == NatToString(c.value)
  {
    match c
    case None => "NaN"
    case Some(n) => IntToString(n)
  }

  /** `parts[i]` of the trimmed comma-separated parts; "undefined" past the
      end. */
  function Part(parts: seq<string>, i: nat): (r: string)
    ensures i < |parts| ==> r == Trim(parts[i])
    ensures i >= |parts| ==> r == "undefined"
  {
    if i < |parts| then Trim(parts[i]) else "undefined"
  }

  function RgbaText(r: string, g: string, b: string, alphaText: string): string
  {
    "rgba(" + r + ", " + g + ", " + b + ", " + alphaText + ")"
  }

  /** The replacement for an `rgba(...)` group: its first three parts and
      the new alpha. */
  function RgbaReplacement(inner: string, alphaText: string): string
  {
    var parts := Split(inner, ",");
    RgbaText(Part(parts, 0), Part(parts, 1), Part(parts, 2), alphaText)
  }

  /** The three channels read from the digits after '#': three digits are
      doubled, six or more give their first six, any other count gives
      zeros. */
  function HexChannels(hex: string): (r: (Option<int>, Option<int>, Option<int>))
    ensures 3 != |hex| < 6 ==> r == (Some(0), Some(0), Some(0))
  {
    if |hex| == 3 then
      (ParseHex([hex[0], hex[0]]), ParseHex([hex[1], hex[1]]), ParseHex([hex[2], hex[2]]))
    else if |hex| >= 6 then
      (ParseHex(hex[0..2]), ParseHex(hex[2..4]), ParseHex(hex[4..6]))
    else (Some(0), Some(0), Some(0))
  }

  function WithAlpha(color: Option<string>, alphaText: string): string
  {
    if color.None? || color.value == "" then "rgba(0,0,0," + alphaText + ")"
    else
      var c := color.value;
      if StartsWith(c, "rgba(") then
        match FirstMatch(c, "rgba(")
        case None => c
        case Some(g) => g.before + RgbaReplacement(g.inner, alphaText) + g.after
      else if StartsWith(c, "rgb(") then
        match FirstMatch(c, "rgb(")
        case None => c
        case Some(g) => g.before + "rgba(" + g.inner + ", " + alphaText + ")" + g.after
      else if StartsWith(c, "#") then
        var (r, g, b) := HexChannels(c[1..]);
        RgbaText(ChannelText(r), ChannelText(g), ChannelText(b), alphaText)
      else c
  }

  /** No colour, or the empty one, gives transparent black at the alpha. */
  lemma FalsyColour(color: Option<string>, alphaText: string)
    requires color.None? || color == Some("")
    ensures WithAlpha(color, alphaText) == "rgba(0,0,0," + alphaText + ")"
  {
  }

  /** `rgba(inner)rest` keeps the first three parts of `inner`, trimmed,
      and takes the new alpha; what follows the group is kept. */
  lemma RgbaKeepsComponents(inner: string, rest: string, alphaText: string)
    requires inner != [] && forall k :: 0 <= k < |inner| ==> inner[k] != ')'
    ensures var parts := Split(inner, ",");
            WithAlpha(Some("rgba(" + inner + ")" + rest), alphaText)
            == RgbaText(Part(parts, 0), Part(parts, 1), Part(parts, 2), alphaText) + rest
  {
    var c := "rgba(" + inner + ")" + rest;
    MatchAtStart("rgba(", inner, rest);
    OpensWith("rgba(", inner, rest);
    RgbaCase(c, alphaText, Group("", inner, rest));
    var replaced := RgbaReplacement(inner, alphaText);
    assert "" + replaced == replaced;
  }

  /** `rgb(inner)rest` becomes `rgba(inner, alpha)rest`. */
  lemma RgbGainsAlpha(inner: string, rest: string, alphaText: string)
    requires inner != [] && forall k :: 0 <= k < |inner| ==> inner[k] != ')'
    ensures WithAlpha(Some("rgb(" + inner + ")" + rest), alphaText)
            == "rgba(" + inner + ", " + alphaText + ")" + rest
  {
    var c := "rgb(" + inner + ")" + rest;
    MatchAtStart("rgb(", inner, rest);
    OpensWith("rgb(", inner, rest);
    assert c[3] == '(';
    NotRgba(c);
    RgbCase(c, alphaText, Group("", inner, rest));
    assert "" + "rgba(" == "rgba(";
  }

  lemma OpensWith(open: string, inner: string, rest: string)
    ensures StartsWith(open + inner + ")" + rest, open)
  {
    var s := open + inner + ")" + rest;
    assert s[..|open|] == open;
  }

  /** A colour with '(' at index 3 does not start with 'rgba('. */
  lemma NotRgba(c: string)
    requires |c| > 3 && c[3] == '('
    ensures !StartsWith(c, "rgba(")
  {
    if |c| >= 5 {
      assert c[..5][3] == c[3];
    }
  }

  /** How `withAlpha` rewrites an `rgba(` colour whose group is `g`. */
  lemma RgbaCase(c: string, alphaText: string, g: Group)
    requires StartsWith(c, "rgba(") && FirstMatch(c, "rgba(") == Some(g)
    ensures WithAlpha(Some(c), alphaText) == g.before + RgbaReplacement(g.inner, alphaText) + g.after
  {
  }

  /** How `withAlpha` rewrites an `rgb(` colour whose group is `g`. */
  lemma RgbCase(c: string, alphaText: string, g: Group)
    requires StartsWith(c, "rgb(") && !StartsWith(c, "rgba(") && FirstMatch(c, "rgb(") == Some(g)
    ensures WithAlpha(Some(c), alphaText) == g.before + "rgba(" + g.inner + ", " + alphaText + ")" + g.after
  {
  }

  /** A '#' colour whose digit count is neither 3 nor at least 6 gives
      zero channels. */
  lemma ShortHexIsBlack(digits: string, alphaText: string)
    requires |digits| != 3 && |digits| < 6
    ensures WithAlpha(Some("#" + digits), alphaText) == RgbaText("0", "0", "0", alphaText)
  {
    var c := "#" + digits;
    assert c[1..] == digits;
    assert |c| < 4 || c[..4][0] == '#';
    assert |c| < 5 || c[..5][0] == '#';
    assert StartsWith(c, "#") && !StartsWith(c, "rgba(") && !StartsWith(c, "rgb(");
  }

  /** On a '#rgb' or '#rrggbb' colour the channels are those `hexToRgba`
      reads: the two helpers agree on well-formed hex colours. */
  lemma HexAgreesWithHexToRgba(digits: string, alpha: real)
    requires (|digits| == 3 || |digits| == 6) && AllHex(digits)
    ensures var c := HexToRgba("#" + digits, alpha);
            HexChannels(digits) == (c.r, c.g, c.b)
  {
    DigitsOfHash(digits);
    var h := Expand(digits);
    assert Digits("#" + digits) == h;
    assert Slice(h, 0, 2) == h[0..2] && Slice(h, 2, 4) == h[2..4] && Slice(h, 4, 6) == h[4..6];
    if |digits| == 3 {
      assert h[0..2] == [digits[0], digits[0]];
      assert h[2..4] == [digits[1], digits[1]];
      assert h[4..6] == [digits[2], digits[2]];
    }
  }

  /** Only the first six digits of a longer hex colour are read. */
  lemma LongHexUsesFirstSix(digits: string, extra: string)
    requires |digits| == 6
    ensures HexChannels(digits + extra) == HexChannels(digits)
  {
    var h := digits + extra;
    assert h[0..2] == digits[0..2] && h[2..4] == digits[2..4] && h[4..6] == digits[4..6];
  }

  /** Any other colour is returned as it is. */
  lemma OtherColourUnchanged(color: string, alphaText: string)
    requires color != "" && !StartsWith(color, "rgba(") && !StartsWith(color, "rgb(") && !StartsWith(color, "#")
    ensures WithAlpha(Some(color), alphaText) == color
  {
  }
}
