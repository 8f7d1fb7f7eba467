/** UI presets (`lib/presets.js`): reading the current theme, brand and four
    CSS variables, applying a preset object, clearing it, and applying the
    stored one at start-up.

    `JSON.stringify` and `JSON.parse` are parameters (`None` from the parser
    stands for a thrown SyntaxError). The style sheet behind
    `getComputedStyle` is a parameter too: an inline variable overrides it. */
module Presets {
  import opened Common
  import opened Js
  import opened Dom
  import Theme
  import Brand

  const PresetKey := "ui.preset"
  const ScaleText := "--scale-text"
  const ScaleControl := "--scale-control"
  const FontSans := "--font-sans"
  const FontMono := "--font-mono"

  /** The browser state as one value. */
  datatype Snapshot = Snapshot(
    dataset: map<string, string>, storage: map<string, string>,
    style: map<string, string>, events: seq<Event>)

  function Snap(b: Browser): Snapshot
    reads b
  {
    Snapshot(b.dataset, b.storage, b.style, b.events)
  }

  // ---------------------------------------------------------------------
  // Reading

  /** `readVar`: the computed value, trimmed. */
  function ReadVar(style: map<string, string>, sheet: map<string, string>, name: string): string
  {
    Trim(if name in style then style[name] else if name in sheet then sheet[name] else "")
  }

  datatype PresetVars = PresetVars(scaleText: string, scaleControl: string, fontSans: string, fontMono: string)

  datatype Preset = Preset(theme: string, brand: string, vars: PresetVars)

  function OrDefault(s: string, d: string): string
  {
    if s != "" then s else d
  }

  /** `getCurrentPreset`. */
  function CurrentPreset(s: Snapshot, sheet: map<string, string>): (p: Preset)
    ensures p.theme == Theme.CurrentTheme(s.dataset, s.storage)
    ensures p.brand == Brand.CurrentBrand(s.dataset, s.storage)
    ensures p.vars.scaleText != "" && p.vars.scaleControl != ""
    ensures ReadVar(s.style, sheet, ScaleText) == "" ==> p.vars.scaleText == "1"
    ensures ReadVar(s.style, sheet, ScaleText) != "" ==> p.vars.scaleText == ReadVar(s.style, sheet, ScaleText)
    ensures ReadVar(s.style, sheet, ScaleControl) == "" ==> p.vars.scaleControl == "1"
    ensures p.vars.fontSans == ReadVar(s.style, sheet, FontSans)
    ensures p.vars.fontMono == ReadVar(s.style, sheet, FontMono)
  {
    Preset(Theme.CurrentTheme(s.dataset, s.storage), Brand.CurrentBrand(s.dataset, s.storage),
           PresetVars(OrDefault(ReadVar(s.style, sheet, ScaleText), "1"),
                      OrDefault(ReadVar(s.style, sheet, ScaleControl), "1"),
                      OrDefault(ReadVar(s.style, sheet, FontSans), ""),
                      OrDefault(ReadVar(s.style, sheet, FontMono), "")))
  }

  // ---------------------------------------------------------------------
  // Writing

  /** `writeVar`: null, undefined and "" remove the inline variable;
      anything else sets its string form. */
  function WrittenVar(style: map<string, string>, name: string, value: JsValue): (r: map<string, string>)
    ensures (Nullish(value) || value == Str("")) ==> r == style - {name}
    ensures !(Nullish(value) || value == Str("")) ==> r == style[name := Render(value)]
  {
    if Nullish(value) || value == Str("") then style - {name} else style[name := Render(value)]
  }

  method WriteVar(b: Browser, name: string, value: JsValue)
    modifies b
    ensures b.style == WrittenVar(old(b.style), name, value)
    ensures b.dataset == old(b.dataset) && b.storage == old(b.storage) && b.events == old(b.events)
  {
    if Nullish(value) || value == Str("") {
      b.style := b.style - {name};
    } else {
      b.style := b.style[name := Render(value)];
    }
  }

  /** A theme that is not a string is never 'dark'. */
  function ThemeArg(theme: JsValue): string
  {
    if theme.Str? then theme.s else ""
  }

  /** `setBrand(brand)` when the brand is truthy. */
  function BrandStep(s: Snapshot, brand: JsValue): Snapshot
  {
    if Truthy(brand) then
      var next := Render(Brand.Chosen(brand));
      s.(dataset := s.dataset["brand" := next], storage := s.storage[Brand.BrandKey := next],
         events := s.events + [BrandChange(next)])
    else s
  }

  /** `setTheme(theme)` when the theme is truthy. */
  function ThemeStep(s: Snapshot, theme: JsValue): Snapshot
  {
    if Truthy(theme) then
      var next := Theme.Normalised(ThemeArg(theme));
      s.(dataset := s.dataset["theme" := next], storage := s.storage[Theme.ThemeKey := next],
         events := s.events + [ThemeChange(next)])
    else s
  }

  /** One `if (vars.x) writeVar(name, vars.x)`. */
  function VarStep(style: map<string, string>, name: string, value: JsValue): map<string, string>
  {
    if Truthy(value) then WrittenVar(style, name, value) else style
  }

  function VarsStep(style: map<string, string>, vars: JsValue): map<string, string>
  {
    if Truthy(vars) && IsObjectType(vars) then
      var s1 := VarStep(style, ScaleText, Prop(vars, "scaleText"));
      var s2 := VarStep(s1, ScaleControl, Prop(vars, "scaleControl"));
      var s3 := VarStep(s2, FontSans, Prop(vars, "fontSans"));
      VarStep(s3, FontMono, Prop(vars, "fontMono"))
    else style
  }

  /** The whole of `applyPreset`. */
  function Applied(s: Snapshot, preset: JsValue, stringify: JsValue -> string): Snapshot
  {
    if !Truthy(preset) || !IsObjectType(preset) then s
    else
      var s1 := BrandStep(s, Prop(preset, "brand"));
      var s2 := ThemeStep(s1, Prop(preset, "theme"));
      var s3 := s2.(style := VarsStep(s2.style, Prop(preset, "vars")));
      s3.(storage := s3.storage[PresetKey := stringify(preset)])
  }

  /** Null, undefined, booleans, numbers and strings are ignored entirely. */
  lemma IgnoresNonObjects(s: Snapshot, preset: JsValue, stringify: JsValue -> string)
    requires !preset.Arr? && !preset.Obj?
    ensures Applied(s, preset, stringify) == s
  {
  }

  /** An object or array preset is persisted as a whole, as its JSON text. */
  lemma PersistsPreset(s: Snapshot, preset: JsValue, stringify: JsValue -> string)
    requires preset.Arr? || preset.Obj?
    ensures var r := Applied(s, preset, stringify);
            PresetKey in r.storage && r.storage[PresetKey] == stringify(preset)
  {
  }

  /** The brand is applied before the theme, each only when truthy: the
      events added are the brand's, then the theme's. */
  lemma BrandBeforeTheme(s: Snapshot, preset: JsValue, stringify: JsValue -> string)
    requires preset.Arr? || preset.Obj?
    ensures var r := Applied(s, preset, stringify);
            var brand := Prop(preset, "brand");
            var theme := Prop(preset, "theme");
            r.events == s.events
                        + (if Truthy(brand) then [BrandChange(Render(Brand.Chosen(brand)))] else [])
                        + (if Truthy(theme) then [ThemeChange(Theme.Normalised(ThemeArg(theme)))] else [])
  {
  }

  /** A variable given a truthy value is set to its string form. */
  lemma VarStepWrites(style: map<string, string>, name: string, value: JsValue)
    ensures Truthy(value) ==> VarStep(style, name, value) == style[name := Render(value)]
    ensures !Truthy(value) ==> VarStep(style, name, value) == style
  {
  }

  /** The four variables are the only inline properties a preset touches,
      and each is set only from a truthy value. */
  lemma VarsOnlyTouchesFour(style: map<string, string>, vars: JsValue, name: string)
    requires name != ScaleText && name != ScaleControl && name != FontSans && name != FontMono
    ensures var r := VarsStep(style, vars);
            (name in r <==> name in style) && (name in style ==> r[name] == style[name])
  {
  }

  /** A preset without vars leaves every inline property as it was. */
  lemma VarsNeedAnObject(style: map<string, string>, vars: JsValue)
    requires !vars.Arr? && !vars.Obj?
    ensures VarsStep(style, vars) == style
  {
  }

  method ApplyPreset(b: Browser, preset: JsValue, stringify: JsValue -> string)
    modifies b
    ensures Snap(b) == Applied(old(Snap(b)), preset, stringify)
  {
    if !Truthy(preset) || !IsObjectType(preset) {
      return;
    }
    var theme, brand, vars := Prop(preset, "theme"), Prop(preset, "brand"), Prop(preset, "vars");
    ghost var s0 := Snap(b);
    if Truthy(brand) {
      var _ := Brand.SetBrand(b, brand);
    }
    assert Snap(b) == BrandStep(s0, brand);
    ghost var s1 := Snap(b);
    if Truthy(theme) {
      var _ := Theme.SetTheme(b, ThemeArg(theme));
    }
    assert Snap(b) == ThemeStep(s1, theme);
    ghost var s2 := Snap(b);
    if Truthy(vars) && IsObjectType(vars) {
      if Truthy(Prop(vars, "scaleText")) {
        WriteVar(b, ScaleText, Prop(vars, "scaleText"));
      }
      if Truthy(Prop(vars, "scaleControl")) {
        WriteVar(b, ScaleControl, Prop(vars, "scaleControl"));
      }
      if Truthy(Prop(vars, "fontSans")) {
        WriteVar(b, FontSans, Prop(vars, "fontSans"));
      }
      if Truthy(Prop(vars, "fontMono")) {
        WriteVar(b, FontMono, Prop(vars, "fontMono"));
      }
    }
    assert b.style == VarsStep(s2.style, vars);
    b.storage := b.storage[PresetKey := stringify(preset)];
  }

  /** The four variables a preset can set inline. */
  const PresetVarNames: set<string> := {ScaleText, ScaleControl, FontSans, FontMono}

  /** What `clearPreset` does as written.  Line 52 has no semicolon, and the
      array literal opening line 54 continues it: the statement is
      `localStorage.removeItem(PRESET_KEY)['--scale-text', …, '--font-mono'].forEach(…)`.
      The stored preset is removed, then indexing the `undefined` that
      `removeItem` returns throws a TypeError before any variable is removed. */
  function ClearedAsWritten(s: Snapshot): Snapshot
  {
    s.(storage := s.storage - {PresetKey})
  }

  /** What `clearPreset` is evidently meant to do: remove the stored preset
      and the four inline variables, so the style sheet's values apply again. */
  function Cleared(s: Snapshot): Snapshot
  {
    s.(storage := s.storage - {PresetKey}, style := s.style - PresetVarNames)
  }

  /** As written, the inline variables survive: the written clear agrees
      with the intended one exactly when none of the four is set inline. */
  lemma ClearKeepsOverrides(s: Snapshot)
    ensures PresetKey !in ClearedAsWritten(s).storage
    ensures ClearedAsWritten(s).style == s.style
    ensures ClearedAsWritten(s) == Cleared(s) <==> forall v :: v in PresetVarNames ==> v !in s.style
  {
    if ClearedAsWritten(s) == Cleared(s) {
      forall v | v in PresetVarNames
        ensures v !in s.style
      {
        assert v !in Cleared(s).style;
      }
    } else {
      var A, C := ClearedAsWritten(s), Cleared(s);
      assert A.storage == C.storage && A.dataset == C.dataset && A.events == C.events;
      assert A.style != C.style;
      var k :| k in A.style && k !in C.style;
    }
  }

  /** An inline font left from a preset is still there after the clear. */
  lemma ClearLeavesFont()
    ensures var s := Snapshot(map[], map[PresetKey := "{}"], map[FontSans := "Inter"], []);
            ClearedAsWritten(s).style[FontSans] == "Inter" && FontSans !in Cleared(s).style
  {
  }

  /** As intended, exactly the stored preset and the four inline variables
      go, and every other entry keeps its value. */
  lemma ClearedRemovesExactly(s: Snapshot)
    ensures forall k :: k in Cleared(s).storage <==> k in s.storage && k != PresetKey
    ensures forall k :: k in Cleared(s).style <==> k in s.style && k !in PresetVarNames
    ensures forall k :: k in Cleared(s).style ==> Cleared(s).style[k] == s.style[k]
    ensures Cleared(s).dataset == s.dataset && Cleared(s).events == s.events
  {
  }

  /** `clearPreset` as written: it removes the stored preset and then always
      throws, leaving the inline variables in place. */
  method ClearPreset(b: Browser) returns (threw: bool)
    modifies b
    ensures threw
    ensures Snap(b) == ClearedAsWritten(old(Snap(b)))
  {
    b.storage := b.storage - {PresetKey};
    threw := true;
  }

  /** `clearPreset` as intended: the stored preset and the four inline variables go. */
  method ClearPresetIntended(b: Browser)
    modifies b
    ensures Snap(b) == Cleared(old(Snap(b)))
  {
    b.storage := b.storage - {PresetKey};
    var names := [ScaleText, ScaleControl, FontSans, FontMono];
    for i := 0 to |names|
      invariant b.style == old(b.style) - set k | 0 <= k < i :: names[k]
      invariant b.storage == old(b.storage) - {PresetKey}
      invariant b.dataset == old(b.dataset) && b.events == old(b.events)
    {
      b.style := b.style - {names[i]};
    }
    assert names[0] == ScaleText && names[1] == ScaleControl && names[2] == FontSans && names[3] == FontMono;
    assert (set k | 0 <= k < 4 :: names[k]) == PresetVarNames;
  }

  /** What `initPresetIfAny` applies: nothing when no preset is stored or the
      stored text does not parse. */
  function StoredPreset(storage: map<string, string>, parse: string -> Option<JsValue>): (r: Option<JsValue>)
    ensures !Set(storage, PresetKey) ==> r.None?
    ensures Set(storage, PresetKey) ==> r == parse(storage[PresetKey])
  {
    if Set(storage, PresetKey) then parse(storage[PresetKey]) else None
  }

  method InitPresetIfAny(b: Browser, parse: string -> Option<JsValue>, stringify: JsValue -> string)
    modifies b
    ensures StoredPreset(old(b.storage), parse).None? ==> Snap(b) == old(Snap(b))
    ensures StoredPreset(old(b.storage), parse).Some? ==>
              Snap(b) == Applied(old(Snap(b)), StoredPreset(old(b.storage), parse).value, stringify)
  {
    if !(PresetKey in b.storage && b.storage[PresetKey] != "") {
      return;
    }
    var preset := parse(b.storage[PresetKey]);
    if preset.None? {
      return;
    }
    ApplyPreset(b, preset.value, stringify);
  }
}
