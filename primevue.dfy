/** The class functions of the PrimeVue pass-through configuration
    (`primevue-pt.js`): the Button variant chosen from its props, the Toast
    border chosen from the message severity, and the classes of list items
    and of Checkbox and RadioButton boxes chosen from their context flags.
    Each returns the class string its parts join to with single spaces. */
module PrimeVue {
  import opened Common
  import opened Js

  // -----------------------------------------------------------------------
  // Button

  datatype ButtonProps = ButtonProps(severity: JsValue, text: JsValue, link: JsValue, outlined: JsValue)

  const Variants: set<string> :=
    {"btn-primary", "btn-secondary", "btn-success", "btn-warning", "btn-danger", "btn-outline", "btn-ghost"}

  /** `map[props.severity]`: the variant of a PrimeVue severity, undefined
      for any other value. */
  function SeverityVariant(severity: JsValue): (r: Option<string>)
    ensures r.Some? ==> r.value in Variants && r.value != "btn-ghost"
    ensures r.Some? <==> Render(severity) in {"primary", "secondary", "success", "warning", "danger", "info", "help"}
  {
    var key := Render(severity);
    if key == "primary" then Some("btn-primary")
    else if key == "secondary" then Some("btn-secondary")
    else if key == "success" then Some("btn-success")
    else if key == "warning" then Some("btn-warning")
    else if key == "danger" then Some("btn-danger")
    else if key == "info" || key == "help" then Some("btn-outline")
    else None
  }

  /** The variant for the text, link and outlined modes. */
  function FallbackVariant(p: ButtonProps): (r: string)
    ensures (Truthy(p.text) || Truthy(p.link)) <==> r == "btn-ghost"
    ensures !Truthy(p.text) && !Truthy(p.link) && Truthy(p.outlined) ==> r == "btn-outline"
    ensures !Truthy(p.text) && !Truthy(p.link) && !Truthy(p.outlined) ==> r == "btn-primary"
  {
    if Truthy(p.text) || Truthy(p.link) then "btn-ghost"
    else if Truthy(p.outlined) then "btn-outline"
    else "btn-primary"
  }

  /** `map[props.severity] ?? fallback`. */
  function ButtonVariant(p: ButtonProps): (r: string)
    ensures r in Variants
    ensures SeverityVariant(p.severity).Some? ==> r == SeverityVariant(p.severity).value
    ensures SeverityVariant(p.severity).None? ==> r == FallbackVariant(p)
  {
    match SeverityVariant(p.severity)
    case Some(v) => v
    case None => FallbackVariant(p)
  }

  /** The Button root class: 'btn' and exactly one variant. */
  function ButtonClass(p: ButtonProps): (r: string)
    ensures r == "btn " + ButtonVariant(p)
    ensures exists v :: v in Variants && r == "btn " + v
  {
    var v := ButtonVariant(p);
    JoinTwo("btn", v, " ");
    Join(["btn", v], " ")
  }

  /** info and help share the outline variant. */
  lemma InfoAndHelpAreOutline(p: ButtonProps)
    requires p.severity == Str("info") || p.severity == Str("help")
    ensures ButtonClass(p) == "btn btn-outline"
  {
  }

  /** A mapped severity decides alone: the text, link and outlined flags
      are only read without one. */
  lemma SeverityOverridesFlags(p: ButtonProps, q: ButtonProps)
    requires p.severity == q.severity && SeverityVariant(p.severity).Some?
    ensures ButtonClass(p) == ButtonClass(q)
  {
  }

  /** Without a mapped severity, text or link wins over outlined. */
  lemma TextOrLinkIsGhost(p: ButtonProps)
    requires SeverityVariant(p.severity).None? && (Truthy(p.text) || Truthy(p.link))
    ensures ButtonClass(p) == "btn btn-ghost"
  {
  }

  /** With no severity and no flag the button is primary. */
  lemma PlainButtonIsPrimary(p: ButtonProps)
    requires p.severity == Undefined && !Truthy(p.text) && !Truthy(p.link) && !Truthy(p.outlined)
    ensures ButtonClass(p) == "btn btn-primary"
  {
  }

  // -----------------------------------------------------------------------
  // Toast

  /** `props.message?.severity` compared with 'warn', 'error' and 'success'. */
  function ToastBorder(message: JsValue): (r: string)
    ensures Prop(message, "severity") == Str("warn") <==> r == "border-warning"
    ensures Prop(message, "severity") == Str("error") <==> r == "border-danger"
    ensures Prop(message, "severity") == Str("success") <==> r == "border-success"
    ensures r in {"border-warning", "border-danger", "border-success", "border-primary"}
  {
    var severity := Prop(message, "severity");
    if severity == Str("warn") then "border-warning"
    else if severity == Str("error") then "border-danger"
    else if severity == Str("success") then "border-success"
    else "border-primary"
  }

  function ToastMessageClass(message: JsValue): (r: string)
    ensures r == "card border-l-4 " + ToastBorder(message)
  {
    JoinTwo("card border-l-4", ToastBorder(message), " ");
    Join(["card border-l-4", ToastBorder(message)], " ")
  }

  /** A missing message, or one with another severity such as 'info', gets
      the primary border. */
  lemma OtherToastsArePrimary(message: JsValue)
    requires Prop(message, "severity") !in {Str("warn"), Str("error"), Str("success")}
    ensures ToastMessageClass(message) == "card border-l-4 border-primary"
  {
  }

  // -----------------------------------------------------------------------
  // Dropdown items and Select options

  const ItemBase := "px-token-4 py-token-2 cursor-pointer"

  /** The class of a Dropdown item and of a Select option, which are
      defined alike: focus picks the background and selection the text,
      each on its own. */
  function ItemClass(focused: JsValue, selected: JsValue): (r: string)
    ensures r == ItemBase + " " + (if Truthy(focused) then "bg-primary/10" else "bg-surface")
                 + " " + (if Truthy(selected) then "text-primary font-semibold" else "text-[var(--text)]")
  {
    var background := if Truthy(focused) then "bg-primary/10" else "bg-surface";
    var text := if Truthy(selected) then "text-primary font-semibold" else "text-[var(--text)]";
    JoinThree(ItemBase, background, text, " ");
    Join([ItemBase, background, text], " ")
  }

  /** Focus and selection are independent: changing one never changes the
      part the other decides. */
  lemma FocusAndSelectionIndependent(f1: JsValue, f2: JsValue, s: JsValue)
    requires Truthy(f1) == Truthy(f2)
    ensures ItemClass(f1, s) == ItemClass(f2, s)
    ensures ItemClass(s, f1) == ItemClass(s, f2)
  {
  }

  // -----------------------------------------------------------------------
  // Checkbox and RadioButton

  const CheckboxBase := "w-5 h-5 inline-flex items-center justify-center rounded-token-sm border border-border"
  const RadioBase := "w-5 h-5 rounded-full border border-border inline-flex items-center justify-center"

  const PrimaryFill := "bg-primary"

  /** What a checked or unchecked Checkbox box adds to its fixed classes. */
  function CheckboxFill(checked: JsValue): string
  {
    if Truthy(checked) then PrimaryFill + " text-[var(--primary-foreground)]" else "bg-surface"
  }

  function RadioFill(checked: JsValue): string
  {
    if Truthy(checked) then PrimaryFill else "bg-surface"
  }

  function CheckboxBoxClass(checked: JsValue): (r: string)
    ensures r == CheckboxBase + " " + CheckboxFill(checked) + " " + "transition-fast"
  {
    JoinThree(CheckboxBase, CheckboxFill(checked), "transition-fast", " ");
    Join([CheckboxBase, CheckboxFill(checked), "transition-fast"], " ")
  }

  function RadioBoxClass(checked: JsValue): (r: string)
    ensures r == RadioBase + " " + RadioFill(checked) + " " + "transition-fast"
  {
    JoinThree(RadioBase, RadioFill(checked), "transition-fast", " ");
    Join([RadioBase, RadioFill(checked), "transition-fast"], " ")
  }

  /** A checked box of either kind is filled with 'bg-primary', an unchecked
      one with 'bg-surface'. */
  lemma CheckedBoxesArePrimary(checked: JsValue)
    ensures Truthy(checked) ==> StartsWith(CheckboxFill(checked), PrimaryFill) && RadioFill(checked) == PrimaryFill
    ensures !Truthy(checked) ==> CheckboxFill(checked) == "bg-surface" && RadioFill(checked) == "bg-surface"
  {
    if Truthy(checked) {
      var tail := " text-[var(--primary-foreground)]";
      assert (PrimaryFill + tail)[..|PrimaryFill|] == PrimaryFill;
    }
  }
}
