/** The pure rules of the Trackless preference engine: how the configuration
    is resolved, how the preference is written to and read back from the
    store, how the analytics flag is named, and how one element is rendered
    from the current opt-out state. The stateful engine in module Engine
    uses exactly these definitions. */
module Model {
  import opened Wrappers

  // ---------------------------------------------------------------------
  // Configuration
  // ---------------------------------------------------------------------

  /** The resolved configuration of one instance. The caller's callback is
      known here only by whether one was supplied; its invocations are
      logged by the engine. */
  datatype Options = Options(
    optOutText: string,
    optInText: string,
    trackingID: string,
    initialOptOut: bool,
    overrideOptOut: bool,
    hasCallback: bool,
    invertCheckbox: bool)

  /** What a caller passes to the constructor: `None` is a field left out.
      `hasCallback` says whether a callback was passed. */
  datatype PartialOptions = PartialOptions(
    optOutText: Option<string>,
    optInText: Option<string>,
    trackingID: Option<string>,
    initialOptOut: Option<bool>,
    overrideOptOut: Option<bool>,
    hasCallback: bool,
    invertCheckbox: Option<bool>)

  /** The constructor's default argument, `{}`. */
  const NoOptions := PartialOptions(None, None, None, None, None, false, None)

  /** The defaults. The three fields the defaults do not mention are
      undefined there, which every test in the engine reads as false. */
  const DefaultOptions := Options("Don't track me", "Enable tracking", "", false, false, false, false)

  /** Every field given explicitly. */
  function Supplied(o: Options): PartialOptions
  {
    PartialOptions(Some(o.optOutText), Some(o.optInText), Some(o.trackingID),
                   Some(o.initialOptOut), Some(o.overrideOptOut), o.hasCallback, Some(o.invertCheckbox))
  }

  /** `{ ...DEFAULT_OPTIONS, ...options }`: a supplied field wins, a field
      left out takes its default. */
  function Merge(p: PartialOptions): (o: Options)
    ensures p.optOutText.Some? ==> o.optOutText == p.optOutText.value
    ensures p.optOutText.None? ==> o.optOutText == "Don't track me"
    ensures p.optInText.Some? ==> o.optInText == p.optInText.value
    ensures p.optInText.None? ==> o.optInText == "Enable tracking"
    ensures p.trackingID.Some? ==> o.trackingID == p.trackingID.value
    ensures p.trackingID.None? ==> o.trackingID == ""
    ensures p.initialOptOut.Some? ==> o.initialOptOut == p.initialOptOut.value
    ensures p.initialOptOut.None? ==> !o.initialOptOut
    ensures p.overrideOptOut.Some? ==> o.overrideOptOut == p.overrideOptOut.value
    ensures p.overrideOptOut.None? ==> !o.overrideOptOut
    ensures o.hasCallback == p.hasCallback
    ensures p.invertCheckbox.Some? ==> o.invertCheckbox == p.invertCheckbox.value
    ensures p.invertCheckbox.None? ==> !o.invertCheckbox
  {
    Options(
      p.optOutText.GetOr(DefaultOptions.optOutText),
      p.optInText.GetOr(DefaultOptions.optInText),
      p.trackingID.GetOr(DefaultOptions.trackingID),
      p.initialOptOut.GetOr(DefaultOptions.initialOptOut),
      p.overrideOptOut.GetOr(DefaultOptions.overrideOptOut),
      p.hasCallback,
      p.invertCheckbox.GetOr(DefaultOptions.invertCheckbox))
  }

  /** Passing nothing gives the defaults. */
  lemma MergeNothingIsDefault()
    ensures Merge(NoOptions) == DefaultOptions
    ensures Merge(NoOptions) == Options("Don't track me", "Enable tracking", "", false, false, false, false)
  {
  }

  /** Passing every field gives back exactly those fields: no default
      leaks through. */
  lemma MergeSuppliedIsIdentity(o: Options)
    ensures Merge(Supplied(o)) == o
  {
  }

  // ---------------------------------------------------------------------
  // The persisted record
  // ---------------------------------------------------------------------

  /** The literal text `setPreference` stores. */
  function Encode(optOut: bool): (s: string)
    ensures s == "true" || s == "false"
    ensures (s == "true") == optOut
  {
    if optOut then "true" else "false"
  }

  /** `getPreferenceFromStorage`: the stored record decides when it is
      exactly "true" or "false"; an absent or any other record falls back to
      `initialOptOut`. */
  function PreferenceFromStorage(stored: Option<string>, initialOptOut: bool): (r: bool)
    ensures stored == Some("true") ==> r
    ensures stored == Some("false") ==> !r
    ensures stored != Some("true") && stored != Some("false") ==> r == initialOptOut
  {
    if stored == Some("true") then true
    else if stored == Some("false") then false
    else initialOptOut
  }

  /** Whatever the fallback, a result that differs from it was read from a
      record holding exactly its encoding. */
  lemma PreferenceFromStorageDeparts(stored: Option<string>, initialOptOut: bool)
    requires PreferenceFromStorage(stored, initialOptOut) != initialOptOut
    ensures stored == Some(Encode(PreferenceFromStorage(stored, initialOptOut)))
  {
  }

  /** Round trip: what `setPreference` stores, a later read gives back,
      whatever the configured default. */
  lemma StoreRoundTrip(optOut: bool, initialOptOut: bool)
    ensures PreferenceFromStorage(Some(Encode(optOut)), initialOptOut) == optOut
  {
  }

  // ---------------------------------------------------------------------
  // The published analytics flag
  // ---------------------------------------------------------------------

  const FlagPrefix := "ga-disable-"

  /** The global variable name the analytics library reads. */
  function FlagName(trackingID: string): (name: string)
    ensures |name| == |FlagPrefix| + |trackingID|
    ensures name[..|FlagPrefix|] == FlagPrefix
    ensures name[|FlagPrefix|..] == trackingID
  {
    FlagPrefix + trackingID
  }

  /** Different tracking IDs publish to different flags. */
  lemma FlagNameInjective(a: string, b: string)
    requires FlagName(a) == FlagName(b)
    ensures a == b
  {
    assert a == FlagName(a)[|FlagPrefix|..];
  }

  // ---------------------------------------------------------------------
  // Element kinds
  // ---------------------------------------------------------------------

  /** Upper case of one character. Only ASCII letters are mapped. */
  function AsciiUpper(c: char): char
  {
    if 'a' <= c <= 'z' then (c as int - 32) as char else c
  }

  /** `toUpperCase`, character by character. */
  function ToUpper(s: string): (r: string)
    ensures |r| == |s|
    ensures forall i :: 0 <= i < |s| ==> r[i] == AsciiUpper(s[i])
  {
    if s == [] then [] else [AsciiUpper(s[0])] + ToUpper(s[1..])
  }

  /** `isInput`: the tag name, upper-cased, is "INPUT". It accepts exactly
      the five-letter names that spell INPUT with each letter in either
      case. */
  function IsInput(tagName: string): (b: bool)
    ensures b <==>
      |tagName| == 5 && forall i :: 0 <= i < 5 ==> AsciiUpper(tagName[i]) == "INPUT"[i]
  {
    var u := ToUpper(tagName);
    assert (|tagName| == 5 && forall i :: 0 <= i < 5 ==> AsciiUpper(tagName[i]) == "INPUT"[i]) ==>
      forall i :: 0 <= i < 5 ==> u[i] == "INPUT"[i];
    u == "INPUT"
  }

  /** The three ways `setText` presents the state. */
  datatype ElementKind = CheckboxInput | OtherInput | OtherElement

  /** Which branch of `setText` an element takes: the tag decides whether it
      is an input, and for an input the `type` attribute (compared
      exactly) decides whether it is a checkbox. */
  function KindOf(tagName: string, typeAttr: Option<string>): (k: ElementKind)
    ensures k == CheckboxInput <==> IsInput(tagName) && typeAttr == Some("checkbox")
    ensures k == OtherInput <==> IsInput(tagName) && typeAttr != Some("checkbox")
    ensures k == OtherElement <==> !IsInput(tagName)
  {
    if IsInput(tagName) then
      if typeAttr == Some("checkbox") then CheckboxInput else OtherInput
    else OtherElement
  }

  // ---------------------------------------------------------------------
  // Rendering one element
  // ---------------------------------------------------------------------

  /** The fields of an element that `setText` may write. */
  datatype View = View(checked: bool, value: string, text: string)

  /** The label offers the action still open to the user. */
  function Label(o: Options, optedOut: bool): string
  {
    if optedOut then o.optInText else o.optOutText
  }

  /** A checkbox is ticked while tracking is enabled, or while the user is
      opted out when the configuration inverts it. */
  function CheckedFor(o: Options, optedOut: bool): bool
  {
    if o.invertCheckbox then optedOut else !optedOut
  }

  /** An element of kind `k` showing `v` displays the state `optedOut`. */
  predicate Shows(o: Options, optedOut: bool, k: ElementKind, v: View)
  {
    match k
    case CheckboxInput => v.checked == (o.invertCheckbox == optedOut)
    case OtherInput => v.value == Label(o, optedOut)
    case OtherElement => v.text == Label(o, optedOut)
  }

  /** `w` differs from `v` at most in the one field kind `k` displays. */
  predicate OtherFieldsKept(k: ElementKind, v: View, w: View)
  {
    match k
    case CheckboxInput => w.value == v.value && w.text == v.text
    case OtherInput => w.checked == v.checked && w.text == v.text
    case OtherElement => w.checked == v.checked && w.value == v.value
  }

  /** `setText` on an element of kind `k` currently showing `v`. */
  function Render(o: Options, optedOut: bool, k: ElementKind, v: View): (r: View)
    ensures Shows(o, optedOut, k, r)
    ensures OtherFieldsKept(k, v, r)
  {
    match k
    case CheckboxInput => v.(checked := CheckedFor(o, optedOut))
    case OtherInput => v.(value := Label(o, optedOut))
    case OtherElement => v.(text := Label(o, optedOut))
  }

  /** Rendering leaves an element alone exactly when it already shows the
      state. */
  lemma RenderFixedIffShows(o: Options, optedOut: bool, k: ElementKind, v: View)
    ensures Render(o, optedOut, k, v) == v <==> Shows(o, optedOut, k, v)
  {
  }

  /** Rendering twice is rendering once. */
  lemma RenderIdempotent(o: Options, optedOut: bool, k: ElementKind, v: View)
    ensures Render(o, optedOut, k, Render(o, optedOut, k, v)) == Render(o, optedOut, k, v)
  {
    RenderFixedIffShows(o, optedOut, k, Render(o, optedOut, k, v));
  }

  /** The result of rendering depends only on the state and the untouched
      fields, not on what the element showed before. */
  lemma RenderForgetsPreviousDisplay(o: Options, optedOut: bool, k: ElementKind, v: View, w: View)
    requires OtherFieldsKept(k, v, w)
    ensures Render(o, optedOut, k, v) == Render(o, optedOut, k, w)
  {
  }
}
