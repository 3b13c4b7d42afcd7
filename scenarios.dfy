/** Clients of the engine: the behaviours the repository's tests exercise
    and the properties that span several calls, each proved from the
    contracts of module Engine alone. */
module Scenarios {
  import opened Wrappers
  import opened Model
  import opened Engine

  /** A configuration with only a tracking ID, as every test passes. */
  function WithID(id: string): PartialOptions
  {
    NoOptions.(trackingID := Some(id))
  }

  /** The flag name the tests read. */
  lemma FlagNameTest()
    ensures FlagName("test") == "ga-disable-test"
  {
    assert FlagName("test") == FlagPrefix + "test";
  }

  /** The kinds of the elements the tests bind. */
  lemma TestElementKinds()
    ensures KindOf("P", None) == OtherElement
    ensures KindOf("INPUT", Some("button")) == OtherInput
    ensures KindOf("INPUT", Some("checkbox")) == CheckboxInput
  {
  }

  /** With an empty store and the defaults, the user is not opted out
      and the flag publishes false. */
  method StandardOptions() returns (optedOut: bool, flag: Option<bool>)
    ensures !optedOut && flag == Some(false)
  {
    FlagNameTest();
    var w := new Window(None, map[]);
    var t := new Trackless(WithID("test"), w);
    optedOut, flag := t.optedOut, w.Flag("ga-disable-test");
  }

  /** A stored "true" opts the user out whatever `initialOptOut` says, and
      publishes the flag; nothing is written and no callback runs. */
  method StoredTrueWins(initialOptOut: bool, hasCallback: bool)
    returns (optedOut: bool, flag: Option<bool>, stored: Option<string>, calls: nat)
    ensures optedOut && flag == Some(true) && stored == Some("true") && calls == 0
  {
    FlagNameTest();
    var w := new Window(Some("true"), map[]);
    var p := WithID("test").(initialOptOut := Some(initialOptOut), hasCallback := hasCallback);
    var t := new Trackless(p, w);
    optedOut, flag, stored, calls := t.optedOut, w.Flag("ga-disable-test"), w.store, |t.callbackLog|;
  }

  /** Without an override, a construction over any store state takes the
      record when it is "true" or "false" and the configured default
      otherwise, and leaves the store as it was. */
  method ConstructWithoutOverride(stored: Option<string>, initialOptOut: bool)
    returns (optedOut: bool, storedAfter: Option<string>)
    ensures stored == Some("false") ==> !optedOut
    ensures stored == Some("true") ==> optedOut
    ensures stored != Some("true") && stored != Some("false") ==> optedOut == initialOptOut
    ensures storedAfter == stored
  {
    var w := new Window(stored, map[]);
    var t := new Trackless(WithID("test").(initialOptOut := Some(initialOptOut)), w);
    optedOut, storedAfter := t.optedOut, w.store;
  }

  /** With `overrideOptOut` the configured default wins over any stored
      record, is written back, and the callback runs once with it. */
  method OverrideWins(stored: Option<string>, initialOptOut: bool)
    returns (optedOut: bool, storedAfter: Option<string>, args: seq<bool>)
    ensures optedOut == initialOptOut
    ensures storedAfter == Some(Encode(initialOptOut))
    ensures args == [initialOptOut]
  {
    var w := new Window(stored, map[]);
    var p := WithID("test").(initialOptOut := Some(initialOptOut), overrideOptOut := Some(true), hasCallback := true);
    var t := new Trackless(p, w);
    optedOut, storedAfter, args := t.optedOut, w.store, Args(t.callbackLog);
  }

  /** `setPreference(true)` stores "true". */
  method SavesPreference() returns (stored: Option<string>)
    ensures stored == Some("true")
  {
    var w := new Window(None, map[]);
    var t := new Trackless(WithID("test"), w);
    t.SetPreference(true);
    stored := w.store;
  }

  /** Round trip: whatever was stored before, after `setPreference(x)` a
      fresh instance without override, on the same window, starts at x. */
  method RoundTrip(stored: Option<string>, first: PartialOptions, second: PartialOptions, x: bool)
    returns (optedOut: bool)
    requires !Merge(second).overrideOptOut
    ensures optedOut == x
  {
    var w := new Window(stored, map[]);
    var t := new Trackless(first, w);
    t.SetPreference(x);
    var u := new Trackless(second, w);
    optedOut := u.optedOut;
  }

  /** A bound paragraph shows the opt-out prompt under the defaults and the
      opt-in prompt when the user starts opted out. */
  method ParagraphLabels(initialOptOut: bool) returns (text: string)
    ensures text == if initialOptOut then "Enable tracking" else "Don't track me"
  {
    TestElementKinds();
    var w := new Window(None, map[]);
    var t := new Trackless(WithID("test").(initialOptOut := Some(initialOptOut)), w);
    var p := new Element("P", None, false, "", "");
    t.BindElements([p]);
    text := p.innerText;
  }

  /** Custom labels are used, and re-rendered by `setPreference`. */
  method CustomLabels() returns (before: string, after: string)
    ensures before == "OPTOUT" && after == "OPTIN"
  {
    TestElementKinds();
    var w := new Window(None, map[]);
    var t := new Trackless(WithID("test").(optOutText := Some("OPTOUT"), optInText := Some("OPTIN")), w);
    var p := new Element("P", None, false, "", "");
    t.BindElements([p]);
    before := p.innerText;
    t.SetPreference(true);
    after := p.innerText;
  }

  /** A click on a bound paragraph opts the user out, publishes the flag,
      relabels the paragraph in the same step and suppresses the click's
      default action. */
  method ClickToggles()
    returns (flagBefore: Option<bool>, optedOut: bool, flagAfter: Option<bool>, text: string, prevented: bool)
    ensures flagBefore == Some(false)
    ensures optedOut && flagAfter == Some(true)
    ensures text == "Enable tracking" && prevented
  {
    TestElementKinds();
    FlagNameTest();
    var w := new Window(None, map[]);
    var t := new Trackless(WithID("test"), w);
    var p := new Element("P", None, false, "", "");
    assert p.Kind() == OtherElement;
    t.BindElements([p]);
    assert p in t.boundElements && !t.optedOut;
    flagBefore := w.Flag("ga-disable-test");
    assert flagBefore == Some(false);
    prevented := t.OnClick(Some(p));
    assert t.optedOut && p.innerText == "Enable tracking";
    optedOut, flagAfter, text := t.optedOut, w.Flag("ga-disable-test"), p.innerText;
  }

  /** A button input shows its label in `value`. */
  method InputValue() returns (before: string, after: string)
    ensures before == "Enable tracking" && after == "Don't track me"
  {
    TestElementKinds();
    var w := new Window(None, map[]);
    var t := new Trackless(WithID("test").(initialOptOut := Some(true)), w);
    var b := new Element("INPUT", Some("button"), false, "", "");
    t.BindElements([b]);
    before := b.value;
    t.SetPreference(false);
    after := b.value;
  }

  /** A checkbox is ticked while tracking is enabled; with
      `invertCheckbox` it is ticked while the user is opted out. */
  method CheckboxState(invert: bool) returns (before: bool, after: bool)
    ensures before == invert && after == !invert
  {
    TestElementKinds();
    var w := new Window(None, map[]);
    var t := new Trackless(WithID("test").(initialOptOut := Some(true), invertCheckbox := Some(invert)), w);
    var c := new Element("INPUT", Some("checkbox"), true, "", "");
    assert c.Kind() == CheckboxInput;
    t.BindElements([c]);
    assert c in t.boundElements;
    before := c.checked;
    assert before == invert;
    t.SetPreference(false);
    after := c.checked;
  }

  /** The callback sees each new value once, in call order, and each time
      sees the engine settled: the new state, its stored record, its flag,
      and a bound paragraph already relabelled. */
  method CallbackOrder() returns (args: seq<bool>, log: seq<Invocation>)
    ensures log == [SettledInvocation(true), SettledInvocation(false)]
    ensures args == [true, false]
  {
    TestElementKinds();
    var w := new Window(None, map[]);
    var t := new Trackless(WithID("test").(hasCallback := true), w);
    var p := new Element("P", None, false, "", "");
    t.BindElements([p]);
    t.SetPreference(true);
    t.SetPreference(false);
    log := t.callbackLog;
    args := Args(log);
  }

  /** Calling `setPreference(x)` twice leaves the state, the store, the flag
      and every bound element as one call does; only the callback log
      grows twice. */
  method SetPreferenceTwice(t: Trackless, x: bool)
    modifies t, t.window, t.boundElements
    ensures t.optedOut == x && t.window.store == Some(Encode(x))
    ensures t.window.flags == old(t.window.flags)[FlagName(t.options.trackingID) := x]
    ensures t.boundElements == old(t.boundElements)
    ensures forall e :: e in t.boundElements ==>
      e.Display() == Render(t.options, x, e.Kind(), old(e.Display())) &&
      e.clickListeners == old(e.clickListeners)
    ensures t.callbackLog ==
      old(t.callbackLog) + if t.options.hasCallback then [SettledInvocation(x), SettledInvocation(x)] else []
  {
    t.SetPreference(x);
    t.SetPreference(x);
    forall e | e in t.boundElements
      ensures e.Display() == Render(t.options, x, e.Kind(), old(e.Display())) &&
        e.clickListeners == old(e.clickListeners)
    {
      RenderIdempotent(t.options, x, e.Kind(), old(e.Display()));
    }
  }

  /** Binding an element twice keeps both entries; it is still shown
      correctly and holds the handler once. */
  method DuplicateBinding() returns (bound: nat, text: string, handlers: nat)
    ensures bound == 2 && text == "Don't track me" && handlers == 1
  {
    TestElementKinds();
    var w := new Window(None, map[]);
    var t := new Trackless(WithID("test"), w);
    var p := new Element("P", None, false, "", "");
    t.BindElements([p]);
    t.BindElements([p]);
    bound, text, handlers := |t.boundElements|, p.innerText, |p.clickListeners|;
  }

  /** After `unBindAllElements` the element loses the handler and later
      preference changes no longer render it. */
  method UnbindStopsRendering() returns (text: string, handlers: nat, optedOut: bool)
    ensures text == "Don't track me" && handlers == 0 && optedOut
  {
    TestElementKinds();
    var w := new Window(None, map[]);
    var t := new Trackless(WithID("test"), w);
    var p := new Element("P", None, false, "", "");
    t.BindElements([p]);
    assert p in t.boundElements;
    t.UnBindAllElements();
    assert p.innerText == "Don't track me" && p.clickListeners == {};
    t.SetPreference(true);
    text, handlers, optedOut := p.innerText, |p.clickListeners|, t.optedOut;
  }
}
