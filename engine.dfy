/** The Trackless preference engine as a class over page state: the bound
    elements, the browser window (its storage entry and its global flags)
    and the log of callback invocations. */
module Engine {
  import opened Wrappers
  import opened Model

  /** A page element. Its tag and `type` attribute are fixed; `setText`
      writes `checked`, `value` and `innerText`, and binding adds the click
      handler of an engine instance to its listeners. */
  class Element {
    const tagName: string
    const typeAttr: Option<string>
    var checked: bool
    var value: string
    var innerText: string
    var clickListeners: set<Trackless>

    constructor (tagName: string, typeAttr: Option<string>, checked: bool, value: string, innerText: string)
      ensures this.tagName == tagName && this.typeAttr == typeAttr
      ensures Display() == View(checked, value, innerText)
      ensures clickListeners == {}
    {
      this.tagName := tagName;
      this.typeAttr := typeAttr;
      this.checked := checked;
      this.value := value;
      this.innerText := innerText;
      this.clickListeners := {};
    }

    function Kind(): ElementKind
    {
      KindOf(tagName, typeAttr)
    }

    /** What the element currently displays. */
    function Display(): View
      reads this
    {
      View(checked, value, innerText)
    }
  }

  /** The browser state the engine writes: the stored preference record
      (absent or a string) and the window's global boolean variables. */
  class Window {
    var store: Option<string>
    var flags: map<string, bool>

    constructor (store: Option<string>, flags: map<string, bool>)
      ensures this.store == store && this.flags == flags
    {
      this.store := store;
      this.flags := flags;
    }

    function Flag(name: string): Option<bool>
      reads this
    {
      if name in flags then Some(flags[name]) else None
    }
  }

  /** One invocation of the caller's callback: the value passed, and the
      engine state the callback can observe while it runs. */
  datatype Invocation = Invocation(
    arg: bool,
    optedOut: bool,
    stored: Option<string>,
    flag: Option<bool>,
    elementsShown: bool)

  /** The invocation `setPreference(optOut)` makes once all its other
      effects are visible. */
  function SettledInvocation(optOut: bool): Invocation
  {
    Invocation(optOut, optOut, Some(Encode(optOut)), Some(optOut), true)
  }

  /** The arguments the callback received, in order. */
  function Args(log: seq<Invocation>): (r: seq<bool>)
    ensures |r| == |log|
    ensures forall i :: 0 <= i < |log| ==> r[i] == log[i].arg
  {
    if log == [] then [] else [log[0].arg] + Args(log[1..])
  }

  /** Whether a click on `currentTarget` has its default action suppressed:
      only the `type` attribute is consulted, not the tag. */
  function PreventsDefault(currentTarget: Option<Element>): bool
  {
    currentTarget.Some? && currentTarget.value.typeAttr != Some("checkbox")
  }

  /** A checkbox input never has its default action suppressed, an input
      of any other type always does, and an element that is not an input is
      suppressed unless it carries `type="checkbox"`. */
  lemma PreventsDefaultByKind(e: Element)
    ensures e.Kind() == CheckboxInput ==> !PreventsDefault(Some(e))
    ensures e.Kind() == OtherInput ==> PreventsDefault(Some(e))
    ensures e.Kind() == OtherElement ==> (PreventsDefault(Some(e)) <==> e.typeAttr != Some("checkbox"))
  {
  }

  class Trackless {
    /** Whether this user has opted out. */
    var optedOut: bool
    const options: Options
    const window: Window
    var boundElements: seq<Element>
    var callbackLog: seq<Invocation>

    /** The analytics flag agrees with the state. */
    predicate FlagPublished()
      reads this, window
    {
      window.Flag(FlagName(options.trackingID)) == Some(optedOut)
    }

    /** Every bound element displays the current state. */
    predicate Synced()
      reads this, boundElements
    {
      forall i :: 0 <= i < |boundElements| ==>
        Shows(options, optedOut, boundElements[i].Kind(), boundElements[i].Display())
    }

    /** Everything `setPreference(optOut)` promises, between the state
        before the call and the state after it. */
    twostate predicate PreferenceSet(optOut: bool)
      reads this, window, boundElements
    {
      && optedOut == optOut
      && window.store == Some(Encode(optOut))
      && window.flags == old(window.flags)[FlagName(options.trackingID) := optOut]
      && boundElements == old(boundElements)
      && (forall e :: e in boundElements ==>
            e.Display() == Render(options, optOut, e.Kind(), old(e.Display())) &&
            e.clickListeners == old(e.clickListeners))
      && callbackLog == old(callbackLog) + (if options.hasCallback then [SettledInvocation(optOut)] else [])
    }

    /** Construction. With `overrideOptOut` the configured initial value is
        set through `SetPreference`, so it is stored and the callback runs;
        otherwise the stored record is read and the flag published. */
    constructor (partial: PartialOptions, w: Window)
      modifies w
      ensures options == Merge(partial) && window == w
      ensures boundElements == []
      ensures options.overrideOptOut ==> optedOut == options.initialOptOut
      ensures !options.overrideOptOut ==>
        optedOut == PreferenceFromStorage(old(w.store), options.initialOptOut)
      ensures w.store == if options.overrideOptOut then Some(Encode(optedOut)) else old(w.store)
      ensures w.flags == old(w.flags)[FlagName(options.trackingID) := optedOut]
      ensures FlagPublished()
      ensures callbackLog ==
        if options.overrideOptOut && options.hasCallback then [SettledInvocation(optedOut)] else []
    {
      options := Merge(partial);
      window := w;
      boundElements := [];
      callbackLog := [];
      new;
      if options.overrideOptOut {
        SetPreference(options.initialOptOut);
      } else {
        var _ := GetPreferenceFromStorage();
        SetGAFlag();
      }
    }

    /** Binds the elements a selector query returned, in query order and
        without removing duplicates, then refreshes every bound element. */
    method BindElements(matches: seq<Element>)
      modifies this`boundElements, boundElements, matches
      ensures boundElements == old(boundElements) + matches
      ensures optedOut == old(optedOut) && callbackLog == old(callbackLog)
      ensures Synced()
      ensures forall e :: e in boundElements ==>
        e.Display() == Render(options, optedOut, e.Kind(), old(e.Display()))
      ensures forall e :: e in boundElements ==>
        e.clickListeners == if e in matches then old(e.clickListeners) + {this} else old(e.clickListeners)
    {
      ghost var all := old(boundElements) + matches;
      var i := 0;
      while i < |matches|
        invariant 0 <= i <= |matches|
        invariant boundElements == old(boundElements) + matches[..i]
        invariant optedOut == old(optedOut) && callbackLog == old(callbackLog)
        invariant forall e :: e in all ==>
          e.Display() == if e in matches[..i] then Render(options, optedOut, e.Kind(), old(e.Display())) else old(e.Display())
        invariant forall e :: e in all ==>
          e.clickListeners == if e in matches[..i] then old(e.clickListeners) + {this} else old(e.clickListeners)
      {
        var e := matches[i];
        RenderIdempotent(options, optedOut, e.Kind(), old(e.Display()));
        BindElement(e);
        assert matches[..i + 1] == matches[..i] + [e];
        i := i + 1;
      }
      assert matches[..i] == matches;
      UpdateLabels();
      forall e | e in all
        ensures e.Display() == Render(options, optedOut, e.Kind(), old(e.Display()))
      {
        RenderIdempotent(options, optedOut, e.Kind(), old(e.Display()));
      }
    }

    /** Removes this engine's click handler from every bound element and
        empties the bound list. */
    method UnBindAllElements()
      modifies this`boundElements, boundElements
      ensures boundElements == []
      ensures optedOut == old(optedOut) && callbackLog == old(callbackLog)
      ensures forall e :: e in old(boundElements) ==>
        e.clickListeners == old(e.clickListeners) - {this} && e.Display() == old(e.Display())
    {
      var i := 0;
      while i < |boundElements|
        invariant 0 <= i <= |boundElements|
        invariant boundElements == old(boundElements)
        invariant forall e :: e in boundElements ==>
          e.clickListeners == (if e in boundElements[..i] then old(e.clickListeners) - {this} else old(e.clickListeners))
        invariant forall e :: e in boundElements ==> e.Display() == old(e.Display())
      {
        var e := boundElements[i];
        e.clickListeners := e.clickListeners - {this};
        assert boundElements[..i + 1] == boundElements[..i] + [e];
        i := i + 1;
      }
      boundElements := [];
    }

    /** Sets the preference: the state, then the stored record, then the
        flag, then every bound element, and last the callback. */
    method SetPreference(optOut: bool)
      modifies this, window, boundElements
      ensures PreferenceSet(optOut)
      ensures FlagPublished() && Synced()
    {
      optedOut := optOut;
      window.store := Some(Encode(optOut));
      SetGAFlag();
      UpdateLabels();
      if options.hasCallback {
        var observed := Invocation(optOut, optedOut, window.store, window.Flag(FlagName(options.trackingID)), Synced());
        callbackLog := callbackLog + [observed];
      }
    }

    /** `setText`: renders one element from the current state. */
    method SetText(e: Element)
      modifies e`checked, e`value, e`innerText
      ensures e.Display() == Render(options, optedOut, e.Kind(), old(e.Display()))
    {
      var caption := if optedOut then options.optInText else options.optOutText;
      if IsInput(e.tagName) {
        if e.typeAttr == Some("checkbox") {
          e.checked := if options.invertCheckbox then optedOut else !optedOut;
        } else {
          e.value := caption;
        }
      } else {
        e.innerText := caption;
      }
    }

    /** `bindElement`: attaches the click handler, renders the element and
        appends it to the bound list. */
    method BindElement(e: Element)
      modifies this`boundElements, e
      ensures boundElements == old(boundElements) + [e]
      ensures e.clickListeners == old(e.clickListeners) + {this}
      ensures e.Display() == Render(options, optedOut, e.Kind(), old(e.Display()))
    {
      e.clickListeners := e.clickListeners + {this};
      SetText(e);
      boundElements := boundElements + [e];
    }

    /** `getPreferenceFromStorage`: sets the state from the stored record. */
    method GetPreferenceFromStorage() returns (r: bool)
      modifies this`optedOut
      ensures optedOut == r == PreferenceFromStorage(window.store, options.initialOptOut)
    {
      var stored := window.store;
      if stored == Some("true") {
        optedOut := true;
      } else if stored == Some("false") {
        optedOut := false;
      } else {
        optedOut := options.initialOptOut;
      }
      r := optedOut;
    }

    /** `updateLabels`: renders every bound element, in order. An element
        bound twice is rendered twice, to the same result. */
    method UpdateLabels()
      modifies boundElements
      ensures Synced()
      ensures forall e :: e in boundElements ==>
        e.Display() == Render(options, optedOut, e.Kind(), old(e.Display())) &&
        e.clickListeners == old(e.clickListeners)
    {
      var i := 0;
      while i < |boundElements|
        invariant 0 <= i <= |boundElements|
        invariant forall e :: e in boundElements ==>
          e.Display() == (if e in boundElements[..i] then Render(options, optedOut, e.Kind(), old(e.Display())) else old(e.Display()))
        invariant forall e :: e in boundElements ==> e.clickListeners == old(e.clickListeners)
      {
        var e := boundElements[i];
        RenderIdempotent(options, optedOut, e.Kind(), old(e.Display()));
        SetText(e);
        assert boundElements[..i + 1] == boundElements[..i] + [e];
        i := i + 1;
      }
      assert boundElements[..i] == boundElements;
    }

    /** `setGAFlag`: publishes the state under the tracking ID's flag. */
    method SetGAFlag()
      modifies window`flags
      ensures window.flags == old(window.flags)[FlagName(options.trackingID) := optedOut]
    {
      window.flags := window.flags[FlagName(options.trackingID) := optedOut];
    }

    /** `togglePreference`: sets the negation of the current state. */
    method TogglePreference()
      modifies this, window, boundElements
      ensures PreferenceSet(!old(optedOut))
      ensures FlagPublished() && Synced()
    {
      SetPreference(!optedOut);
    }

    /** `onClick`: suppresses the default action unless the clicked
        element's `type` attribute is "checkbox", then toggles. */
    method OnClick(currentTarget: Option<Element>) returns (defaultPrevented: bool)
      modifies this, window, boundElements
      ensures defaultPrevented == PreventsDefault(currentTarget)
      ensures PreferenceSet(!old(optedOut))
      ensures FlagPublished() && Synced()
    {
      defaultPrevented := false;
      if currentTarget.Some? && currentTarget.value.typeAttr != Some("checkbox") {
        defaultPrevented := true;
      }
      TogglePreference();
    }
  }
}
