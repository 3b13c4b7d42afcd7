# Trackless preference engine in Dafny

Trackless is a small browser component. It lets a user opt out of Google
Analytics tracking. It stores the choice in `localStorage` under the key
`"trackless"`. It publishes the choice as the global flag
`"ga-disable-" + trackingID`, which the analytics snippet reads. It keeps
every bound page element showing the current choice. It runs an optional
callback whenever the choice is set.

This project models the `Trackless` class of `index.ts` and proves what it
promises:

- `wrappers.dfy` (module `Wrappers`): the `Option` type.
- `model.dfy` (module `Model`): the pure rules.
  - How the options are merged with the defaults.
  - The literal `"true"`/`"false"` stored record and how it is read back.
  - The flag name.
  - `isInput`, and the three ways `setText` presents the state (checkbox,
    other input, other element), as a function `Render` on an element's
    displayed fields, with the predicate `Shows` saying when an element
    displays a state.
- `engine.dfy` (module `Engine`): the stateful engine.
  - `Element` is a page element. Its tag and `type` attribute are fixed.
    Its `checked`, `value` and `innerText` fields are written in place.
    Its click listeners are a set of engine instances.
  - `Window` holds the browser state the engine writes: the storage entry
    (`Option<string>`, absent or a string) and the global flags (a map
    from name to boolean). One window can be shared by several instances,
    as in a page.
  - `Trackless` holds `optedOut`, the resolved options, the bound element
    list and the log of callback invocations. Each method of the source is
    a method here, with the same branches and the same order of side
    effects. `forEach` loops are `while` loops with invariants.
  - The callback is represented by its log. Each entry records the value
    passed and the state the callback can observe while it runs: the
    engine's state, the stored record, the flag, and whether every bound
    element already shows the new state. This is how the model states
    that the callback runs last.
- `scenarios.dfy` (module `Scenarios`): clients proved from the engine's
  contracts alone. They cover the cases of `index.test.ts` and the
  properties that span several calls: the round trip through the store,
  the override path, idempotence, duplicate binding and unbinding.

A checkbox is checked when the user is not opted out, unless
`invertCheckbox` is set (index.ts:38-39, index.ts:126-128;
index.test.ts:117-152).

## Model

| member | source | states |
|---|---|---|
| `Model.Merge` | index.ts:75 | each supplied field wins; each missing field takes its default: "Don't track me", "Enable tracking", "", false; the fields without a default become false |
| `Model.MergeNothingIsDefault` | index.ts:45-50 | constructing with `{}` yields exactly `DefaultOptions`, the `DEFAULT_OPTIONS` record: "Don't track me", "Enable tracking", an empty tracking ID and `initialOptOut` false, with the three fields it leaves undefined false |
| `Model.MergeSuppliedIsIdentity` | index.ts:75 | supplying every field gives back exactly those fields; no default leaks through |
| `Model.Encode` | index.ts:111 | the stored text is "true" or "false", and it is "true" exactly when opted out |
| `Model.PreferenceFromStorage` | index.ts:143-157 | a stored "true" gives true and a stored "false" gives false, whatever the default; an absent or any other record gives `initialOptOut` |
| `Model.PreferenceFromStorageDeparts` | index.ts:143-157 | a result that differs from the default was read from a record holding exactly its encoding |
| `Model.StoreRoundTrip` | index.ts:144-150 | reading back what `setPreference` stored gives the stored value, whatever the default |
| `Model.FlagName` | index.ts:165-166 | the flag name is "ga-disable-" followed by the tracking ID |
| `Model.FlagNameInjective` | index.ts:165-166 | different tracking IDs publish to different flags |
| `Model.ToUpper` | index.ts:53 | upper-casing keeps the length and maps every character by `AsciiUpper` |
| `Model.IsInput` | index.ts:52-54 | `isInput` holds exactly for five-letter tags that spell INPUT with each letter in either case |
| `Model.KindOf` | index.ts:124-125 | an element is a checkbox exactly when it is an input whose `type` is "checkbox"; it is some other input exactly when it is an input with any other `type`; it is a non-input otherwise |
| `Model.Render` | index.ts:119-134 | after `setText` the element shows the state: a checkbox is checked iff `invertCheckbox` equals `optedOut`; another input's value, or a non-input's text, is the opt-in label when opted out and the opt-out label otherwise; every other field keeps its value |
| `Model.RenderFixedIffShows` | index.ts:119-134 | `setText` leaves an element unchanged exactly when it already shows the state |
| `Model.RenderIdempotent` | index.ts:119-134 | rendering an element twice gives the same result as rendering it once |
| `Model.RenderForgetsPreviousDisplay` | index.ts:119-134 | the rendered result does not depend on what the displayed field held before |
| `Engine.PreventsDefaultByKind` | index.ts:173-179 | a checkbox input's click is never suppressed; another input's click always is; a non-input's click is suppressed unless it carries `type="checkbox"`, because only the attribute is checked |
| `Engine.Trackless.constructor` | index.ts:74-85 | options are `Merge(partial)` and no element is bound. With override: `optedOut` is `initialOptOut`, the store is overwritten to match, and a present callback is invoked once with that value. Without override: `optedOut` is `PreferenceFromStorage(stored, initialOptOut)`, the store is unchanged, and the callback is not invoked. Either way the flag equals `optedOut` and no other flag changes |
| `Engine.Trackless.BindElements` | index.ts:90-96 | the bound list becomes the old list followed by the matches, in order and with duplicates. Afterwards every bound element shows the state, and each has been rendered from its previous display. Each match gains this engine's click handler. State and callback log are unchanged |
| `Engine.Trackless.UnBindAllElements` | index.ts:101-107 | the bound list is empty; each previously bound element has lost this engine's click handler and keeps its display |
| `Engine.Trackless.SetPreference` | index.ts:109-117 | `optedOut` is x; the store holds `Encode(x)`; the flag is x and no other flag changes; the bound list is unchanged and every bound element is rendered for x; a present callback gets exactly one more invocation, with x, observing the settled state |
| `Engine.Trackless.SetText` | index.ts:119-135 | the element's display becomes `Render` of its previous display for the current state |
| `Engine.Trackless.BindElement` | index.ts:137-141 | the element gains the click handler, is rendered, and is appended to the bound list |
| `Engine.Trackless.GetPreferenceFromStorage` | index.ts:143-158 | `optedOut`, and the value returned, become `PreferenceFromStorage` of the stored record |
| `Engine.Trackless.UpdateLabels` | index.ts:160-162 | every bound element, including one bound twice, is rendered once from its previous display, and all of them then show the state |
| `Engine.Trackless.SetGAFlag` | index.ts:164-168 | the flag named for the tracking ID becomes `optedOut` and no other flag changes |
| `Engine.Trackless.TogglePreference` | index.ts:170 | everything `SetPreference` promises, for the negation of the previous state |
| `Engine.Trackless.OnClick` | index.ts:172-181 | the default action is suppressed exactly when there is a current target whose `type` attribute is not "checkbox"; then the state is toggled with all `SetPreference` effects |
| `Scenarios.StandardOptions` | index.test.ts:8-13 | with an empty store and only a tracking ID, the user is not opted out and "ga-disable-test" is false |
| `Scenarios.StoredTrueWins` | index.test.ts:15-40 | a stored "true" opts the user out whatever `initialOptOut` is; "ga-disable-test" is true; the store is not rewritten and the callback is not invoked |
| `Scenarios.ConstructWithoutOverride` | index.ts:81-83 | without override, any prior store state is read by the three-way rule and left unchanged |
| `Scenarios.OverrideWins` | index.ts:79-80 | with override, `initialOptOut` wins over any stored record, is written to the store, and the callback is invoked once with it during construction |
| `Scenarios.SavesPreference` | index.test.ts:24-32 | `setPreference(true)` stores "true" |
| `Scenarios.RoundTrip` | index.ts:81-83 | after `setPreference(x)`, a fresh instance on the same window without override starts at x, whatever was stored before and whatever either configuration says |
| `Scenarios.ParagraphLabels` | index.test.ts:42-63 | a bound paragraph reads "Don't track me" by default and "Enable tracking" when the user starts opted out |
| `Scenarios.CustomLabels` | index.test.ts:65-80 | custom labels are shown, and `setPreference(true)` switches the paragraph to the opt-in label |
| `Scenarios.ClickToggles` | index.test.ts:82-97 | a click on a bound paragraph opts the user out; the flag goes from false to true; the text becomes "Enable tracking"; the default action is suppressed |
| `Scenarios.InputValue` | index.test.ts:99-115 | a button input's value goes from "Enable tracking" to "Don't track me" |
| `Scenarios.CheckboxState` | index.test.ts:117-152 | when opted out, a checkbox is unchecked, or checked with inversion; after `setPreference(false)` it flips |
| `Scenarios.CallbackOrder` | index.test.ts:154-169 | with a paragraph bound, two calls invoke the callback with true then false, and the log is exactly `SettledInvocation(true)`, `SettledInvocation(false)`: each invocation sees the new state, its stored record, its flag and every bound element already showing it |
| `Scenarios.SetPreferenceTwice` | index.ts:109-117 | two calls with the same x leave `optedOut`, the store, the flags and every bound element's display and click listeners as one call does; only the callback log grows twice |
| `Scenarios.DuplicateBinding` | index.ts:137-141 | binding the same element twice keeps two list entries; the element still shows the state and holds one click handler |
| `Scenarios.UnbindStopsRendering` | index.ts:101-107 | after unbinding, the element has no handler and a later `setPreference` does not re-render it |

## Left out

- `Trackless.processQueue` (index.ts:60-64) calls caller-supplied closures with the class. Nothing about them can be stated beyond the order of the calls.
- The `console.error` message for an empty tracking ID (index.ts:76-78) is logging only. Construction proceeds, as in the model, and the flag is then named "ga-disable-".
- Selector matching is not modelled. `BindElements` receives the elements the query returned, in query order, so the default selector ".trackless" does not appear.
- Event dispatch is not modelled. An event listener is represented by the engine instance in the element's `clickListeners` set, so adding the same handler twice leaves it once, as the browser does. `OnClick` is called with the event's current target. It returns whether it called `preventDefault`, and what the browser then does is not modelled.
- `localStorage` is represented only by its entry under "trackless". A storage that throws is not modelled; the source does not catch such errors either.
- Model.ToUpper: maps only ASCII letters, unlike JavaScript's `toUpperCase`. A tag name with non-ASCII letters that upper-case to ASCII (such as U+0131) is therefore not recognised as an input.
- Model.Merge: a field passed explicitly as `undefined` is treated as not supplied. The object spread would copy the `undefined` over the default.
- The callback's own code is not modelled, so a callback that calls back into the engine (re-entrancy) is not covered. The log records what each invocation is passed and what it can observe.
- `index.d.ts` is a generated type declaration with no behaviour.
