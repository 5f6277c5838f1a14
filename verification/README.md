# Themed user-information form widget — Dafny model

The widget is a user-information form embedded in a design-tool canvas
element. Its logic lives in `script.js`:

- `applyConfigToUI` overlays a host-supplied configuration onto a fixed
  default table. It re-coalesces the font family, font size and three texts
  with `||`, then writes colours, a font stack and proportional font sizes
  to the page's regions. It returns early when the root region is missing.
- `mapToCapabilities` gives the host editor a descriptor of get/set slots.
  There are five colour slots, no borderables, one font-family slot and one
  font-size slot. Each setter updates a shared snapshot and forwards a
  one-key `setConfig` payload.
- `mapToEditPanelValues` lists the three free-text keys in a fixed order.
- The submit handler fills a confirmation summary. An empty field shows
  "—". The password shows as at least six bullets.
- A toggle shows or hides the password.

The model is functional. JavaScript values are a datatype
(`JsValues.JsValue`) with `Truthy` and `||`. A configuration object is a
map from the ten keys to values. The merge reads each key as
`Object.assign` leaves it, and a lemma equates it with map override. A render is a pure function from (configuration, page) to an
optional record of every assignment it makes. The page is abstracted to
presence flags and region counts. The capability adapter is a state
(snapshot, forwarded payloads), and each setter is a transition on it.

Modules, in dependency order: `Optional` (Option), `Sequences` (`Repeat`), `JsValues`,
`Configuration` (keys, default table, merge), `Renderer`
(`applyConfigToUI`, start-up), `Capabilities` (descriptor, setters,
edit panel), `FormSummary` (submit summary, password toggle).

Only the font family, the font size and the three texts are re-coalesced
with `||` (script.js:17-18, 86-88). A colour key that is present but empty
or `undefined` is assigned as it is (script.js:38-62).
`Renderer.ColoursNotCoalesced` states this.

## Model

| member | source | states |
|---|---|---|
| `JsValues.Or` | script.js:17-18 | JavaScript's logical or returns one of its operands: `a` exactly when `a` is truthy. The result is truthy iff either operand is. |
| `Configuration.Merge` | script.js:16 | For each of the ten keys, the merged value is the input's value when the key is present, even when it is falsy or `undefined`. Otherwise it is the default. A missing configuration behaves like `{}`. |
| `Configuration.MergeIsObjectAssign` | script.js:16 | The merged configuration, seen as an object, is the default object overridden by the input's own keys, as `Object.assign` does. |
| `Configuration.MergeOfNothingIsDefault` | script.js:2-13 | Merging nothing, `{}` or the default table itself yields exactly the default table. |
| `Configuration.MergeOfComplete` | script.js:105 | A configuration that carries all ten keys passes through the merge unchanged. |
| `Configuration.MergeOverride` | script.js:16 | Adding one key to the input changes that key of the merged configuration, and only that key. |
| `Renderer.Render` | script.js:15-89 | A render makes assignments iff the root region exists. The modal parts and the inline message are styled iff they exist. There is one style per matching label-like region and one per small-text region. |
| `Renderer.RenderColours` | script.js:37-63 | The root gets the background colour. The card, header and each present modal part get the surface colour. The body, title, inline message and edit-button text get the text colour. The preview button's background and border get the primary colour, and the edit border gets the secondary colour. The confirm button is always `#16a34a`. |
| `Renderer.ColoursNotCoalesced` | script.js:38-62 | A colour key present in the input is assigned verbatim, even when empty or `undefined`. Only an absent key takes the default. |
| `Renderer.BaseFontFallbacks` | script.js:17-18 | The family and base size are the merged values when truthy, and "Inter" and 16 otherwise. The family written is never falsy. |
| `Renderer.TextFallbacks` | script.js:86-88 | The title, submit and modal-title texts are the merged values when truthy, and the defaults otherwise. None of them is ever falsy. |
| `Renderer.SizeRatios` | script.js:70-83 | The root size is the base joined to the unit, with no multiplication. The title is 1.5×, the modal label 1.25×, every label/dt 0.9× and every small-text region 0.85×. A numeric base is never 0, and the title and modal sizes are 1.5 and 1.25 times the root's. |
| `Renderer.FontStackUniform` | script.js:65-83 | The body, title, modal label and every label-like and small-text region share one font stack. That stack is the effective family followed by the fixed fallback list. |
| `Renderer.DefaultMatchesEmpty` | script.js:93-96 | Rendering the default table, `{}` or no configuration gives identical assignments. |
| `Renderer.FontSizeTwentyExample` | script.js:71-83 | With `{font_size: 20}`, sizes are 20, 30, 25, 18 and 17 px, and the family, background and title text are the defaults. |
| `Renderer.FontSizeTrueExample` | script.js:71-73 | With `{font_size: true}`, the root's size is `true` joined to the unit as text, while the title and modal-label sizes multiply it by 1.5 and 1.25. |
| `Renderer.Apply` | script.js:101-103 | Delivering a configuration never changes which regions exist. On a page with a root, the last render's assignments are then those of that configuration. Without a root the page is left exactly as it was. |
| `Renderer.MissingRootNoChange` | script.js:35 | With the root missing, rendering makes no assignment and leaves the page as it was. |
| `Renderer.LastWriteWins` | script.js:101-103 | On a page whose regions stay the same between deliveries, after two deliveries the last render's assignments are exactly those the second alone would make. |
| `Renderer.ApplyIdempotent` | script.js:102 | Delivering the same configuration twice equals delivering it once. |
| `Renderer.Startup` | script.js:92-97 | Without the host SDK the last render's assignments are those of the default table, or the page is left unchanged when the root is missing. With the SDK, start-up renders nothing itself. |
| `Capabilities.MapToCapabilities` | script.js:104-105 | A fresh descriptor has forwarded nothing. Each slot's getter returns the merged value of its key. |
| `Capabilities.LayoutShape` | script.js:106-159 | There are exactly five recolorables, over background, surface, text, primary and secondary in that order. Borderables are empty. There is one font-family slot and one font-size slot. |
| `Capabilities.SlotKeyInjective` | script.js:107-158 | No two slots of the descriptor read or write the same key. |
| `Capabilities.SetSlot` | script.js:110-113 | After `set(v)`, that slot's getter returns `v`, and every other slot and key is unchanged. Exactly one payload is appended, and earlier payloads are kept. That payload has only the slot's key, bound to `v` unvalidated. |
| `Capabilities.SetSlotKeepsSync` | script.js:110-113 | If the snapshot equals the host's store folded with the forwarded payloads, it still does after one more `set`. |
| `Capabilities.SetAllKeepsSync` | script.js:104-159 | After any sequence of setter calls on a fresh descriptor, re-merging the original configuration with all forwarded payloads gives the snapshot. |
| `Capabilities.FreshInSync` | script.js:105 | A fresh descriptor's snapshot is the merge of its configuration with nothing forwarded. |
| `Capabilities.EditPanelValues` | script.js:161-168 | There are exactly three entries: `form_title`, `submit_button_text`, `modal_title`, in that order. Each holds the merged value with no falsy fallback. |
| `Capabilities.PanelKeepsFalsyText` | script.js:164 | A falsy `form_title` shows as it is in the edit panel, while the render assigns the default title instead. |
| `Sequences.Repeat` | script.js:220 | `n` copies of `x`: length `n`, every element `x`. |
| `FormSummary.SummaryField` | script.js:207-216 | A summary line is the field's value when it is non-empty and "—" otherwise. It is never empty. |
| `FormSummary.PasswordSummary` | script.js:218-220 | The password line is "—" iff the password is empty. Otherwise it is `max(6, n)` bullets, so never fewer than 6. It shares no character with the password except the bullet. |
| `FormSummary.MaskRevealsOnlyLength` | script.js:220 | Passwords of equal length give the same summary. |
| `FormSummary.ShortPasswordsLookAlike` | script.js:220 | All passwords of 1 to 6 characters give the same summary. |
| `FormSummary.Submit` | script.js:190-224 | An invalid form is rejected with the correction message. A valid one gets a summary built field by field as above. |
| `FormSummary.SummaryNeverBlank` | script.js:207-220 | An accepted summary has no blank line. Its password line has no password character other than the bullet. |
| `FormSummary.Toggle` | script.js:179-183 | A `password` input becomes `text` with label "Hide". Any other type becomes `password` with label "Show". |
| `FormSummary.ToggleTwoState` | script.js:180-182 | A click always lands in one of the two states. From either state a click changes it, and two clicks restore it. |

## Left out

- Renderer.LastWriteWins: the model assumes the regions matched by the label and small-text selectors do not change between deliveries. The handlers do change them. The submit handler gives the inline message the `text-sm` class (script.js:195), which puts it in the small-text group (script.js:79). The confirm handler replaces that class with `mt-3` (script.js:244), which takes it out again. An element that leaves a group keeps the style of the earlier delivery. So render(c1), confirm, render(c2) leaves c1's small-text size and font stack on the inline message, which render(c2) alone would not have styled. Per-element style history is not modelled.
- Renderer.LastWriteWins, Renderer.Apply and Renderer.ColoursNotCoalesced: the model records the assignments a render makes, not the styles the browser computes from them. The browser ignores a style value it cannot parse, such as `undefined` (converted to the text "undefined") or an unvalidated colour like `"notacolor"` forwarded by a setter (script.js:110-113), so the element keeps the earlier delivery's value. An empty string clears the inline value instead. So after `{background_color: "#fff"}` then `{background_color: undefined}` the root still shows `#fff`, which the second delivery alone would not. The model's last-write-wins holds of assignments only.
- DOM lookups and `style` assignment: each region becomes a presence flag or a count, and the assignments become a record.
- The number-to-string formatting of `+ "px"`: a numeric base gives `Px(base × ratio)` over reals, and the IEEE rounding of `0.9` and `0.85` is ignored.
- JavaScript coercion of a non-numeric `font_size` and of a non-string font family is kept symbolic, because the widget never relies on it. The derived sizes multiply the base (script.js:72-81), so `"20" * 1.5` is `Coerced("20", 1.5)`. The root's size only joins the base to the unit (script.js:71), so `true` is `Suffixed(true)`, the text "truepx". For a non-string family `FontStack.Css` is `None`.
- NaN is not a modelled number, so `NaN` as a falsy font size is not represented.
- Unknown configuration keys are not modelled: the merge copies them but nothing reads them.
- A truthy configuration that is not an object (for example a string) is not modelled. `Object.assign` would copy its indexed characters as keys.
- The card, header, title, preview, edit, confirm and modal-label elements are looked up without a guard. If one is missing, the source throws a `TypeError` partway through the render. The model takes them to exist.
- An element matching both `label, dt` and a small-text selector ends up with the small-text style. The model counts the two groups separately.
- Host SDK integration: `init`, the asynchronous `onConfigChange` and the `setConfig` transport. Forwarding is an appended payload, and host redelivery is assumed to fold payloads by key override (`Capabilities.Replay`).
- Bootstrap modal show/hide, `scrollIntoView`, `focus`, the success-alert markup, `form.reset()` and the confirm and edit button handlers (script.js:227-260): these are UI side effects with no data to state.
- `form.checkValidity()` is native browser validation and is an opaque boolean input to `FormSummary.Submit`. The clearing and re-classing of the inline message (script.js:194-202) is not modelled beyond the message text.
- `FormSummary.PasswordSummary`: `pwd.length` counts UTF-16 code units, while the model counts characters. The two differ only for characters outside the Basic Multilingual Plane.
