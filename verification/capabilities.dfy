/** `mapToCapabilities` and `mapToEditPanelValues`: the property-panel adapter
    handed to the host editor. The getter/setter closures share one snapshot
    of the merged configuration; here the snapshot and the payloads forwarded
    through `setConfig` are explicit state, and each setter is a transition. */
module Capabilities {
  import opened Optional
  import opened JsValues
  import opened Configuration
  import opened Renderer

  /** A single-key partial configuration `{ key: value }`, as forwarded. */
  type Payload = map<Key, JsValue>

  /** A capability slot of the descriptor: the `index`-th recolorable, the
      font-family slot or the font-size slot. */
  datatype Slot = Recolor(index: nat) | FontEditable | FontSizeable

  /** The keys behind the recolorables, in descriptor order. */
  const RecolorKeys: seq<Key> :=
    [BackgroundColor, SurfaceColor, TextColor, PrimaryActionColor, SecondaryActionColor]

  /** The slots that exist: recolorable indices stop at five. */
  predicate ValidSlot(s: Slot) {
    s.Recolor? ==> s.index < |RecolorKeys|
  }

  /** The configuration key a slot's getter reads and its setter writes. */
  function SlotKey(s: Slot): Key
    requires ValidSlot(s)
  {
    match s
    case Recolor(i) => RecolorKeys[i]
    case FontEditable => FontFamily
    case FontSizeable => FontSize
  }

  /** The shape of the descriptor, the same for every configuration. */
  datatype Descriptor = Descriptor(
    recolorables: seq<Slot>, borderables: seq<Slot>,
    fontEditable: Slot, fontSizeable: Slot)

  const Layout: Descriptor :=
    Descriptor([Recolor(0), Recolor(1), Recolor(2), Recolor(3), Recolor(4)], [],
               FontEditable, FontSizeable)

  /** The descriptor has five recolorables over the five colour keys in the
      order background, surface, text, primary, secondary; no borderables;
      and one font-family and one font-size slot. Every slot exists and no
      two slots share a key. */
  lemma LayoutShape()
    ensures |Layout.recolorables| == 5
    ensures forall i :: 0 <= i < 5 ==>
      ValidSlot(Layout.recolorables[i]) && SlotKey(Layout.recolorables[i]) == RecolorKeys[i]
    ensures RecolorKeys == [BackgroundColor, SurfaceColor, TextColor, PrimaryActionColor, SecondaryActionColor]
    ensures Layout.borderables == []
    ensures ValidSlot(Layout.fontEditable) && SlotKey(Layout.fontEditable) == FontFamily
    ensures ValidSlot(Layout.fontSizeable) && SlotKey(Layout.fontSizeable) == FontSize
  {
  }

  /** Distinct slots read and write distinct keys. */
  lemma SlotKeyInjective(s: Slot, t: Slot)
    requires ValidSlot(s) && ValidSlot(t) && s != t
    ensures SlotKey(s) != SlotKey(t)
  {
  }

  /** The state behind one descriptor: the snapshot its closures share and the
      payloads forwarded so far, oldest first. */
  datatype Adapter = Adapter(snapshot: Config, forwarded: seq<Payload>)

  /** `mapToCapabilities(config)`: a fresh snapshot of the merged
      configuration and nothing forwarded yet. */
  function MapToCapabilities(input: Option<Input>): (a: Adapter)
    ensures a.forwarded == []
    ensures a.snapshot == Merge(input)
    ensures forall s :: ValidSlot(s) ==>
      GetSlot(a, s) == (if input.Some? && SlotKey(s) in input.value then input.value[SlotKey(s)]
                        else Default.Get(SlotKey(s)))
  {
    Adapter(Merge(input), [])
  }

  /** A slot's `get()`. */
  function GetSlot(a: Adapter, s: Slot): JsValue
    requires ValidSlot(s)
  {
    a.snapshot.Get(SlotKey(s))
  }

  /** A slot's `set(v)`: write `v` into the snapshot, unvalidated, and forward
      `{ key: v }` to the host. */
  function SetSlot(a: Adapter, s: Slot, v: JsValue): (b: Adapter)
    requires ValidSlot(s)
    ensures GetSlot(b, s) == v
    ensures forall t :: ValidSlot(t) && t != s ==> GetSlot(b, t) == GetSlot(a, t)
    ensures forall k :: k != SlotKey(s) ==> b.snapshot.Get(k) == a.snapshot.Get(k)
    ensures |b.forwarded| == |a.forwarded| + 1
    ensures b.forwarded[..|a.forwarded|] == a.forwarded
    ensures b.forwarded[|a.forwarded|].Keys == {SlotKey(s)}
    ensures b.forwarded[|a.forwarded|][SlotKey(s)] == v
  {
    var k := SlotKey(s);
    var b := Adapter(a.snapshot.With(k, v), a.forwarded + [map[k := v]]);
    assert forall t :: ValidSlot(t) && t != s ==> SlotKey(t) != k by {
      forall t | ValidSlot(t) && t != s
        ensures SlotKey(t) != k
      {
        SlotKeyInjective(s, t);
      }
    }
    b
  }

  /** A sequence of setter calls made by the host, in order. */
  function SetAll(a: Adapter, calls: seq<(Slot, JsValue)>): (b: Adapter)
    requires forall i :: 0 <= i < |calls| ==> ValidSlot(calls[i].0)
    ensures |b.forwarded| == |a.forwarded| + |calls|
    decreases |calls|
  {
    if calls == [] then a
    else SetAll(SetSlot(a, calls[0].0, calls[0].1), calls[1..])
  }

  /** The host's store after it folds the forwarded payloads, in order, into
      the configuration it started from, each key overriding the last. */
  function Replay(base: Input, payloads: seq<Payload>): (m: Input)
    ensures base.Keys <= m.Keys
    decreases |payloads|
  {
    if payloads == [] then base
    else Replay(base, payloads[..|payloads| - 1]) + payloads[|payloads| - 1]
  }

  /** The adapter's snapshot is what the host would redeliver. */
  ghost predicate InSync(base: Input, a: Adapter) {
    a.snapshot == Merge(Some(Replay(base, a.forwarded)))
  }

  /** One setter call keeps the snapshot in step with the host's store. */
  lemma {:induction false} SetSlotKeepsSync(base: Input, a: Adapter, s: Slot, v: JsValue)
    requires ValidSlot(s)
    requires InSync(base, a)
    ensures InSync(base, SetSlot(a, s, v))
  {
    var b := SetSlot(a, s, v);
    var k := SlotKey(s);
    assert b.forwarded == a.forwarded + [map[k := v]];
    assert b.forwarded[..|b.forwarded| - 1] == a.forwarded;
    assert Replay(base, b.forwarded) == Replay(base, a.forwarded) + map[k := v];
    MergeOverride(Replay(base, a.forwarded), k, v);
    assert b.snapshot == a.snapshot.With(k, v);
  }

  /** However many setters the host calls on a fresh descriptor, redelivering
      the forwarded payloads on top of the original configuration merges to
      exactly the adapter's snapshot. */
  lemma {:induction false} SetAllKeepsSync(base: Input, a: Adapter, calls: seq<(Slot, JsValue)>)
    requires forall i :: 0 <= i < |calls| ==> ValidSlot(calls[i].0)
    requires InSync(base, a)
    ensures InSync(base, SetAll(a, calls))
    decreases |calls|
  {
    if calls != [] {
      SetSlotKeepsSync(base, a, calls[0].0, calls[0].1);
      SetAllKeepsSync(base, SetSlot(a, calls[0].0, calls[0].1), calls[1..]);
    }
  }

  /** A fresh descriptor starts in step with its configuration. */
  lemma FreshInSync(m: Input)
    ensures InSync(m, MapToCapabilities(Some(m)))
  {
  }

  /** The three free-text keys, in edit-panel order. */
  const EditKeys: seq<Key> := [FormTitle, SubmitButtonText, ModalTitle]

  /** `mapToEditPanelValues(config)`: an ordered map from the text keys'
      names to their merged values, with no `||` fallback. */
  function EditPanelValues(input: Option<Input>): (r: seq<(string, JsValue)>)
    ensures |r| == |EditKeys| == 3
    ensures r[0].0 == "form_title" && r[1].0 == "submit_button_text" && r[2].0 == "modal_title"
    ensures forall i :: 0 <= i < |r| ==>
      r[i].0 == Name(EditKeys[i]) &&
      r[i].1 == (if input.Some? && EditKeys[i] in input.value then input.value[EditKeys[i]]
                 else Default.Get(EditKeys[i]))
  {
    var cfg := Merge(input);
    [("form_title", cfg.formTitle),
     ("submit_button_text", cfg.submitButtonText),
     ("modal_title", cfg.modalTitle)]
  }

  /** The edit panel shows a falsy text value as it is, while the render assigns
      the default text in its place. */
  lemma PanelKeepsFalsyText(m: Input, page: Page)
    requires page.hasRoot
    requires FormTitle in m && !Truthy(m[FormTitle])
    ensures EditPanelValues(Some(m))[0].1 == m[FormTitle]
    ensures Render(Some(m), page).value.titleText == Default.formTitle
    ensures EditPanelValues(Some(m))[0].1 != Render(Some(m), page).value.titleText
  {
  }
}
