/** The widget's configuration: ten named keys, the default table, and the
    merge that every entry point performs before reading a key: the input's
    own keys copied over a fresh copy of the defaults. */
module Configuration {
  import opened Optional
  import opened JsValues

  /** The ten keys the widget reads. Other keys of an input object are
      copied by the merge but never read, so they are not represented. */
  datatype Key =
    | FormTitle | SubmitButtonText | ModalTitle
    | BackgroundColor | SurfaceColor | TextColor
    | PrimaryActionColor | SecondaryActionColor
    | FontFamily | FontSize

  const AllKeys: set<Key> :=
    {FormTitle, SubmitButtonText, ModalTitle, BackgroundColor, SurfaceColor,
     TextColor, PrimaryActionColor, SecondaryActionColor, FontFamily, FontSize}

  /** The JavaScript property name of a key. */
  function Name(k: Key): string {
    match k
    case FormTitle => "form_title"
    case SubmitButtonText => "submit_button_text"
    case ModalTitle => "modal_title"
    case BackgroundColor => "background_color"
    case SurfaceColor => "surface_color"
    case TextColor => "text_color"
    case PrimaryActionColor => "primary_action_color"
    case SecondaryActionColor => "secondary_action_color"
    case FontFamily => "font_family"
    case FontSize => "font_size"
  }

  /** A complete configuration: one value for every key. */
  datatype Config = Config(
    formTitle: JsValue, submitButtonText: JsValue, modalTitle: JsValue,
    backgroundColor: JsValue, surfaceColor: JsValue, textColor: JsValue,
    primaryActionColor: JsValue, secondaryActionColor: JsValue,
    fontFamily: JsValue, fontSize: JsValue)
  {
    /** `cfg[name]` */
    function Get(k: Key): JsValue {
      match k
      case FormTitle => formTitle
      case SubmitButtonText => submitButtonText
      case ModalTitle => modalTitle
      case BackgroundColor => backgroundColor
      case SurfaceColor => surfaceColor
      case TextColor => textColor
      case PrimaryActionColor => primaryActionColor
      case SecondaryActionColor => secondaryActionColor
      case FontFamily => fontFamily
      case FontSize => fontSize
    }

    /** `cfg[name] = v`, as a new value. */
    function With(k: Key, v: JsValue): (c: Config)
      ensures c.Get(k) == v
      ensures forall j :: j != k ==> c.Get(j) == Get(j)
    {
      match k
      case FormTitle => this.(formTitle := v)
      case SubmitButtonText => this.(submitButtonText := v)
      case ModalTitle => this.(modalTitle := v)
      case BackgroundColor => this.(backgroundColor := v)
      case SurfaceColor => this.(surfaceColor := v)
      case TextColor => this.(textColor := v)
      case PrimaryActionColor => this.(primaryActionColor := v)
      case SecondaryActionColor => this.(secondaryActionColor := v)
      case FontFamily => this.(fontFamily := v)
      case FontSize => this.(fontSize := v)
    }
  }

  /** Two configurations that agree on every key are the same. */
  lemma {:induction false} ConfigExt(a: Config, b: Config)
    requires forall k :: a.Get(k) == b.Get(k)
    ensures a == b
  {
    assert a.Get(FormTitle) == b.Get(FormTitle);
    assert a.Get(SubmitButtonText) == b.Get(SubmitButtonText);
    assert a.Get(ModalTitle) == b.Get(ModalTitle);
    assert a.Get(BackgroundColor) == b.Get(BackgroundColor);
    assert a.Get(SurfaceColor) == b.Get(SurfaceColor);
    assert a.Get(TextColor) == b.Get(TextColor);
    assert a.Get(PrimaryActionColor) == b.Get(PrimaryActionColor);
    assert a.Get(SecondaryActionColor) == b.Get(SecondaryActionColor);
    assert a.Get(FontFamily) == b.Get(FontFamily);
    assert a.Get(FontSize) == b.Get(FontSize);
  }

  /** The fixed default table. */
  const Default: Config := Config(
    Str("User Information Form"), Str("Preview & Submit"), Str("Confirm Your Details"),
    Str("#020617"), Str("#0f172a"), Str("#f9fafb"),
    Str("#6366f1"), Str("#64748b"),
    Str("Inter"), Num(16.0))

  /** A configuration object as the host delivers it: any subset of the keys,
      each bound to any value, `undefined` included. */
  type Input = map<Key, JsValue>

  /** A configuration seen as a JavaScript object with all ten own keys. */
  function ToMap(c: Config): (m: Input)
    ensures m.Keys == AllKeys
    ensures forall k :: k in m ==> m[k] == c.Get(k)
  {
    map k | k in AllKeys :: c.Get(k)
  }

  /** The value the merge leaves under `k`: the input's own value when it has
      the key, whatever that value is, and the default otherwise. */
  function Assigned(input: Option<Input>, k: Key): JsValue {
    match input
    case Some(m) => if k in m then m[k] else Default.Get(k)
    case None => Default.Get(k)
  }

  /** The merged configuration: every key as `Object.assign` leaves it after
      copying the defaults and then the input. A missing or falsy input
      object is modelled as `None` and merges like an empty one. */
  function Merge(input: Option<Input>): (c: Config)
    ensures forall k ::
      c.Get(k) == (if input.Some? && k in input.value then input.value[k] else Default.Get(k))
  {
    Config(
      Assigned(input, FormTitle), Assigned(input, SubmitButtonText), Assigned(input, ModalTitle),
      Assigned(input, BackgroundColor), Assigned(input, SurfaceColor), Assigned(input, TextColor),
      Assigned(input, PrimaryActionColor), Assigned(input, SecondaryActionColor),
      Assigned(input, FontFamily), Assigned(input, FontSize))
  }

  /** The merge is `Object.assign` on objects: the defaults as an object,
      overridden by the input's own keys. */
  lemma MergeIsObjectAssign(input: Option<Input>)
    ensures ToMap(Merge(input)) == ToMap(Default) + input.ValueOr(map[])
  {
    var lhs := ToMap(Merge(input));
    var rhs := ToMap(Default) + input.ValueOr(map[]);
    assert lhs.Keys == rhs.Keys;
    forall k | k in lhs
      ensures lhs[k] == rhs[k]
    {
      MergeGet(input, k);
    }
  }

  /** With no configuration, or an empty one, the merge yields the defaults;
      so does merging the default table itself. */
  lemma MergeOfNothingIsDefault()
    ensures Merge(None) == Default
    ensures Merge(Some(map[])) == Default
    ensures Merge(Some(ToMap(Default))) == Default
  {
  }

  /** A complete configuration passes through the merge unchanged. */
  lemma MergeOfComplete(c: Config)
    ensures Merge(Some(ToMap(c))) == c
  {
  }

  /** Overriding one key of the input overrides exactly that key of the
      merged configuration. */
  lemma {:induction false} MergeOverride(m: Input, k: Key, v: JsValue)
    ensures Merge(Some(m + map[k := v])) == Merge(Some(m)).With(k, v)
  {
    var a := Merge(Some(m + map[k := v]));
    var b := Merge(Some(m)).With(k, v);
    forall j
      ensures a.Get(j) == b.Get(j)
    {
      MergeOverrideAt(m, k, v, j);
    }
    ConfigExt(a, b);
  }

  lemma MergeOverrideAt(m: Input, k: Key, v: JsValue, j: Key)
    ensures Merge(Some(m + map[k := v])).Get(j) == Merge(Some(m)).With(k, v).Get(j)
  {
    AssignedOverride(m, k, v, j);
    MergeGet(Some(m + map[k := v]), j);
    MergeGet(Some(m), j);
  }

  lemma AssignedOverride(m: Input, k: Key, v: JsValue, j: Key)
    ensures Assigned(Some(m + map[k := v]), j) == if j == k then v else Assigned(Some(m), j)
  {
  }

  lemma MergeGet(input: Option<Input>, k: Key)
    ensures Merge(input).Get(k) == Assigned(input, k)
  {
  }
}
