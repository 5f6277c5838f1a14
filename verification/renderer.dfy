/** `applyConfigToUI`: the merged configuration turned into the style and text
    assignments it makes on the page. Element lookups are abstracted to the
    presence of each region; the assignments are collected in a record. */
module Renderer {
  import opened Optional
  import opened Sequences
  import opened JsValues
  import opened Configuration

  /** What the page's lookups find. The card, header, title, preview, edit,
      confirm and modal-label elements are looked up without a guard and are
      taken to exist. `labelCount` counts the `label, dt` matches and
      `smallTextCount` the small-text matches. */
  datatype Page = Page(
    hasRoot: bool,
    hasModalContent: bool, hasModalHeader: bool, hasModalFooter: bool,
    hasInlineMessage: bool,
    labelCount: nat, smallTextCount: nat)

  /** The generic fallbacks appended after the configured family. */
  const FontFallbacks: string :=
    ", system-ui, -apple-system, BlinkMacSystemFont, 'Segoe UI', sans-serif"

  /** The confirm button keeps this green whatever the theme. */
  const ConfirmGreen: string := "#16a34a"

  /** Ratios of the derived font sizes to the base size. */
  const TitleRatio: real := 1.5
  const ModalLabelRatio: real := 1.25
  const LabelRatio: real := 0.9
  const SmallTextRatio: real := 0.85

  /** The `font-family` value written: a family followed by the fallbacks. */
  datatype FontStack = FontStack(family: JsValue) {
    /** The CSS text when the family is a string. Any other family would go
        through JavaScript's value-to-string conversion, not modelled here. */
    function Css(): Option<string> {
      if family.Str? then Some(family.s + FontFallbacks) else None
    }
  }

  /** A `font-size` value. A numeric base gives pixels. A non-numeric base
      is kept symbolic: either multiplied by a ratio, which goes through
      JavaScript's numeric coercion, or concatenated with the unit as it
      stands, which goes through its string conversion. */
  datatype CssSize = Px(px: real) | Coerced(base: JsValue, factor: real) | Suffixed(base: JsValue)

  /** The base multiplied by a ratio, then given the pixel unit. */
  function Scale(base: JsValue, factor: real): CssSize {
    if base.Num? then Px(base.n * factor) else Coerced(base, factor)
  }

  /** The base given the pixel unit with no multiplication, as the root's
      size is: a non-numeric base is not coerced to a number, so `true`
      becomes the text "truepx". */
  function Unscaled(base: JsValue): CssSize {
    if base.Num? then Px(base.n) else Suffixed(base)
  }

  /** The size and family written to one label-like or small-text region. */
  datatype TextStyle = TextStyle(fontSize: CssSize, fontFamily: FontStack)

  /** Every assignment one render makes. Optional regions are `None` when the
      page lacks them. */
  datatype Rendered = Rendered(
    // backgrounds
    rootBackground: JsValue, cardBackground: JsValue, headerBackground: JsValue,
    modalContentBackground: Option<JsValue>, modalHeaderBackground: Option<JsValue>,
    modalFooterBackground: Option<JsValue>,
    // text colours
    bodyColor: JsValue, titleColor: JsValue, inlineMessageColor: Option<JsValue>,
    // buttons
    previewBackground: JsValue, previewBorder: JsValue,
    editBorder: JsValue, editColor: JsValue, confirmBackground: string,
    // font families
    bodyFont: FontStack, titleFont: FontStack, modalLabelFont: FontStack,
    // font sizes
    rootFontSize: CssSize, titleFontSize: CssSize, modalLabelFontSize: CssSize,
    labels: seq<TextStyle>, smallText: seq<TextStyle>,
    // text content
    titleText: JsValue, submitText: JsValue, modalTitleText: JsValue)

  /** The merged font family, or the default family when it is falsy. */
  function EffectiveFamily(cfg: Config): JsValue {
    Or(cfg.fontFamily, Default.fontFamily)
  }

  /** The merged font size, or the default size when it is falsy. */
  function EffectiveSize(cfg: Config): JsValue {
    Or(cfg.fontSize, Default.fontSize)
  }

  /** One call of `applyConfigToUI(config)`: `None` when the root region is
      missing and the function returns before any assignment. */
  function Render(input: Option<Input>, page: Page): (r: Option<Rendered>)
    ensures r.Some? <==> page.hasRoot
    ensures r.Some? ==>
      && |r.value.labels| == page.labelCount
      && |r.value.smallText| == page.smallTextCount
      && (r.value.modalContentBackground.Some? <==> page.hasModalContent)
      && (r.value.modalHeaderBackground.Some? <==> page.hasModalHeader)
      && (r.value.modalFooterBackground.Some? <==> page.hasModalFooter)
      && (r.value.inlineMessageColor.Some? <==> page.hasInlineMessage)
  {
    var cfg := Merge(input);
    var baseSize := EffectiveSize(cfg);
    var stack := FontStack(EffectiveFamily(cfg));
    if !page.hasRoot then None
    else Some(Rendered(
      cfg.backgroundColor, cfg.surfaceColor, cfg.surfaceColor,
      When(page.hasModalContent, cfg.surfaceColor),
      When(page.hasModalHeader, cfg.surfaceColor),
      When(page.hasModalFooter, cfg.surfaceColor),
      cfg.textColor, cfg.textColor, When(page.hasInlineMessage, cfg.textColor),
      cfg.primaryActionColor, cfg.primaryActionColor,
      cfg.secondaryActionColor, cfg.textColor, ConfirmGreen,
      stack, stack, stack,
      Unscaled(baseSize), Scale(baseSize, TitleRatio), Scale(baseSize, ModalLabelRatio),
      Repeat(TextStyle(Scale(baseSize, LabelRatio), stack), page.labelCount),
      Repeat(TextStyle(Scale(baseSize, SmallTextRatio), stack), page.smallTextCount),
      Or(cfg.formTitle, Default.formTitle),
      Or(cfg.submitButtonText, Default.submitButtonText),
      Or(cfg.modalTitle, Default.modalTitle)))
  }

  /** Background, text and button colours come from the merged configuration
      with no fallback, so a present key wins even when its value is falsy;
      the confirm button is always green. */
  lemma RenderColours(input: Option<Input>, page: Page)
    requires page.hasRoot
    ensures var r := Render(input, page).value;
      var cfg := Merge(input);
      && r.rootBackground == cfg.Get(BackgroundColor)
      && r.cardBackground == cfg.Get(SurfaceColor)
      && r.headerBackground == cfg.Get(SurfaceColor)
      && (page.hasModalContent ==> r.modalContentBackground == Some(cfg.Get(SurfaceColor)))
      && (page.hasModalHeader ==> r.modalHeaderBackground == Some(cfg.Get(SurfaceColor)))
      && (page.hasModalFooter ==> r.modalFooterBackground == Some(cfg.Get(SurfaceColor)))
      && r.bodyColor == cfg.Get(TextColor)
      && r.titleColor == cfg.Get(TextColor)
      && (page.hasInlineMessage ==> r.inlineMessageColor == Some(cfg.Get(TextColor)))
      && r.previewBackground == cfg.Get(PrimaryActionColor)
      && r.previewBorder == cfg.Get(PrimaryActionColor)
      && r.editBorder == cfg.Get(SecondaryActionColor)
      && r.editColor == cfg.Get(TextColor)
      && r.confirmBackground == ConfirmGreen
  {
  }

  /** A colour key present in the input is assigned verbatim, even when it
      is empty or `undefined`; only an absent key takes the default. */
  lemma ColoursNotCoalesced(m: Input, page: Page)
    requires page.hasRoot
    ensures var r := Render(Some(m), page).value;
      && r.rootBackground == (if BackgroundColor in m then m[BackgroundColor] else Default.backgroundColor)
      && r.cardBackground == (if SurfaceColor in m then m[SurfaceColor] else Default.surfaceColor)
      && r.bodyColor == (if TextColor in m then m[TextColor] else Default.textColor)
      && r.previewBackground == (if PrimaryActionColor in m then m[PrimaryActionColor] else Default.primaryActionColor)
      && r.editBorder == (if SecondaryActionColor in m then m[SecondaryActionColor] else Default.secondaryActionColor)
  {
  }

  /** The font family and base size fall back to "Inter" and 16 when the
      merged value is falsy, and are otherwise kept; neither is ever falsy. */
  lemma BaseFontFallbacks(input: Option<Input>, page: Page)
    requires page.hasRoot
    ensures var r := Render(input, page).value;
      var cfg := Merge(input);
      && r.bodyFont.family == (if Truthy(cfg.Get(FontFamily)) then cfg.Get(FontFamily) else Str("Inter"))
      && r.rootFontSize == (if Truthy(cfg.Get(FontSize)) then Unscaled(cfg.Get(FontSize)) else Px(16.0))
      && Truthy(r.bodyFont.family)
  {
  }

  /** The title, submit-button and modal-title texts fall back to their
      defaults when the merged value is falsy, and are otherwise kept; none
      of them is ever falsy. */
  lemma TextFallbacks(input: Option<Input>, page: Page)
    requires page.hasRoot
    ensures var r := Render(input, page).value;
      var cfg := Merge(input);
      && r.titleText == (if Truthy(cfg.Get(FormTitle)) then cfg.Get(FormTitle) else Str("User Information Form"))
      && r.submitText == (if Truthy(cfg.Get(SubmitButtonText)) then cfg.Get(SubmitButtonText) else Str("Preview & Submit"))
      && r.modalTitleText == (if Truthy(cfg.Get(ModalTitle)) then cfg.Get(ModalTitle) else Str("Confirm Your Details"))
      && Truthy(r.titleText) && Truthy(r.submitText) && Truthy(r.modalTitleText)
  {
  }

  /** The root's size is the base size itself; every other size is the base
      times its fixed ratio, for every label-like and small-text region
      alike. A numeric base is never zero. */
  lemma SizeRatios(input: Option<Input>, page: Page)
    requires page.hasRoot
    ensures var r := Render(input, page).value;
      var base := EffectiveSize(Merge(input));
      && r.rootFontSize == Unscaled(base)
      && (base.Num? <==> r.rootFontSize.Px?)
      && r.titleFontSize == Scale(base, 1.5)
      && r.modalLabelFontSize == Scale(base, 1.25)
      && (forall i :: 0 <= i < |r.labels| ==> r.labels[i].fontSize == Scale(base, 0.9))
      && (forall i :: 0 <= i < |r.smallText| ==> r.smallText[i].fontSize == Scale(base, 0.85))
      && (r.rootFontSize.Px? ==>
            && r.rootFontSize.px != 0.0
            && r.titleFontSize == Px(1.5 * r.rootFontSize.px)
            && r.modalLabelFontSize == Px(1.25 * r.rootFontSize.px))
  {
  }

  /** One font stack is written to the body, the title, the modal label and
      every label-like and small-text region; it is the effective family
      followed by the fixed fallbacks. */
  lemma FontStackUniform(input: Option<Input>, page: Page)
    requires page.hasRoot
    ensures var r := Render(input, page).value;
      var family := EffectiveFamily(Merge(input));
      && r.bodyFont == FontStack(family)
      && r.titleFont == r.bodyFont
      && r.modalLabelFont == r.bodyFont
      && (forall i :: 0 <= i < |r.labels| ==> r.labels[i].fontFamily == r.bodyFont)
      && (forall i :: 0 <= i < |r.smallText| ==> r.smallText[i].fontFamily == r.bodyFont)
      && (family.Str? ==> r.bodyFont.Css() == Some(family.s + FontFallbacks))
  {
  }

  /** Rendering the default table, an empty object, or nothing at all gives
      the same assignments. */
  lemma DefaultMatchesEmpty(page: Page)
    ensures Render(Some(ToMap(Default)), page) == Render(Some(map[]), page)
    ensures Render(None, page) == Render(Some(map[]), page)
  {
    MergeOfNothingIsDefault();
  }

  /** `applyConfigToUI({font_size: 20})`: sizes 20, 30, 25, 18 and 17 pixels,
      everything else at its default. */
  lemma FontSizeTwentyExample(page: Page)
    requires page.hasRoot
    ensures var r := Render(Some(map[FontSize := Num(20.0)]), page).value;
      && r.rootFontSize == Px(20.0)
      && r.titleFontSize == Px(30.0)
      && r.modalLabelFontSize == Px(25.0)
      && (forall i :: 0 <= i < |r.labels| ==> r.labels[i].fontSize == Px(18.0))
      && (forall i :: 0 <= i < |r.smallText| ==> r.smallText[i].fontSize == Px(17.0))
      && r.bodyFont == FontStack(Str("Inter"))
      && r.rootBackground == Str("#020617")
      && r.titleText == Str("User Information Form")
  {
  }

  /** `applyConfigToUI({font_size: true})`: `true` is truthy, so it is the
      base. The root's size is that value joined to the unit with no
      arithmetic, while every derived size multiplies it. */
  lemma FontSizeTrueExample(page: Page)
    requires page.hasRoot
    ensures var r := Render(Some(map[FontSize := Bool(true)]), page).value;
      && r.rootFontSize == Suffixed(Bool(true))
      && r.titleFontSize == Coerced(Bool(true), 1.5)
      && r.modalLabelFontSize == Coerced(Bool(true), 1.25)
  {
  }

  /** Which regions the page has, and the assignments made by the most
      recent render that got past the root check. What the browser then
      computes from those assignments is not modelled. */
  datatype Ui = Ui(page: Page, shown: Option<Rendered>)

  /** `applyConfigToUI` on a page. Every assignment is made afresh on each
      call, so a render replaces the previous one wholesale. */
  function Apply(ui: Ui, input: Option<Input>): (u: Ui)
    ensures u.page == ui.page
    ensures !ui.page.hasRoot ==> u == ui
    ensures ui.page.hasRoot ==> u.shown == Render(input, ui.page) && u.shown.Some?
  {
    if ui.page.hasRoot then ui.(shown := Render(input, ui.page)) else ui
  }

  /** With the root missing, any render leaves the page untouched. */
  lemma MissingRootNoChange(ui: Ui, input: Option<Input>)
    requires !ui.page.hasRoot
    ensures Apply(ui, input) == ui
    ensures Render(input, ui.page).None?
  {
  }

  /** Last write wins: on a page whose regions stay as they are between
      deliveries, after two renders the recorded assignments are those of the
      second alone. */
  lemma LastWriteWins(ui: Ui, first: Option<Input>, second: Option<Input>)
    ensures Apply(Apply(ui, first), second) == Apply(ui, second)
  {
  }

  /** Rendering is idempotent. */
  lemma ApplyIdempotent(ui: Ui, input: Option<Input>)
    ensures Apply(Apply(ui, input), input) == Apply(ui, input)
  {
  }

  /** Start-up: without the host SDK the default table is applied directly;
      with it, nothing is rendered until the host delivers a configuration. */
  function Startup(ui: Ui, sdkPresent: bool): (u: Ui)
    ensures sdkPresent ==> u == ui
    ensures !sdkPresent && ui.page.hasRoot ==> u.shown == Render(None, ui.page)
    ensures !sdkPresent && !ui.page.hasRoot ==> u == ui
    ensures u.page == ui.page
  {
    DefaultMatchesEmpty(ui.page);
    if sdkPresent then ui else Apply(ui, Some(ToMap(Default)))
  }
}
