/**
 * The page host (src/components/App.tsx): it owns the applied configuration,
 * replaces it wholesale when the settings panel hands one over, and projects
 * it into the five CSS custom properties of the page's `style`.
 */
module Application {
  import opened ArticleProps

  const FontFamilyVar: string := "--font-family"
  const FontSizeVar: string := "--font-size"
  const FontColorVar: string := "--font-color"
  const ContainerWidthVar: string := "--container-width"
  const BgColorVar: string := "--bg-color"

  /** The five CSS variables the page publishes, and nothing else. */
  const StyleKeys: set<string> := {FontFamilyVar, FontSizeVar, FontColorVar, ContainerWidthVar, BgColorVar}

  /** The CSS variable that carries one slot. */
  function VarName(slot: Slot): (name: string)
    ensures name in StyleKeys
  {
    match slot
    case FontFamily => FontFamilyVar
    case FontSize => FontSizeVar
    case FontColor => FontColorVar
    case BackgroundColor => BgColorVar
    case ContentWidth => ContainerWidthVar
  }

  /** The style projection of a configuration: every variable carries its slot's `value`. */
  function StyleVars(c: ArticleState): (m: map<string, string>)
    ensures m.Keys == StyleKeys
    ensures forall slot :: m[VarName(slot)] == Get(c, slot).value
  {
    map[
      FontFamilyVar := c.fontFamilyOption.value,
      FontSizeVar := c.fontSizeOption.value,
      FontColorVar := c.fontColor.value,
      ContainerWidthVar := c.contentWidth.value,
      BgColorVar := c.backgroundColor.value]
  }

  /** Every variable name belongs to exactly one slot, and the projection has exactly five keys. */
  lemma VarNamesDistinct(a: Slot, b: Slot)
    ensures VarName(a) == VarName(b) <==> a == b
    ensures |StyleKeys| == 5
  {
  }

  /** Every key of the projection is the variable of some slot. */
  lemma StyleKeysAreSlots(k: string)
    requires k in StyleKeys
    ensures exists slot :: VarName(slot) == k
  {
    if k == FontFamilyVar { assert VarName(FontFamily) == k; }
    else if k == FontSizeVar { assert VarName(FontSize) == k; }
    else if k == FontColorVar { assert VarName(FontColor) == k; }
    else if k == ContainerWidthVar { assert VarName(ContentWidth) == k; }
    else { assert VarName(BackgroundColor) == k; }
  }

  /**
   * Two configurations give the same style map exactly when their slots carry the
   * same values: titles and class names never reach the page, and the projection is
   * deterministic.
   */
  lemma StyleVarsEqualIff(a: ArticleState, b: ArticleState)
    ensures StyleVars(a) == StyleVars(b) <==> forall slot :: Get(a, slot).value == Get(b, slot).value
  {
    if forall slot :: Get(a, slot).value == Get(b, slot).value {
      forall k | k in StyleKeys
        ensures StyleVars(a)[k] == StyleVars(b)[k]
      {
        StyleKeysAreSlots(k);
        var slot :| VarName(slot) == k;
        assert Get(a, slot).value == Get(b, slot).value;
      }
    }
  }

  /** Editing one slot changes the projection only in that slot's variable. */
  lemma StyleVarsAfterWith(c: ArticleState, slot: Slot, o: OptionType)
    ensures StyleVars(With(c, slot, o)) == StyleVars(c)[VarName(slot) := o.value]
  {
  }

  /** The page host: its one piece of state is the applied configuration. */
  class App {
    var articleSettings: ArticleState

    /** The applied configuration starts as the default. */
    constructor(defaultArticleState: ArticleState)
      ensures articleSettings == defaultArticleState
    {
      articleSettings := defaultArticleState;
    }

    /** Replaces the applied configuration wholesale (no merge with the old one). */
    method HandleApplySettings(settings: ArticleState)
      modifies this
      ensures articleSettings == settings
    {
      articleSettings := settings;
    }

    /**
     * The `style` prop the page renders with. `StyleVars` is its specification; this
     * method pins that the host projects its applied configuration and nothing else.
     */
    method Style() returns (style: map<string, string>)
      ensures style.Keys == StyleKeys
      ensures forall slot :: style[VarName(slot)] == Get(articleSettings, slot).value
    {
      style := StyleVars(articleSettings);
    }
  }
}
