/**
 * The article configuration record shared by the settings panel and the page host.
 *
 * The option catalogues and the default configuration live in
 * src/constants/articleProps, which is not part of this model: the model only
 * fixes the SHAPE of an option and of the five-slot configuration record, and
 * every member that needs the default configuration takes it as a parameter.
 */
module ArticleProps {

  datatype Option<+T> = None | Some(value: T)

  /** One catalogue choice: the CSS value it stands for, its display title and an optional class name. */
  datatype OptionType = OptionType(title: string, value: string, className: Option<string>)

  /** The five-slot configuration record (`ArticleStateType`). */
  datatype ArticleState = ArticleState(
    fontFamilyOption: OptionType,
    fontSizeOption: OptionType,
    fontColor: OptionType,
    backgroundColor: OptionType,
    contentWidth: OptionType)

  /** Names of the five slots, so that properties can quantify over them. */
  datatype Slot = FontFamily | FontSize | FontColor | BackgroundColor | ContentWidth

  /** The option held in one slot. */
  function Get(s: ArticleState, slot: Slot): (o: OptionType)
  {
    match slot
    case FontFamily => s.fontFamilyOption
    case FontSize => s.fontSizeOption
    case FontColor => s.fontColor
    case BackgroundColor => s.backgroundColor
    case ContentWidth => s.contentWidth
  }

  /**
   * The copy-on-write update `{ ...prev, slot: option }`: a new record that
   * holds `o` in `slot` and agrees with `s` in every other slot.
   */
  function With(s: ArticleState, slot: Slot, o: OptionType): (r: ArticleState)
    ensures Get(r, slot) == o
    ensures forall other :: other != slot ==> Get(r, other) == Get(s, other)
  {
    match slot
    case FontFamily => s.(fontFamilyOption := o)
    case FontSize => s.(fontSizeOption := o)
    case FontColor => s.(fontColor := o)
    case BackgroundColor => s.(backgroundColor := o)
    case ContentWidth => s.(contentWidth := o)
  }

  /** Two configurations are equal exactly when they hold the same option in every slot. */
  lemma SlotwiseEquality(a: ArticleState, b: ArticleState)
    ensures a == b <==> forall slot :: Get(a, slot) == Get(b, slot)
  {
    if forall slot :: Get(a, slot) == Get(b, slot) {
      assert Get(a, FontFamily) == Get(b, FontFamily);
      assert Get(a, FontSize) == Get(b, FontSize);
      assert Get(a, FontColor) == Get(b, FontColor);
      assert Get(a, BackgroundColor) == Get(b, BackgroundColor);
      assert Get(a, ContentWidth) == Get(b, ContentWidth);
    }
  }

  /** Setting a slot to the option it already holds gives back the same record. */
  lemma WithSameIsIdentity(s: ArticleState, slot: Slot)
    ensures With(s, slot, Get(s, slot)) == s
  {
  }

  /** Edits of two different slots do not interfere: their order does not matter. */
  lemma WithCommutes(s: ArticleState, a: Slot, x: OptionType, b: Slot, y: OptionType)
    requires a != b
    ensures With(With(s, a, x), b, y) == With(With(s, b, y), a, x)
  {
  }

  /** A second edit of the same slot replaces the first one entirely. */
  lemma WithOverwrites(s: ArticleState, slot: Slot, x: OptionType, y: OptionType)
    ensures With(With(s, slot, x), slot, y) == With(s, slot, y)
  {
  }
}
