/**
 * The singleton floating answer box: a lazily created element whose text and
 * colours are overwritten by each of the three show steps.
 */
module FloatingBox {
  import opened Optional

  /** The visual state, as selected by the colours the show steps apply. */
  datatype BoxState = Unstyled | Loading | Answer | Error

  /** The inline colours `styleFloatingBox` sets: background, border and text colour. */
  datatype Style = Style(background: string, border: string, color: string)

  /** The colours each show step applies; a freshly created box has none. */
  function StyleOf(state: BoxState): Style
  {
    match state
    case Unstyled => Style("", "", "")
    case Loading => Style("#444", "1px solid #ffc107", "#fff")
    case Answer => Style("#333", "1px solid #4caf50", "#fff")
    case Error => Style("#550000", "1px solid #f44336", "#fff")
  }

  /** The colours tell the states apart, so the state tag is all the model needs to keep. */
  lemma StyleIdentifiesState(a: BoxState, b: BoxState)
    ensures StyleOf(a) == StyleOf(b) <==> a == b
  {
  }

  /**
   * The box element: `id` stands for its identity as a DOM node, `text` for
   * the text it displays, and `hasCloseButton` records whether the Close
   * button is still one of its children.
   */
  datatype Box = Box(id: nat, state: BoxState, text: string, hasCloseButton: bool)

  const LoadingText: string := "Loading..."

  /** A newly created box: no colours, no text, only the Close button inside. */
  function NewBox(id: nat): Box
  {
    Box(id, Unstyled, "", true)
  }

  /**
   * `getOrCreateFloatingBox` on the singleton slot: the existing box, or a new
   * box with the next identity when the slot is empty.
   */
  function GetOrCreate(slot: Option<Box>, nextId: nat): Box
  {
    if slot.Some? then slot.value else NewBox(nextId)
  }

  /**
   * Assigning `innerText` and the colours of `state`: assigning `innerText`
   * replaces all children, so the Close button does not survive.
   */
  function Render(b: Box, state: BoxState, text: string): Box
  {
    b.(state := state, text := text, hasCloseButton := false)
  }
}
