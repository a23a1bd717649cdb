/**
 * The selection state of the emoji field widget and the three events that
 * change it: a host-data push (the adoption effect), a pick in the picker,
 * and the clear button (src/App.tsx).
 */
module Widget {
  import opened Options
  import opened Payloads

  /** `selectedEmoji` and `isInitialized`. */
  datatype State = State(selected: Option<EmojiData>, initialized: bool)

  /** The state on mount: nothing selected, no host data adopted yet. */
  const Initial: State := State(None, false)

  /**
   * `HostData` is one run of the adoption effect with the field data the host
   * currently supplies (`None` for `null`); `Pick` carries the four fields the
   * picker's event object contributes; `Clear` is the clear button.
   */
  datatype Event =
    | HostData(fieldData: Option<EmojiData>)
    | Pick(id: string, native: string, unified: string, name: Option<string>)
    | Clear

  /** The state after an event and the payload sent to the host, if any. */
  datatype Outcome = Outcome(state: State, sent: Option<Payload>)

  /** The adoption effect: the first non-null host data becomes the selection and sets the flag. */
  function OnFieldData(s: State, fieldData: Option<EmojiData>): (s': State)
    ensures s.initialized ==> s' == s
    ensures fieldData.None? ==> s' == s
    ensures !s.initialized && fieldData.Some? ==> s'.selected == fieldData && s'.initialized
  {
    if fieldData.Some? && !s.initialized then State(fieldData, true) else s
  }

  /** `onEmojiSelect`: the picked emoji replaces the selection; the flag is not touched. */
  function OnEmojiSelect(s: State, id: string, native: string, unified: string, name: Option<string>): (o: Outcome)
    ensures o.state.selected.Some?
    ensures o.state.selected.value == EmojiData(id, native, unified, name)
    ensures o.state.initialized == s.initialized
    ensures o.sent.Some?
    ensures o.sent.value.title == native
    ensures o.sent.value.data == o.state.selected
    ensures o.sent.value.description == (if Truthy(name) then name.value else id) + " (" + unified + ")"
    ensures ImageCode(o.sent.value.imageUrl) == Some(Ascii.ToLower(unified))
  {
    var emoji := EmojiData(id, native, unified, name);
    Outcome(State(Some(emoji), s.initialized), Some(PickPayload(emoji)))
  }

  /** `clearSelection`: the selection becomes absent and the empty payload is sent. */
  function OnClear(s: State): (o: Outcome)
    ensures o.state.selected.None?
    ensures o.state.initialized == s.initialized
    ensures o.sent == Some(Payload("", "", "", None))
  {
    Outcome(State(None, s.initialized), Some(ClearPayload))
  }

  /** One event. Only user actions send a payload; host data never does. */
  function Step(s: State, e: Event): (o: Outcome)
    ensures o.sent.Some? <==> !e.HostData?
    ensures e.HostData? && (s.initialized || e.fieldData.None?) ==> o.state == s
    ensures s.initialized ==> o.state.initialized
    ensures o.state.initialized ==> s.initialized || e.HostData?
  {
    match e
    case HostData(fieldData) => Outcome(OnFieldData(s, fieldData), None)
    case Pick(id, native, unified, name) => OnEmojiSelect(s, id, native, unified, name)
    case Clear => OnClear(s)
  }
}
