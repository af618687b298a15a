/**
 * The message composer (`MessageComposer`). It owns no store state: its
 * handlers call the callbacks it was given, so each handler is modelled as
 * the ordered list of callback calls it makes.
 */
module Composer {
  import opened Wrappers
  import opened Types
  import JsString
  import Prompts

  /** A call the composer makes on one of its callbacks. */
  datatype ComposerCall =
    | OnSend(content: string)
    | OnChange(value: string)
    | SelectTextForAI(prompt: string, messageId: string)

  // ----- insertFormat

  datatype FormatKind = Bold | Italic | H1 | H2

  /** The format key the toolbar and the shortcuts pass to `insertFormat`. */
  function FormatName(k: FormatKind): string
  {
    match k
    case Bold => "bold"
    case Italic => "italic"
    case H1 => "h1"
    case H2 => "h2"
  }

  /** The `switch (format)`: any other key makes `insertFormat` return early. */
  function ParseFormat(format: string): (r: Option<FormatKind>)
    ensures r.Some? ==> format == FormatName(r.value)
  {
    if format == "bold" then Some(Bold)
    else if format == "italic" then Some(Italic)
    else if format == "h1" then Some(H1)
    else if format == "h2" then Some(H2)
    else None
  }

  /** Every format's own key is recognised. */
  lemma ParseFormatName(k: FormatKind)
    ensures ParseFormat(FormatName(k)) == Some(k)
  {
  }

  function OpeningMarker(k: FormatKind): string
  {
    match k
    case Bold => "**"
    case Italic => "_"
    case H1 => "# "
    case H2 => "## "
  }

  function ClosingMarker(k: FormatKind): string
  {
    match k
    case Bold => "**"
    case Italic => "_"
    case H1 => ""
    case H2 => ""
  }

  /** `newText`: the selection with its markers. */
  function Formatted(k: FormatKind, selected: string): string
  {
    OpeningMarker(k) + selected + ClosingMarker(k)
  }

  /** `cursorOffset`: how far the cursor moves when nothing was selected. */
  function CursorOffset(k: FormatKind): nat
  {
    match k
    case Bold => 2
    case Italic => 1
    case H1 => 2
    case H2 => 3
  }

  /** The new composer text and the position the cursor is put back to. */
  datatype FormatEdit = FormatEdit(newValue: string, cursor: int)

  /**
   * `insertFormat(format)` on `value` with the textarea's selection from
   * `start` to `end`. Nothing happens without a textarea or with an unknown key.
   */
  function InsertFormat(value: string, hasTextarea: bool, start: int, end: int, format: string): (r: Option<FormatEdit>)
    ensures r.None? <==> !hasTextarea || ParseFormat(format).None?
  {
    if !hasTextarea then None
    else match ParseFormat(format)
      case None => None
      case Some(k) =>
        var selected := JsString.Substring(value, start, end);
        var newText := Formatted(k, selected);
        var newValue := JsString.Substring(value, 0, start) + newText + JsString.Substring(value, end, |value|);
        var cursor := if selected != [] then start + |newText| else start + CursorOffset(k);
        Some(FormatEdit(newValue, cursor))
  }

  /**
   * For a selection inside the text (as a textarea reports it), the text
   * before and after the selection is kept and the marked-up selection goes
   * between them; bold adds 4 characters, italic and h1 2, h2 3.
   */
  lemma InsertFormatSplice(value: string, start: nat, end: nat, k: FormatKind)
    requires start <= end <= |value|
    ensures InsertFormat(value, true, start, end, FormatName(k)).Some?
    ensures var edit := InsertFormat(value, true, start, end, FormatName(k)).value;
      && edit.newValue == value[..start] + Formatted(k, value[start..end]) + value[end..]
      && edit.newValue[..start] == value[..start]
      && edit.newValue[|edit.newValue| - (|value| - end)..] == value[end..]
      && |edit.newValue| == |value| + (match k case Bold => 4 case Italic => 2 case H1 => 2 case H2 => 3)
  {
    InsertFormatNewValue(value, start, end, k);
    var pre, mid, post := value[..start], Formatted(k, value[start..end]), value[end..];
    var v := pre + mid + post;
    assert |mid| == (end - start) + (match k case Bold => 4 case Italic => 2 case H1 => 2 case H2 => 3);
    assert v[..start] == pre;
    assert v[|v| - |post|..] == post;
  }

  /** The new text of `insertFormat`, for a selection inside the text. */
  lemma InsertFormatNewValue(value: string, start: nat, end: nat, k: FormatKind)
    requires start <= end <= |value|
    ensures InsertFormat(value, true, start, end, FormatName(k)).Some?
    ensures InsertFormat(value, true, start, end, FormatName(k)).value.newValue
         == value[..start] + Formatted(k, value[start..end]) + value[end..]
  {
    ParseFormatName(k);
    assert JsString.Substring(value, 0, start) == value[..start];
    assert JsString.Substring(value, start, end) == value[start..end];
    assert JsString.Substring(value, end, |value|) == value[end..];
  }

  /** The cursor position `insertFormat` computes, for a selection inside the text. */
  lemma InsertFormatCursorIs(value: string, start: nat, end: nat, k: FormatKind)
    requires start <= end <= |value|
    ensures InsertFormat(value, true, start, end, FormatName(k)).Some?
    ensures InsertFormat(value, true, start, end, FormatName(k)).value.cursor
         == if start == end then start + CursorOffset(k) else start + |Formatted(k, value[start..end])|
  {
    ParseFormatName(k);
    assert JsString.Substring(value, start, end) == value[start..end];
  }

  /**
   * Where the cursor lands: with nothing selected, right after the opening
   * marker (inside the markers); with a selection, right after the whole
   * marked-up text.
   */
  lemma InsertFormatCursor(value: string, start: nat, end: nat, k: FormatKind)
    requires start <= end <= |value|
    ensures var edit := InsertFormat(value, true, start, end, FormatName(k)).value;
      && 0 <= edit.cursor <= |edit.newValue|
      && (start == end ==> edit.newValue[..edit.cursor] == value[..start] + OpeningMarker(k))
      && (start < end ==> edit.newValue[..edit.cursor] == value[..start] + Formatted(k, value[start..end]))
  {
    InsertFormatNewValue(value, start, end, k);
    InsertFormatCursorIs(value, start, end, k);
    SpliceCursor(value[..start], value[start..end], value[end..], k);
  }

  /** The cursor formula on a spliced text: inside the markers, or after the marked-up text. */
  lemma SpliceCursor(pre: string, sel: string, post: string, k: FormatKind)
    ensures var v := pre + Formatted(k, sel) + post;
      var c := if sel == [] then |pre| + CursorOffset(k) else |pre| + |Formatted(k, sel)|;
      && c <= |v|
      && (sel == [] ==> v[..c] == pre + OpeningMarker(k))
      && (sel != [] ==> v[..c] == pre + Formatted(k, sel))
  {
    var newText := Formatted(k, sel);
    if sel == [] {
      assert |OpeningMarker(k)| == CursorOffset(k);
      assert pre + newText + post == (pre + OpeningMarker(k)) + (ClosingMarker(k) + post);
    } else {
      assert pre + newText + post == (pre + newText) + post;
    }
  }

  // ----- handleSend and handleKeyDown

  /**
   * `handleSend()`: when the text is not blank, hands it over untrimmed and
   * then clears it; a blank text makes no call.
   */
  function HandleSend(value: string): (calls: seq<ComposerCall>)
    ensures calls == [] || calls == [OnSend(value), OnChange("")]
    ensures calls != [] <==> exists i :: 0 <= i < |value| && !JsString.IsJsWhitespace(value[i])
  {
    JsString.TrimEmptyIff(value);
    if JsString.Trim(value) != [] then [OnSend(value), OnChange("")] else []
  }

  datatype KeyEvent = KeyEvent(key: string, shiftKey: bool, ctrlKey: bool, metaKey: bool)

  datatype KeyCommand = SendCommand | FormatCommand(kind: FormatKind) | NoCommand

  /** The key each formatting shortcut uses together with Ctrl or Meta. */
  function ShortcutKey(k: FormatKind): string
  {
    match k
    case Bold => "b"
    case Italic => "i"
    case H1 => "1"
    case H2 => "2"
  }

  /**
   * What `handleKeyDown` does with a key: Enter without Shift sends;
   * otherwise Ctrl or Meta with b, i, 1 or 2 formats; anything else is left
   * to the textarea.
   */
  function KeyCommandOf(e: KeyEvent): (c: KeyCommand)
    ensures c == SendCommand <==> e.key == "Enter" && !e.shiftKey
    ensures c.FormatCommand? <==>
              !(e.key == "Enter" && !e.shiftKey) && (e.ctrlKey || e.metaKey) &&
              (e.key == "b" || e.key == "i" || e.key == "1" || e.key == "2")
    ensures c.FormatCommand? ==> e.key == ShortcutKey(c.kind)
  {
    if e.key == "Enter" && !e.shiftKey then SendCommand
    else if e.ctrlKey || e.metaKey then
      if e.key == "b" then FormatCommand(Bold)
      else if e.key == "i" then FormatCommand(Italic)
      else if e.key == "1" then FormatCommand(H1)
      else if e.key == "2" then FormatCommand(H2)
      else NoCommand
    else NoCommand
  }

  /** The `onChange` call `insertFormat` makes, if any. */
  function InsertFormatCalls(value: string, hasTextarea: bool, start: int, end: int, format: string): seq<ComposerCall>
  {
    match InsertFormat(value, hasTextarea, start, end, format)
    case None => []
    case Some(edit) => [OnChange(edit.newValue)]
  }

  /** `handleKeyDown(e)` on the textarea holding `value`. */
  function HandleKeyDown(e: KeyEvent, value: string, hasTextarea: bool, start: int, end: int): (calls: seq<ComposerCall>)
    ensures KeyCommandOf(e) == SendCommand ==> calls == HandleSend(value)
    ensures KeyCommandOf(e).FormatCommand? && hasTextarea ==>
              calls == [OnChange(InsertFormat(value, true, start, end, FormatName(KeyCommandOf(e).kind)).value.newValue)]
    ensures (KeyCommandOf(e) == NoCommand || (KeyCommandOf(e).FormatCommand? && !hasTextarea)) ==> calls == []
  {
    match KeyCommandOf(e)
    case SendCommand => HandleSend(value)
    case FormatCommand(k) => ParseFormatName(k); InsertFormatCalls(value, hasTextarea, start, end, FormatName(k))
    case NoCommand => []
  }

  // ----- handleAIAction

  /**
   * The composer's `handleAIAction(action)`: returns at once without a
   * selection, a conversation or the `selectTextForAI` callback, or while an
   * action is processing; otherwise hands the action's prompt to the callback.
   * (`isProcessing` is set and reset within the handler.)
   */
  function HandleAIAction(action: Prompts.AIAction, selection: Option<SelectedTextAction>, hasConversation: bool,
                          hasCallback: bool, isProcessing: bool): (calls: seq<ComposerCall>)
    ensures calls == [] <==> selection.None? || !hasConversation || isProcessing || !hasCallback
    ensures calls != [] ==> calls == [SelectTextForAI(Prompts.Template(action, selection.value.text), selection.value.messageId)]
  {
    if selection.None? || !hasConversation || isProcessing || !hasCallback then []
    else [SelectTextForAI(Prompts.Template(action, selection.value.text), selection.value.messageId)]
  }

  /** The composer's six actions give the same prompts as the chat view's keys. */
  lemma ComposerPromptsMatchChat(action: Prompts.AIAction, text: string)
    ensures Prompts.ChatPrompt(Prompts.ActionKey(action), text) == Prompts.Template(action, text)
  {
    Prompts.ParseActionKey(Prompts.ActionKey(action), action);
  }
}
