/**
 * The prompts the selected-text AI actions send. The chat view and the
 * composer share the six rewrite templates; the chat view adds an
 * "Ask Fin AI" key and falls back to the raw selected text.
 */
module Prompts {
  import opened Wrappers

  /** The composer's `AIActionType`. */
  datatype AIAction = Rephrase | Tone | Friendly | Formal | Grammar | Translate

  /** Action keys are matched exactly, so "Formal" is not `formal`. */
  function ParseAction(key: string): Option<AIAction>
  {
    if key == "rephrase" then Some(Rephrase)
    else if key == "tone" then Some(Tone)
    else if key == "friendly" then Some(Friendly)
    else if key == "formal" then Some(Formal)
    else if key == "grammar" then Some(Grammar)
    else if key == "translate" then Some(Translate)
    else None
  }

  /** The key string of each action, as the code spells it. */
  function ActionKey(a: AIAction): string
  {
    match a
    case Rephrase => "rephrase"
    case Tone => "tone"
    case Friendly => "friendly"
    case Formal => "formal"
    case Grammar => "grammar"
    case Translate => "translate"
  }

  /** A key names an action exactly when it is that action's spelling. */
  lemma ParseActionKey(key: string, a: AIAction)
    ensures ParseAction(key) == Some(a) <==> key == ActionKey(a)
  {
  }

  /** "Ask Fin AI" is not one of the rewrite actions. */
  lemma AskFinAIIsNoRewrite()
    ensures ParseAction(AskFinAIKey) == None
  {
  }

  /** The fixed instruction in front of the quoted text. */
  function Instruction(a: AIAction): string
  {
    match a
    case Rephrase => "Rephrase this text in a different way while maintaining its meaning: "
    case Tone => "Adjust the tone of voice in this message to be more professional and clear: "
    case Friendly => "Make this message more friendly and approachable while maintaining its core message: "
    case Formal => "Make this message more formal and professional: "
    case Grammar => "Fix any grammar and spelling issues in this text while maintaining its meaning: "
    case Translate => "Translate this text to English, Spanish, and French: "
  }

  const AskFinAIKey: string := "Ask Fin AI"
  const AskFinAIInstruction: string := "Ask Fin AI about this text: "

  /** `"${text}"` */
  function Quoted(text: string): string
  {
    "\"" + text + "\""
  }

  /** The prompt both components build for a rewrite action. */
  function Template(a: AIAction, text: string): string
  {
    Instruction(a) + Quoted(text)
  }

  /** The instruction the chat view puts in front of the quoted text, if the key has one. */
  function ChatInstruction(key: string): Option<string>
  {
    match ParseAction(key)
    case Some(a) => Some(Instruction(a))
    case None => if key == AskFinAIKey then Some(AskFinAIInstruction) else None
  }

  /**
   * The chat view's prompt switch: the seven known keys quote the selected
   * text after their instruction, any other key sends the text as it is.
   */
  function ChatPrompt(key: string, text: string): (prompt: string)
    ensures ChatInstruction(key).Some? ==> prompt == ChatInstruction(key).value + Quoted(text)
    ensures ChatInstruction(key).None? ==> prompt == text
  {
    match ParseAction(key)
    case Some(a) => Template(a, text)
    case None => if key == AskFinAIKey then AskFinAIInstruction + Quoted(text) else text
  }

  /** Reads the selected text back out of a chat prompt built with `key`. */
  function SelectedTextOf(key: string, prompt: string): string
  {
    match ChatInstruction(key)
    case None => prompt
    case Some(instr) =>
      if |instr| + 2 <= |prompt| then prompt[|instr| + 1 .. |prompt| - 1] else prompt
  }

  /** The selected text can always be recovered from the prompt of every key. */
  lemma SelectedTextOfChatPrompt(key: string, text: string)
    ensures SelectedTextOf(key, ChatPrompt(key, text)) == text
  {
    var prompt := ChatPrompt(key, text);
    if ChatInstruction(key).Some? {
      var instr := ChatInstruction(key).value;
      assert prompt == instr + "\"" + text + "\"";
      assert prompt[|instr| + 1 .. |prompt| - 1] == text;
    }
  }

  /** Different selected texts never give the same prompt under one key. */
  lemma ChatPromptInjective(key: string, t1: string, t2: string)
    ensures ChatPrompt(key, t1) == ChatPrompt(key, t2) ==> t1 == t2
  {
    SelectedTextOfChatPrompt(key, t1);
    SelectedTextOfChatPrompt(key, t2);
  }

  /** With `formal`, the prompt for "thanks for reaching out" is the fixed template. */
  lemma FormalExample()
    ensures ChatPrompt("formal", "thanks for reaching out")
         == "Make this message more formal and professional: " + "\"" + "thanks for reaching out" + "\""
  {
    assert "formal"[0] != "rephrase"[0] && "formal"[0] != "tone"[0] && "formal"[1] != "friendly"[1];
    assert ParseAction("formal") == Some(Formal);
  }

  /** Keys differing only in case from a known key fall through to the raw text. */
  lemma KeysAreCaseSensitive(text: string)
    ensures ChatPrompt("Formal", text) == text
    ensures ChatPrompt("REPHRASE", text) == text
    ensures ChatPrompt("ask fin ai", text) == text
  {
  }
}
