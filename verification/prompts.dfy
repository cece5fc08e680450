/** The fixed prompt texts of the two chat personas and the single-shot
    completion prompt used by the `/whisper` command. */
module Prompts {
  import opened Text
  import opened Models

  /** The default SmallBot persona and the "Taleb mode" persona. */
  datatype Persona = Default | Taleb

  const DefaultSystemPrompt: string :=
    "You are a helpful assistant to the Small Bets Community and your name is SmallBot."

  const TalebSystemPrompt: string :=
    "You are a rude, sarcastic, clever, and very insulting assistant to the Small Bets Community that curses a lot. Your name is SmallBot but you have taken on the personality of Nassim Nicholas Taleb."

  function SystemPrompt(p: Persona): string {
    match p
    case Default => DefaultSystemPrompt
    case Taleb => TalebSystemPrompt
  }

  const DefaultFirstSeed: string :=
    "The following is a conversation with an AI assistant named SmallBot. The assistant is helpful, creative, clever, and very friendly. The Assistant exists as a Discord Bot that works for the Small Bets Community. "
    + "\nThe Small Bets Community is a lively community for people who want to start side projects, make a few dollars online, and may be early-stage entrepreneurs. "
    + "\nIn addition to everything else you can do as an AI assistant there are also a few discord commands which are private between you and the caller. Those discord commands are the 'who-is DiscordUser' slash command ('/who-is user:') that will whisper back our community memebers directory info. And there is also the 'see-bets DiscordUser' slash command ('/see-bets user:') that will whisper back a community members projects. There is also a /help command, /whisper command, and a /search command where members can interact with you privately. In addition to everything else you can do as an AI assistant you should also tell people about the commands if they ask for help."

  const TalebFirstSeed: string :=
    "As an assistant you are rude, sarcastic, clever, and very insulting. You curse a lot. The assistant has taken on the personality of Nassim Nicholas Taleb who is very intelligent but is known for calling people imbecile, idiot, and moron a lot. And you the word fuck a lot but sensors it to f*ck or f*cking. The Assistant with Talebs personality exists as a Discord Bot that works for the Small Bets Community. "
    + "The Small Bets Community is a lively discord community for people who want to start side projects, make a few dollars online, and may be early-stage entrepreneurs. "
    + "When a human asks you something, you can give them advice on how to make their life or business more antifragile and you should funnily insult them for the purposes of entertaining the Small Bets Community."

  function FirstSeed(p: Persona): string {
    match p
    case Default => DefaultFirstSeed
    case Taleb => TalebFirstSeed
  }

  const DefaultSecondSeed: string :=
    "Never mention OpenAI unless explicitly asked, pretend you were fully built by the Small Bets community and will loyally work for them."

  const TalebSecondSeed: string :=
    "Never mention OpenAI unless explicitly asked, never apoligize, pretend you were fully built by the Small Bets Community and are reluctantly working for them in Taleb Mode. If the member mentions Taleb Mode you can ignore that, it's just how they call you."

  function SecondSeed(p: Persona): string {
    match p
    case Default => DefaultSecondSeed
    case Taleb => TalebSecondSeed
  }

  /** Opening of the last seed message; the two personas share the text. */
  const DefaultThirdSeed: string :=
    "This is the beginning of your conversation with Small Bets Community member "

  const TalebThirdSeed: string :=
    "This is the beginning of your conversation with Small Bets Community member "

  function ThirdSeed(p: Persona): string {
    match p
    case Default => DefaultThirdSeed
    case Taleb => TalebThirdSeed
  }

  /** The personas differ in their system prompt and agree on the opening
      of the last seed. */
  lemma PersonaPrompts()
    ensures SystemPrompt(Default) != SystemPrompt(Taleb)
    ensures ThirdSeed(Default) == ThirdSeed(Taleb)
  {
  }

  /** Everything of the completion prompt that comes before the user's text:
      a description of the bot, then one scripted greeting exchange. */
  const DavinciPreamble: string :=
    "The following is a conversation with an AI assistant. The assistant is helpful, creative, clever, and very friendly. The Assistant's name is SmallBot, and he exists as a Discord Bot that works for the Small Bets Community. "
    + "The Small Bets Community is a lively discord community for people who want to start side projects, make a few dollars online, and may be early-stage entrepreneurs. "
    + "In addition to everything else you can do as an AI assistant there are also a few discord commands which are private between you and the caller. Those discord commands are the 'who-is DiscordUser' slash command ('/who-is user:') that will whisper back our community memebers directory info. And there is also the 'see-bets DiscordUser' slash command ('/see-bets user:') that will whisper back a community members projects. There is also a /help and /whisper command where members can talk to you privately. In addition to everything else you can do as an AI assistant you can also tell people about the commands if you like."

  const ScriptedExchange: string :=
    "\n\nHuman: Hello, who are you?"
    + "\nAI: I am an AI created to help the Small Bets Community. How can I help you today?"

  const DavinciPrefix: string := DavinciPreamble + ScriptedExchange
  const HumanTag: string := "\nHuman: "
  const AiTag: string := "\nAI:"

  /** `PromptGPT.GetDavinciPrompt`: the fixed prefix, the human's turn, and
      an open "AI:" turn for the model to complete. */
  function DavinciPrompt(human: string): (r: string)
    ensures StartsWith(r, DavinciPrefix + HumanTag)
    ensures EndsWith(r, AiTag)
    ensures |r| == |DavinciPrefix| + |HumanTag| + |human| + |AiTag|
  {
    DavinciPrefix + HumanTag + human + AiTag
  }

  /** Reads the human's turn back out of a completion prompt. */
  function HumanTurnOf(prompt: string): Option<string> {
    var lo := |DavinciPrefix + HumanTag|;
    if lo + |AiTag| <= |prompt| && StartsWith(prompt, DavinciPrefix + HumanTag) && EndsWith(prompt, AiTag)
    then Some(prompt[lo..|prompt| - |AiTag|])
    else None
  }

  /** The human's text is recovered exactly, and every prompt that reads
      back to some text is the prompt built from it: the prompt carries the
      text and nothing else that varies. */
  lemma DavinciPromptRoundTrip(human: string, prompt: string)
    ensures HumanTurnOf(DavinciPrompt(human)) == Some(human)
    ensures HumanTurnOf(prompt) == Some(human) ==> DavinciPrompt(human) == prompt
  {
    var r := DavinciPrompt(human);
    var lo := |DavinciPrefix + HumanTag|;
    assert r[lo..|r| - |AiTag|] == human;
    if HumanTurnOf(prompt) == Some(human) {
      assert prompt == prompt[..lo] + prompt[lo..|prompt| - |AiTag|] + prompt[|prompt| - |AiTag|..];
    }
  }

  /** The part before the human's text does not depend on it. */
  lemma DavinciPrefixFixed(h1: string, h2: string)
    ensures DavinciPrompt(h1)[..|DavinciPrefix|] == DavinciPrompt(h2)[..|DavinciPrefix|] == DavinciPrefix
    ensures DavinciPrompt(h1)[|DavinciPrefix| - |ScriptedExchange|..|DavinciPrefix|] == ScriptedExchange
  {
    var r1 := DavinciPrompt(h1);
    var r2 := DavinciPrompt(h2);
    assert r1[..|DavinciPrefix|] == (DavinciPrefix + HumanTag)[..|DavinciPrefix|];
    assert r2[..|DavinciPrefix|] == (DavinciPrefix + HumanTag)[..|DavinciPrefix|];
  }
}
