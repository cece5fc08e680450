# SmallBot conversational context, in Dafny

SmallBot is a Discord bot for the Small Bets community. It answers members
through a chat-completion model, and it keeps the context it sends to the
model in a process-wide memory cache:

- one conversation per member for the default persona, under `username#discriminator`;
- one conversation per member for the "Taleb mode" persona, under `username#discriminator#taleb`;
- a short window of recent chatter per channel or thread, under the channel's name.

This project models that engine as pure functions and proves properties of it:

- `MessageReceivedAsync`'s routing chain;
- seeding conversations;
- the channel-history window;
- the chat turn with its commit-or-apologise outcome;
- the directory blurb `InfoOnUser`;
- the slash-command dispatch and the `/who-is`, `/see-bets`, `/search` and `/whisper` answers;
- the single-shot completion prompt and the persona prompt texts.

Modules, in dependency order:

- `Text` (text.dfy): the .NET string operations the code uses. These are ordinal and ASCII ignore-case `Contains`, `Trim` with .NET's white-space set, `StringBuilder.AppendLine` as `Lines`, and decimal rendering. It also has a line reader `SplitLines`, used to state read-back properties.
- `Models` (models.dfy): `Message {role, content}`, the directory profile and project records, and the completion outcome `Reply | NoReply | Fault`.
- `Prompts` (prompts.dfy): the persona prompt constants and `GetDavinciPrompt`.
- `Directory` (directory.dfy): `InfoOnUser`, and the field selection shared with the slash commands.
- `ContextStore` (context_store.dfy): the cache as `map<string, seq<Message>>`, with seeding, opening, channel append with eviction, and channel read.
- `Routing` (routing.dfy): the inbound message record and the first-match route classifier.
- `MessageHandler` (message_handler.dfy): the whole effect of one message on the store, the request sent to the completion service, and the reply.
- `SlashCommands` (slash_commands.dfy): dispatch and the slash-command answers.

The completion service, the directory, the search engine and the
recordings-channel lookup are parameters. Discord itself is reduced to the
inbound record and the outbound action.

## Notes on behaviour

Where a description of the bot and its code differ, the model follows the code:

- The chain is evaluated in the coded order: ignore, direct message, recordings question, "taleb mode", reply, `!` prefix, mention, "smallbot", and otherwise channel chatter.
- The mention route trims the text after the mention prefix. It blanks the text when it is the bare mention token. Its attempt to strip other mention tokens discards the result of `Replace`, so such a token stays in the user turn (`Routing.MentionTokenKept`).
- The seed's last message quotes the whole message text. The mention route then appends the trimmed text as the user turn, so on a first contact the text appears twice.
- The first direct message sends six messages: five seed messages and the user turn. After a reply that Discord accepts, seven are stored (`MessageHandler.FirstDirectMessage`).
- The entry that creates a channel history reads "They said: ". Later entries read "They said to the channel: ".
- The user turn is appended to the stored list in place before the completion call. A failed completion therefore leaves the turn stored without a reply (`MessageHandler.ChatOutcome`).
- The reply is sent before it is committed. A reply that Discord refuses (an empty text, or one over its length limit) raises inside the `try`: the apology is sent and the conversation keeps only the turn. The model takes Discord's verdict on a reply text as a parameter.
- Channel names and user keys share one key space. A channel whose name is a user's key would alias that conversation. `MessageHandler.HistoryFor` models this: the history is then the conversation itself, already holding the new turn. The isolation lemmas and the history-validity lemmas (`MessageHandler.ChatLeavesChannels`, `MessageHandler.StepKeepsHistoryValid`, `MessageHandler.RunKeepsHistoryValid`) assume names without `#`.
- A null completion raises "an OpenAi issue", and the routes other than direct messages quote that text in their apology. A direct message always gets the fixed apology.
- The slash commands answer only the caller (ephemerally). An answer is modelled as its embed's title and description, or as plain text.

## Model

| member | source | states |
|---|---|---|
| Text.Trim | SmallBot/Services/TextCommandHandlingService.cs:249 | the trimmed text is a slice of the input obtained by cutting only white space (the .NET set) from either end, and it neither starts nor ends with white space |
| Text.TrimIdempotent | SmallBot/Services/TextCommandHandlingService.cs:249 | trimming the mention text a second time changes nothing |
| Text.ContainsIgnoreCasePrefix | SmallBot/Services/TextCommandHandlingService.cs:115-116 | a text that contains a keyword ignoring case contains every prefix of it ignoring case |
| Text.LinesAppend | SmallBot/Services/TextCommandHandlingService.cs:553-575 | the builder text of two runs of `AppendLine` is the concatenation of their texts |
| Text.SplitLinesOfLines | SmallBot/Services/TextCommandHandlingService.cs:553-575 | lines without line breaks are recovered exactly from the builder text, so the rendered text determines its lines |
| Text.IntToStringRoundTrip | SmallBot/Services/TextCommandHandlingService.cs:567-568 | the decimal rendering of a project count reads back to the same integer, negative counts included |
| Prompts.DavinciPrompt | SmallBot/Models/PromptGPT.cs:24-35 | the prompt starts with the fixed prefix and the human tag, ends with the open `\nAI:` turn, and is exactly as long as those parts and the human text together |
| Prompts.DavinciPromptRoundTrip | SmallBot/Models/PromptGPT.cs:24-35 | the human text is read back exactly from the prompt, and any prompt that reads back to a text is the prompt built from it |
| Prompts.DavinciPrefixFixed | SmallBot/Models/PromptGPT.cs:26-30 | the part before the human text is the same for every text and ends with the scripted greeting exchange |
| Prompts.PersonaPrompts | SmallBot/Models/PromptGPT.cs:5-21 | the two personas have different system prompts and the same opening for the last seed |
| Directory.Select | SmallBot/Services/TextCommandHandlingService.cs:556-572 | a line kind is selected exactly when it is in the layout and the profile has it; a profile with every field set keeps the whole layout |
| Directory.SelectAppend | SmallBot/Services/TextCommandHandlingService.cs:556-572 | selecting from a split layout selects each part independently, in order |
| Directory.InfoOnUser | SmallBot/Services/TextCommandHandlingService.cs:540-588 | a found profile renders as the directory header line, then the Name line, then the other lines; a missing profile gives the fixed no-info sentence; a failing lookup gives the empty text |
| Directory.InfoOnUserReadsBack | SmallBot/Services/TextCommandHandlingService.cs:553-575 | read line by line after the header, the blurb is one line per set field in layout order, with the Name line first and each optional line present exactly when its field is set |
| ContextStore.PersonaKeysInjective | SmallBot/Services/TextCommandHandlingService.cs:414-538 | with no `#` in user names or discriminators, two different (persona, user) pairs never share a cache key |
| ContextStore.ChannelKeyIsNotPersonaKey | SmallBot/Services/TextCommandHandlingService.cs:444-462 | a channel name without `#` is never a user's conversation key |
| ContextStore.Seed | SmallBot/Services/TextCommandHandlingService.cs:414-442 | a new conversation is five messages: the persona's system prompt as a system message, then four user messages, the directory blurb fourth and the opening line quoting the user fifth |
| ContextStore.Open | SmallBot/Services/TextCommandHandlingService.cs:414-442 | a stored conversation is handed out untouched with the store unchanged; an absent one is seeded, stored under its key and handed out; no other key changes |
| ContextStore.SeedOnce | SmallBot/Services/TextCommandHandlingService.cs:509-538 | opening a key a second time, with any seed, returns what the first opening stored and leaves the store alone |
| ContextStore.Evict | SmallBot/Services/TextCommandHandlingService.cs:470-473 | a history of at most ten entries is kept; a longer one loses exactly its entry at index 1 and keeps its header |
| ContextStore.AppendChatter | SmallBot/Services/TextCommandHandlingService.cs:444-485 | an unknown channel gets its header and the creating entry; a known one gets the entry appended and then evicted; a bounded history stays bounded, keeps its header and ends with the new entry; no other key changes |
| ContextStore.ReadHistory | SmallBot/Services/TextCommandHandlingService.cs:487-505 | an unknown channel reads as the empty history and a known one as its stored list |
| ContextStore.HistoryWindow | SmallBot/Services/TextCommandHandlingService.cs:444-485 | after any run of chatter in a new channel, the history is the header followed by the entries of the nine most recent messages (all of them if fewer), in arrival order |
| ContextStore.HistoryBounded | SmallBot/Services/TextCommandHandlingService.cs:470-473 | after any run of chatter in a channel with no history yet, the history holds the header and exactly the smaller of nine and the number of messages as entries; for a history that already exists, `ContextStore.AppendChatter` keeps the ten-entry bound and the header, and `MessageHandler.RunKeepsHistoryValid` carries that over any run of messages |
| Routing.RecordingsKeywordRedundant | SmallBot/Services/TextCommandHandlingService.cs:115-116 | the recordings test holds exactly when the text contains "recording" and "?" ignoring case, so its second keyword never changes the outcome |
| Routing.MentionText | SmallBot/Services/TextCommandHandlingService.cs:249-254 | the user turn is the text after the mention prefix, trimmed; it is blanked exactly when that text is empty or is the bare mention token, and is otherwise that trimmed text unchanged |
| Routing.MentionTextShape | SmallBot/Services/TextCommandHandlingService.cs:249-254 | a non-empty user turn occurs in the message text after the mention prefix and has no white space left at either end |
| Routing.MentionTokenKept | SmallBot/Services/TextCommandHandlingService.cs:255-257 | a mention token inside the text after the prefix is passed on to the model untouched |
| Routing.Classify | SmallBot/Services/TextCommandHandlingService.cs:62-394 | the message falls to channel chatter exactly when no test of the chain holds; otherwise the test of its route holds; a reply chats exactly when it replies to the bot; a command keeps the position after the `!` |
| Routing.ClassifyFirstMatch | SmallBot/Services/TextCommandHandlingService.cs:62-394 | the route is the one of the first test that holds, in the coded order, as found by an independent first-match over the ordered test table |
| MessageHandler.Converse | SmallBot/Services/TextCommandHandlingService.cs:130-179 | the request starts with the conversation so far and the new user turn; the turn stays stored whatever the completion does; a reply is appended after it only when Discord accepts it; a direct message sends nothing after the turn; no other key changes |
| MessageHandler.RequestLayout | SmallBot/Services/TextCommandHandlingService.cs:135-153 | after the user turn the request carries the channel's history, or nothing for a channel without a name or history, or the conversation again when the channel's name is the conversation's own stored key |
| MessageHandler.Step | SmallBot/Services/TextCommandHandlingService.cs:62-394 | a completion is requested exactly when the message chats; the store changes at most under the route's one key (the author's persona conversation, or the channel's history) and not at all for the other routes |
| MessageHandler.ChatOutcome | SmallBot/Services/TextCommandHandlingService.cs:180-231 | on every chat route the request begins with the conversation and the user turn; on a reply Discord accepts, the conversation gains the turn and the reply and the reply is sent; on a refused reply or a failed completion it gains only the turn, and the apology is sent quoting the refusal's or the failure's message outside direct messages |
| MessageHandler.DirectMessageHasNoHistory | SmallBot/Services/TextCommandHandlingService.cs:80-113 | a direct message sends its conversation and the message only, never channel history |
| MessageHandler.FirstDirectMessage | SmallBot/Services/TextCommandHandlingService.cs:80-113 | a member's first direct message sends the five seed messages and the message, and leaves seven messages stored after a delivered reply, six otherwise |
| MessageHandler.ConversationIsolation | SmallBot/Services/TextCommandHandlingService.cs:99-166 | handling a message never changes another member's conversation, nor the same member's conversation with the other persona |
| MessageHandler.RequestReadsOwnKeys | SmallBot/Services/TextCommandHandlingService.cs:414-505 | a chat's request depends on the store only through the author's conversation under the chosen persona and the channel's history: two stores that agree on those two keys give the same request |
| MessageHandler.RequestIgnoresOtherConversations | SmallBot/Services/TextCommandHandlingService.cs:99-166 | replacing another member's conversation, or the author's conversation with the other persona, leaves the request a chat sends unchanged |
| MessageHandler.InertRoutes | SmallBot/Services/TextCommandHandlingService.cs:180-231 | bot and system messages, and replies to anyone but the bot, send nothing, request nothing and record nothing |
| MessageHandler.BareMentionGreeted | SmallBot/Services/TextCommandHandlingService.cs:251-312 | a bare mention is greeted by name with no completion call and no change to the store |
| MessageHandler.ChatLeavesChannels | SmallBot/Services/TextCommandHandlingService.cs:487-505 | reading a channel's history for a chat never changes that history, for a channel whose name has no `#` |
| MessageHandler.ChatterRecorded | SmallBot/Services/TextCommandHandlingService.cs:364-394 | chatter in a named channel or thread is appended to that channel's history silently, without a completion call |
| MessageHandler.StepKeepsHistoryValid | SmallBot/Services/TextCommandHandlingService.cs:444-485 | whatever message arrives, every channel history whose name has no `#` keeps its header first and at most ten entries |
| MessageHandler.RunKeepsHistoryValid | SmallBot/Services/TextCommandHandlingService.cs:444-485 | over any sequence of messages, every channel history whose name has no `#` keeps its header first and at most ten entries |
| SlashCommands.Dispatch | SmallBot/Services/SlashCommandHandlingService.cs:124-147 | a recognised name selects the command of that name |
| SlashCommands.DispatchByName | SmallBot/Services/SlashCommandHandlingService.cs:129-146 | each command is reached by exactly its own name, and by no other |
| SlashCommands.HandleSlash | SmallBot/Services/SlashCommandHandlingService.cs:124-147 | an unknown name gets no answer; each of the five names gets its own command's answer, `/see-bets` the corrected one; wherever the code as written answers `/see-bets`, the answer is the same |
| SlashCommands.WhisperAnswer | SmallBot/Services/SlashCommandHandlingService.cs:177-197 | the question is recoverable from the prompt sent; the answer is the completion or the service's refusal text when Discord accepts it; on an exception or a response Discord refuses, the fixed apology if Discord accepts that, and no answer otherwise; every answer given is one Discord accepted |
| SlashCommands.WhoIsAnswer | SmallBot/Services/SlashCommandHandlingService.cs:200-256 | the title names the user; a found profile is described starting with its Name line, so the no-info sentence answers only a missing profile |
| SlashCommands.WhoIsReadsBack | SmallBot/Services/SlashCommandHandlingService.cs:211-235 | read line by line, the description is one line per set field in who-is order, the Name line first and each optional line present exactly when its field is set |
| SlashCommands.SeeBetsAsWritten | SmallBot/Services/SlashCommandHandlingService.cs:258-312 | as coded: a profile with its projects is described; when exactly one of profile and project list is missing the command throws and nothing is answered |
| SlashCommands.SeeBetsMissingProfileUnanswered | SmallBot/Services/SlashCommandHandlingService.cs:299-306 | a member with no profile whose project list comes back empty gets no answer |
| SlashCommands.SeeBetsAnswer | SmallBot/Services/SlashCommandHandlingService.cs:258-312 | the corrected command of the finding below, not the code as written: a missing profile always gets the no-info sentence, which the fallback at 291-292 was written for; a profile with its projects is described; a missing project list with a profile gets no answer, as in the code |
| SlashCommands.SeeBetsCorrectionConservative | SmallBot/Services/SlashCommandHandlingService.cs:258-312 | the corrected command answers as the code does wherever the code answers, and answers every missing profile |
| SlashCommands.SeeBetsReadsBack | SmallBot/Services/SlashCommandHandlingService.cs:276-284 | read line by line, the description is the count line and then one "Name: URL" line per project in list order |
| SlashCommands.Kept | SmallBot/Services/SlashCommandHandlingService.cs:336-339 | the listed results are the first ten, in order, or all of them when there are fewer |
| SlashCommands.EntryLines | SmallBot/Services/SlashCommandHandlingService.cs:342-356 | a result block starts with the "First Last: with N projects." line; the LinkedIn line is second exactly when it is set; the Twitter line comes next exactly when it is set; the block ends with the directory-profile line and a blank line, so it has three to five lines |
| SlashCommands.SearchLines | SmallBot/Services/SlashCommandHandlingService.cs:342-358 | the listing has at least three lines per result and is empty exactly when there are no results |
| SlashCommands.SearchAnswer | SmallBot/Services/SlashCommandHandlingService.cs:317-402 | the title counts the listed results after the cut to ten; the suggestion to search again is the description exactly when there are no results; no result list gives "I found 0 results."; a failing search gets the apology |
| SlashCommands.SearchKeepsFirstTen | SmallBot/Services/SlashCommandHandlingService.cs:333-366 | read line by line, the description is the blocks of the first ten results in order, and the title counts them |

## Left out

- Discord I/O is reduced to the inbound record and the outbound action. This covers the gateway, `SendMessageAsync`, message references, reply lookup, the guild channel lookup, embeds' colours, links, authors, avatars and timestamps, `WelcomeNewUserAsync` and slash-command registration. The referenced message's author is a field of the record. A reply whose referenced message cannot be fetched counts as a reply to someone else.
- `HasMentionPrefix` is not modelled. Its resulting argument position is a field of the record, `mentionEnd`, which is at most the text's length.
- A channel that is not a text channel has a null name, and reading it throws. In the "taleb mode" and reply routes the read (lines 136 and 188) is inside the `try`: the apology quoting the exception is sent and nothing is stored. In the mention route (line 263, after the bare-mention greeting is decided), the "smallbot" route (line 318) and chatter outside a thread (line 385) it is outside the `try`: the handler fails and sends nothing. None of this is modelled: every message carries a channel name, and the empty name means none.
- A send that Discord refuses is modelled only for a chat reply and for the `/whisper` response and apology. The greeting, the recordings notice, the chat apologies and the answers of the other slash commands are taken to be delivered. Their failure would change nothing in the store.
- The completion service's HTTP and JSON are not modelled. The chat call is an oracle returning a reply, no reply, or an exception's message. The single-shot call returns a text, a refusal reason, or an exception.
- The directory, the project list and the search engine are parameters. The code calls fixed sample-data builders in their place.
- SlashCommands.HandleSlash: answers `/see-bets` with the corrected command. For a missing profile with a project list, the code as written throws and answers nothing (`SlashCommands.SeeBetsAsWritten`); see "## Findings".
- Cache expiry is not modelled: the store is a plain map.
- Concurrent handling of messages is not modelled: messages are handled one at a time, in order.
- The `!` commands themselves and `CommandExecutedAsync` are not modelled. The route hands over the argument position and stops there.
- Ignore-case matching folds ASCII letters only. Every keyword matched is ASCII.
- Strings are sequences of Unicode characters rather than UTF-16 code units.
- `Environment.NewLine` is taken to be "\n".
- Join dates are kept as already-formatted text (`yyyy-MM-dd`). `HttpUtility.HtmlEncode` of the search term only feeds the embed link, which is left out.
- The `/help` answer is its fixed text, with no property stated about it.
- Prompts.DavinciPrefixFixed: shows that the scripted exchange ends the fixed prefix, but not that the prefix contains that exchange exactly once. A proof about a literal of this length exceeds the verifier's budget.
- Prompts.PersonaPrompts: states only that the system prompts differ and that the last seed's opening is shared. The prompt texts are carried over as constants, with no further property about their wording.
- MessageHandler.ConversationIsolation: holds only for user names, discriminators and channel names without `#`. With `#` the code's keys can collide. `MessageHandler.HistoryFor` models the collision of a channel with a conversation.
- MessageHandler.RequestIgnoresOtherConversations: holds only for user names, discriminators and channel names without `#`, for the same reason.
- MessageHandler.ChatLeavesChannels: holds only for a channel whose name has no `#`. A thread may be named like a user's key, for example `ann#0001`. A chat by that user then writes the user's conversation, which is also that thread's history.
- MessageHandler.StepKeepsHistoryValid: holds only for a channel whose name has no `#`. A history stored under `ann#0001` is also ann's conversation: a direct message from ann with a delivered reply grows it past ten entries, and nothing evicts them.
- MessageHandler.RunKeepsHistoryValid: holds only for a channel whose name has no `#`, for the reason given for `MessageHandler.StepKeepsHistoryValid`.

## Findings

| source | as written | input that shows it | evidently intended | confidence | as-written member | corrected member |
|---|---|---|---|---|---|---|
| SmallBot/Services/SlashCommandHandlingService.cs:301-306 | the profile link is built from the profile's id whenever the project list is not null, even when the profile is null | `/see-bets` for a member with no directory profile whose project list comes back empty: the id of a null profile is read, the command throws and no answer is sent (`SlashCommands.SeeBetsMissingProfileUnanswered`) | answer with "I found no info. Maybe they have not yet setup their Small Bets Directory profile." | medium, not executed; the shipped sample data never returns a null profile, so this shows once a real directory lookup is wired in | SlashCommands.SeeBetsAsWritten | SlashCommands.SeeBetsAnswer |
