/** One inbound message handled end to end: the route chosen, the context
    store after the message, what the bot sends back, and the request it
    makes of the chat-completion service. Discord, the completion service,
    the directory and the recordings-channel lookup are parameters. */
module MessageHandler {
  import opened Text
  import opened Models
  import opened Prompts
  import opened Directory
  import opened ContextStore
  import opened Routing

  /** Whether Discord accepts a reply: it refuses some texts (an empty one,
      one over its length limit), and the send then raises an exception
      with the given message. */
  datatype Delivery = Delivered | Refused(reason: string)

  /** The outside world as the handler sees it: the directory lookup by
      `username#discriminator`, the chat-completion call, Discord's verdict
      on a reply text, and the mention of the recordings channel (absent
      when the guild has no such channel). */
  datatype Services = Services(
    directory: string -> Lookup,
    complete: seq<Message> -> Completion,
    deliver: string -> Delivery,
    recordingsMention: Option<string>)

  /** What the handler does towards Discord: nothing, send one reply to the
      message, or hand the message to the `!` command service with the
      argument position after the prefix. */
  datatype Outbound = Silent | Send(text: string) | RunTextCommand(argPos: nat)

  /** The result of handling one message: the new store, the outbound
      action, and the request sent to the completion service, if any. */
  datatype Effect = Effect(store: Store, out: Outbound, request: Option<seq<Message>>)

  /** One completion exchange: the request, the answer, the store after. */
  datatype Exchange = Exchange(request: seq<Message>, answer: Completion, store: Store)

  /** The conversation a chat continues: the stored one, or the seed. */
  function Prior(store: Store, key: string, seed: seq<Message>): seq<Message> {
    if key in store then store[key] else seed
  }

  /** The channel history appended to a request. It is read before the
      conversation is opened; when the channel's name is the conversation's
      own key the two are one list, so the history then already holds the
      new user turn. */
  function HistoryFor(store: Store, key: string, channelName: Option<string>, conv: seq<Message>): seq<Message> {
    match channelName
    case None => []
    case Some(name) =>
      if name == "" then []
      else if name == key && key in store then conv
      else ReadHistory(store, name)
  }

  /** The completion answered and Discord accepted the reply. */
  predicate Delivers(answer: Completion, deliver: string -> Delivery) {
    answer.Reply? && deliver(answer.message.content).Delivered?
  }

  /** One chat turn against the conversation under `key`: open it, append
      the user turn (which stays stored whatever happens next), send the
      conversation followed by the channel history, and append the reply
      to the conversation only if there is one and Discord accepted it:
      the reply is sent before it is committed. */
  function Converse(store: Store, key: string, seed: seq<Message>, turn: string,
                    channelName: Option<string>, complete: seq<Message> -> Completion,
                    deliver: string -> Delivery): (x: Exchange)
    ensures key in x.store && x.store.Keys == store.Keys + {key}
    ensures forall k :: k in store && k != key ==> x.store[k] == store[k]
    ensures var prior := Prior(store, key, seed);
      && |x.request| > |prior|
      && x.request[..|prior| + 1] == prior + [UserMessage(turn)]
      && x.answer == complete(x.request)
      && (Delivers(x.answer, deliver) ==> x.store[key] == prior + [UserMessage(turn), x.answer.message])
      && (!Delivers(x.answer, deliver) ==> x.store[key] == prior + [UserMessage(turn)])
    ensures channelName.None? ==> x.request == Prior(store, key, seed) + [UserMessage(turn)]
  {
    var o := Open(store, key, seed);
    var conv := o.conversation + [UserMessage(turn)];
    var request := conv + HistoryFor(store, key, channelName, conv);
    assert request[..|conv|] == conv;
    var answer := complete(request);
    if Delivers(answer, deliver) then Exchange(request, answer, o.store[key := conv + [answer.message]])
    else Exchange(request, answer, o.store[key := conv])
  }

  /** What a request carries after the user turn: nothing in a direct
      message or from a channel without a name; the channel's history
      (empty if it has none) when the channel is a different key; and, when the
      channel's name is the conversation's own stored key, the conversation
      a second time. */
  lemma RequestLayout(store: Store, key: string, seed: seq<Message>, turn: string,
                      name: string, complete: seq<Message> -> Completion, deliver: string -> Delivery)
    ensures var x := Converse(store, key, seed, turn, Some(name), complete, deliver);
      var conv := Prior(store, key, seed) + [UserMessage(turn)];
      && (name == "" ==> x.request == conv)
      && (name != "" && name != key ==> x.request == conv + ReadHistory(store, name))
      && (name != "" && name == key && key in store ==> x.request == conv + conv)
      && (name == key && key !in store ==> x.request == conv)
  {
  }

  const DirectApologyTail: string :=
    ", sorry about this but I seem to be having some issues but my internal commands should still work inside the SmallBets Discord."

  const ChannelApologyMiddle: string :=
    ", I seem to be having some issues but my internal commands should still work. \nChecking my working memory I see "

  /** The message of the exception a failed completion raises. */
  function FailureReason(c: Completion): string {
    match c
    case Fault(reason) => reason
    case _ => "an OpenAi issue"
  }

  /** The message of the exception that ends a chat without a committed
      reply: the refused send's, or the failed completion's. */
  function ExceptionMessage(answer: Completion, deliver: string -> Delivery): string
    requires !Delivers(answer, deliver)
  {
    if answer.Reply? then deliver(answer.message.content).reason else FailureReason(answer)
  }

  /** The reply to a failed chat: a fixed apology in a direct message, one
      quoting the exception's message elsewhere. */
  function Apology(direct: bool, username: string, reason: string): string {
    if direct then "Hey " + username + DirectApologyTail
    else "Hey " + username + ChannelApologyMiddle + reason
  }

  function Greeting(username: string): string {
    "Hello " + username + "! You need me?"
  }

  const RecordingsLead: string := ", I noticed you mentioned recording(s). \nOur recordings are usually posted in our "

  const RecordingsTail: string :=
    " channel within 24 hours of the event and Cohort recordings are sent by email. "
    + "\nAnd they are also posted on our home site: https://home.smallbets.co/home/recordings "
    + "\nThe latest recording up there on our Home site is: Enough GPT to be Dangerous."

  function RecordingsNotice(username: string, channelMention: string): string {
    "Hey " + username + RecordingsLead + channelMention + RecordingsTail
  }

  /** The seed blurb for the message's author. */
  function InfoFor(svc: Services, m: Inbound): string {
    InfoOnUser(svc.directory(UserKey(m.username, m.discriminator)))
  }

  /** A chat route's whole effect: the exchange under the persona's key,
      then the reply or the apology. The seed quotes the full message text
      even when the user turn is the text after a mention. */
  function ChatEffect(store: Store, m: Inbound, svc: Services, p: Persona, turn: string, channelName: Option<string>): Effect {
    var key := PersonaKey(p, m.username, m.discriminator);
    var x := Converse(store, key, Seed(p, m.username, InfoFor(svc, m), m.content), turn, channelName, svc.complete, svc.deliver);
    var text := if Delivers(x.answer, svc.deliver) then x.answer.message.content
                else Apology(channelName.None?, m.username, ExceptionMessage(x.answer, svc.deliver));
    Effect(x.store, Send(text), Some(x.request))
  }

  /** Whether the message reaches the completion service. */
  predicate Chats(m: Inbound)
    requires WellFormed(m)
  {
    IsChatRoute(Classify(m)) && (Classify(m).Mentioned? ==> MentionText(m) != "")
  }

  function ChatPersona(m: Inbound): Persona {
    if Classify(m).TalebChat? then Taleb else Default
  }

  /** The user turn a chat appends: the text after the mention for the
      mention route, the whole message otherwise. */
  function TurnOf(m: Inbound): string
    requires WellFormed(m)
  {
    if Classify(m).Mentioned? then MentionText(m) else m.content
  }

  /** The one store key handling `m` may write: the author's conversation
      with the chosen persona for a chat, the channel's name for chatter in
      a named channel, none otherwise. */
  function RouteKey(m: Inbound): Option<string>
    requires WellFormed(m)
  {
    if Chats(m) then Some(PersonaKey(ChatPersona(m), m.username, m.discriminator))
    else if Classify(m).ChannelChatter? && m.channelName != "" then Some(m.channelName)
    else None
  }

  function ChatterEffect(store: Store, m: Inbound): Effect {
    if m.channelName == "" then Effect(store, Silent, None)
    else Effect(AppendChatter(store, m.channelName, Chatter(m.username, m.content)), Silent, None)
  }

  function MentionEffect(store: Store, m: Inbound, svc: Services): Effect
    requires WellFormed(m)
  {
    var t := MentionText(m);
    if t == "" then Effect(store, Send(Greeting(m.username)), None)
    else ChatEffect(store, m, svc, Default, t, Some(m.channelName))
  }

  /** `MessageReceivedAsync`. A request is made exactly when the message
      chats; the store changes at most at the route's key, and not at all
      when the route has none. */
  function Step(store: Store, m: Inbound, svc: Services): (e: Effect)
    requires WellFormed(m)
    ensures e.request.Some? <==> Chats(m)
    ensures forall k :: k in store && Some(k) != RouteKey(m) ==> k in e.store && e.store[k] == store[k]
    ensures forall k :: k in e.store ==> k in store || Some(k) == RouteKey(m)
    ensures RouteKey(m).None? ==> e.store == store
  {
    match Classify(m)
    case Ignore => Effect(store, Silent, None)
    case DirectChat => ChatEffect(store, m, svc, Default, m.content, None)
    case RecordingsInfo =>
      (match svc.recordingsMention
       case None => Effect(store, Silent, None)
       case Some(c) => Effect(store, Send(RecordingsNotice(m.username, c)), None))
    case TalebChat => ChatEffect(store, m, svc, Taleb, m.content, Some(m.channelName))
    case ReplyChat => ChatEffect(store, m, svc, Default, m.content, Some(m.channelName))
    case ReplyElsewhere => Effect(store, Silent, None)
    case Command(argPos) => Effect(store, RunTextCommand(argPos), None)
    case Mentioned => MentionEffect(store, m, svc)
    case NameChat => ChatEffect(store, m, svc, Default, m.content, Some(m.channelName))
    case ChannelChatter => ChatterEffect(store, m)
  }

  /** The seed a chat would start from. */
  function SeedFor(m: Inbound, svc: Services): seq<Message> {
    Seed(ChatPersona(m), m.username, InfoFor(svc, m), m.content)
  }

  /** A chat sends the conversation so far and the user turn, then the
      channel history. When the completion answers and Discord accepts the
      reply, the reply is sent and committed after the turn; otherwise the
      turn alone stays committed and the apology is sent, quoting outside
      direct messages the refused send's or the failed completion's
      exception. */
  lemma ChatOutcome(store: Store, m: Inbound, svc: Services)
    requires WellFormed(m) && Chats(m)
    ensures var key := PersonaKey(ChatPersona(m), m.username, m.discriminator);
      var prior := Prior(store, key, SeedFor(m, svc));
      var e := Step(store, m, svc);
      && e.request.Some? && |e.request.value| > |prior|
      && e.request.value[..|prior| + 1] == prior + [UserMessage(TurnOf(m))]
      && key in e.store
      && (var answer := svc.complete(e.request.value);
          && (answer.Reply? && svc.deliver(answer.message.content).Delivered? ==>
                e.store[key] == prior + [UserMessage(TurnOf(m)), answer.message]
                && e.out == Send(answer.message.content))
          && (answer.Reply? && svc.deliver(answer.message.content).Refused? ==>
                e.store[key] == prior + [UserMessage(TurnOf(m))]
                && e.out == Send(Apology(Classify(m).DirectChat?, m.username, svc.deliver(answer.message.content).reason)))
          && (!answer.Reply? ==>
                e.store[key] == prior + [UserMessage(TurnOf(m))]
                && e.out == Send(Apology(Classify(m).DirectChat?, m.username, FailureReason(answer)))))
  {
    var r := Classify(m);
    var p := ChatPersona(m);
    var channelName := if r.DirectChat? then None else Some(m.channelName);
    assert Step(store, m, svc) == ChatEffect(store, m, svc, p, TurnOf(m), channelName);
    ChatEffectOutcome(store, m, svc, p, TurnOf(m), channelName);
  }

  lemma ChatEffectOutcome(store: Store, m: Inbound, svc: Services, p: Persona, turn: string, channelName: Option<string>)
    ensures var key := PersonaKey(p, m.username, m.discriminator);
      var prior := Prior(store, key, Seed(p, m.username, InfoFor(svc, m), m.content));
      var e := ChatEffect(store, m, svc, p, turn, channelName);
      && e.request.Some? && |e.request.value| > |prior|
      && e.request.value[..|prior| + 1] == prior + [UserMessage(turn)]
      && key in e.store
      && (var answer := svc.complete(e.request.value);
          && (answer.Reply? && svc.deliver(answer.message.content).Delivered? ==>
                e.store[key] == prior + [UserMessage(turn), answer.message]
                && e.out == Send(answer.message.content))
          && (answer.Reply? && svc.deliver(answer.message.content).Refused? ==>
                e.store[key] == prior + [UserMessage(turn)]
                && e.out == Send(Apology(channelName.None?, m.username, svc.deliver(answer.message.content).reason)))
          && (!answer.Reply? ==>
                e.store[key] == prior + [UserMessage(turn)]
                && e.out == Send(Apology(channelName.None?, m.username, FailureReason(answer)))))
  {
  }

  /** A direct message is sent with its conversation only, never with any
      channel history. */
  lemma DirectMessageHasNoHistory(store: Store, m: Inbound, svc: Services)
    requires WellFormed(m) && Classify(m) == DirectChat
    ensures Step(store, m, svc).request
      == Some(Prior(store, UserKey(m.username, m.discriminator), SeedFor(m, svc)) + [UserMessage(m.content)])
  {
  }

  /** The first direct message of a user sends the five seed messages and
      the message itself, and leaves seven messages stored when the reply
      is delivered, six when it is not. */
  lemma FirstDirectMessage(store: Store, m: Inbound, svc: Services)
    requires WellFormed(m) && Classify(m) == DirectChat
    requires UserKey(m.username, m.discriminator) !in store
    ensures var e := Step(store, m, svc);
      var key := UserKey(m.username, m.discriminator);
      && e.request.Some? && |e.request.value| == 6
      && e.request.value[..5] == Seed(Default, m.username, InfoFor(svc, m), m.content)
      && e.request.value[5] == UserMessage(m.content)
      && key in e.store
      && (Delivers(svc.complete(e.request.value), svc.deliver) ==> |e.store[key]| == 7)
      && (!Delivers(svc.complete(e.request.value), svc.deliver) ==> |e.store[key]| == 6)
  {
    DirectMessageHasNoHistory(store, m, svc);
  }

  /** Persona and user isolation: handling a message never changes any
      conversation other than the one its author chats with under the
      chosen persona, as long as user names, discriminators and channel
      names carry no '#'. */
  lemma ConversationIsolation(store: Store, m: Inbound, svc: Services, p: Persona, u: string, d: string)
    requires WellFormed(m)
    requires NoHash(u) && NoHash(d) && NoHash(m.username) && NoHash(m.discriminator) && NoHash(m.channelName)
    requires PersonaKey(p, u, d) in store
    requires !(Chats(m) && ChatPersona(m) == p && m.username == u && m.discriminator == d)
    ensures PersonaKey(p, u, d) in Step(store, m, svc).store
    ensures Step(store, m, svc).store[PersonaKey(p, u, d)] == store[PersonaKey(p, u, d)]
  {
    var k := PersonaKey(p, u, d);
    if Chats(m) {
      if PersonaKey(ChatPersona(m), m.username, m.discriminator) == k {
        PersonaKeysInjective(ChatPersona(m), m.username, m.discriminator, p, u, d);
      }
    } else {
      ChannelKeyIsNotPersonaKey(m.channelName, p, u, d);
    }
  }

  /** Two stores hold the same thing under `k`, or nothing under it. */
  predicate AgreeOn(s1: Store, s2: Store, k: string) {
    (k in s1 <==> k in s2) && (k in s1 ==> s1[k] == s2[k])
  }

  /** A chat reads only its own conversation and its channel's history:
      two stores that agree on the route's key and on the channel's name
      send the same request. */
  lemma RequestReadsOwnKeys(s1: Store, s2: Store, m: Inbound, svc: Services)
    requires WellFormed(m) && Chats(m)
    requires AgreeOn(s1, s2, PersonaKey(ChatPersona(m), m.username, m.discriminator))
    requires AgreeOn(s1, s2, m.channelName)
    ensures Step(s1, m, svc).request == Step(s2, m, svc).request
  {
    var channelName := if Classify(m).DirectChat? then None else Some(m.channelName);
    assert Step(s1, m, svc) == ChatEffect(s1, m, svc, ChatPersona(m), TurnOf(m), channelName);
    assert Step(s2, m, svc) == ChatEffect(s2, m, svc, ChatPersona(m), TurnOf(m), channelName);
    ChatRequestReadsOwnKeys(s1, s2, m, svc, ChatPersona(m), TurnOf(m), channelName);
  }

  lemma ChatRequestReadsOwnKeys(s1: Store, s2: Store, m: Inbound, svc: Services, p: Persona, turn: string, channelName: Option<string>)
    requires AgreeOn(s1, s2, PersonaKey(p, m.username, m.discriminator))
    requires channelName.Some? ==> AgreeOn(s1, s2, channelName.value)
    ensures ChatEffect(s1, m, svc, p, turn, channelName).request == ChatEffect(s2, m, svc, p, turn, channelName).request
  {
  }

  /** Persona and user isolation on the read side: what a chat sends to
      the completion service does not depend on any other member's
      conversation or on its author's conversation with the other persona,
      as long as user names, discriminators and channel names carry no '#'. */
  lemma RequestIgnoresOtherConversations(store: Store, m: Inbound, svc: Services,
                                         p: Persona, u: string, d: string, conv: seq<Message>)
    requires WellFormed(m) && Chats(m)
    requires NoHash(u) && NoHash(d) && NoHash(m.username) && NoHash(m.discriminator) && NoHash(m.channelName)
    requires !(ChatPersona(m) == p && m.username == u && m.discriminator == d)
    ensures Step(store[PersonaKey(p, u, d) := conv], m, svc).request == Step(store, m, svc).request
  {
    var k := PersonaKey(p, u, d);
    if PersonaKey(ChatPersona(m), m.username, m.discriminator) == k {
      PersonaKeysInjective(ChatPersona(m), m.username, m.discriminator, p, u, d);
    }
    ChannelKeyIsNotPersonaKey(m.channelName, p, u, d);
    RequestReadsOwnKeys(store[k := conv], store, m, svc);
  }

  /** Messages from bots or the system, and replies to anyone but the bot,
      end the chain: nothing is sent, requested or recorded. */
  lemma InertRoutes(store: Store, m: Inbound, svc: Services)
    requires WellFormed(m) && (Classify(m) == Ignore || Classify(m) == ReplyElsewhere)
    ensures Step(store, m, svc) == Effect(store, Silent, None)
  {
  }

  /** A mention with nothing after it (or only the mention token) is
      greeted without a completion call and without touching the store. */
  lemma BareMentionGreeted(store: Store, m: Inbound, svc: Services)
    requires WellFormed(m) && Classify(m) == Mentioned && MentionText(m) == ""
    ensures Step(store, m, svc) == Effect(store, Send(Greeting(m.username)), None)
    ensures !Chats(m)
  {
  }

  /** Reading a channel's history for a chat never changes it: a chat
      writes only its user conversation, which no channel name without
      '#' can be. */
  lemma ChatLeavesChannels(store: Store, m: Inbound, svc: Services, name: string)
    requires WellFormed(m) && Chats(m) && NoHash(name) && name in store
    ensures name in Step(store, m, svc).store
    ensures Step(store, m, svc).store[name] == store[name]
  {
    ChannelKeyIsNotPersonaKey(name, ChatPersona(m), m.username, m.discriminator);
  }

  /** Channel chatter in a named channel or thread is recorded in that
      channel's history, silently; together with `HistoryWindow` this gives
      the sliding window of recent chatter. */
  lemma ChatterRecorded(store: Store, m: Inbound, svc: Services)
    requires WellFormed(m) && Classify(m) == ChannelChatter && m.channelName != ""
    ensures var e := Step(store, m, svc);
      && e.out == Silent && e.request.None?
      && e.store == AppendChatter(store, m.channelName, Chatter(m.username, m.content))
  {
  }

  /** The shape every channel history keeps: the channel's header first and
      at most ten entries in all. */
  predicate ValidHistory(store: Store, name: string) {
    name in store ==> 1 <= |store[name]| <= MaxHistory && store[name][0] == SystemMessage(ChannelHeader(name))
  }

  /** Handling any message keeps every channel history valid: chats only
      write user conversations, and chatter appends within the cap. */
  lemma StepKeepsHistoryValid(store: Store, m: Inbound, svc: Services, name: string)
    requires WellFormed(m) && NoHash(name) && ValidHistory(store, name)
    ensures ValidHistory(Step(store, m, svc).store, name)
  {
    if Chats(m) {
      ChannelKeyIsNotPersonaKey(name, ChatPersona(m), m.username, m.discriminator);
    }
  }

  predicate AllWellFormed(ms: seq<Inbound>) {
    forall i :: 0 <= i < |ms| ==> WellFormed(ms[i])
  }

  /** The store after handling messages in arrival order. */
  function Run(store: Store, ms: seq<Inbound>, svc: Services): Store
    requires AllWellFormed(ms)
    decreases |ms|
  {
    if |ms| == 0 then store else Run(Step(store, ms[0], svc).store, ms[1..], svc)
  }

  /** Channel histories stay valid over any run of messages. */
  lemma {:induction false} RunKeepsHistoryValid(store: Store, ms: seq<Inbound>, svc: Services, name: string)
    requires AllWellFormed(ms) && NoHash(name) && ValidHistory(store, name)
    ensures ValidHistory(Run(store, ms, svc), name)
    decreases |ms|
  {
    if |ms| > 0 {
      StepKeepsHistoryValid(store, ms[0], svc, name);
      RunKeepsHistoryValid(Step(store, ms[0], svc).store, ms[1..], svc, name);
    }
  }
}
