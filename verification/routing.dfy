/** The routing decision of `MessageReceivedAsync`: every inbound chat
    message is classified into exactly one handling route by a chain of
    tests evaluated in a fixed order, the first that holds deciding. */
module Routing {
  import opened Text
  import opened Models

  /** The reply reference of a message: none, or a reply to a message that
      was (or was not) written by this bot. A referenced message that cannot
      be fetched counts as not written by the bot. */
  datatype Reference = NotAReply | ReplyTo(toSelf: bool)

  /** What the routing sees of an inbound message. `mentionEnd` is where
      `HasMentionPrefix` leaves the argument position when the message
      starts with a mention of this bot followed by a space; it is `None`
      when the message does not start that way. */
  datatype Inbound = Inbound(
    fromUser: bool,
    fromBot: bool,
    username: string,
    discriminator: string,
    isDirect: bool,
    channelName: string,
    content: string,
    reference: Reference,
    mentionEnd: Option<nat>)

  /** A mention prefix ends inside the message text. */
  predicate WellFormed(m: Inbound) {
    m.mentionEnd.Some? ==> m.mentionEnd.value <= |m.content|
  }

  /** The bot's own mention token, matched anywhere in the text. */
  const SelfMention: string := "<@1084897384045223936>"

  /** The handling routes. */
  datatype Route =
    | Ignore               // a system message, or one written by a bot
    | DirectChat           // a direct message: default persona, no channel history
    | RecordingsInfo       // a question about recordings: fixed informational reply
    | TalebChat            // "taleb mode": the Taleb persona with channel history
    | ReplyChat            // a reply to the bot: default persona with channel history
    | ReplyElsewhere       // a reply to anyone else: nothing happens
    | Command(argPos: nat) // a '!' command, handed to the text-command service
    | Mentioned            // a mention: a greeting, or the default persona with channel history
    | NameChat             // the bot's name in the text: default persona with channel history
    | ChannelChatter       // anything else: recorded in the channel history

  predicate AsksAboutRecordings(s: string) {
    (ContainsIgnoreCase(s, "recording") || ContainsIgnoreCase(s, "recordings"))
    && ContainsIgnoreCase(s, "?")
  }

  /** "recordings" contains "recording", so the second keyword of the
      recordings test never changes its outcome. */
  lemma RecordingsKeywordRedundant(s: string)
    ensures AsksAboutRecordings(s) <==> ContainsIgnoreCase(s, "recording") && ContainsIgnoreCase(s, "?")
  {
    if ContainsIgnoreCase(s, "recordings") {
      assert "recordings" == "recording" + "s";
      ContainsIgnoreCasePrefix(s, "recording", "s");
    }
  }

  /** `HasCharPrefix('!')`. */
  predicate HasCommandPrefix(s: string) {
    |s| > 0 && s[0] == '!'
  }

  predicate MentionsBot(m: Inbound) {
    m.mentionEnd.Some? || ContainsIgnoreCase(m.content, SelfMention)
  }

  /** The user turn of the mention route: the text after the mention
      prefix (after nothing when the bot is only mentioned further in),
      trimmed, and emptied when it is the bare mention token. The code's
      attempt to strip further mention tokens discards its result, so a
      token elsewhere in the text stays. */
  function MentionText(m: Inbound): (t: string)
    requires WellFormed(m)
    ensures t == "" || t != SelfMention
    ensures var rest := Trim(m.content[ArgPos(m)..]);
      && (t == "" <==> rest == "" || rest == SelfMention)
      && (t != "" ==> t == rest)
  {
    var rest := Trim(m.content[ArgPos(m)..]);
    if rest == SelfMention then "" else rest
  }

  /** Where the text after the mention starts: after the mention prefix,
      or at the start when the bot is only mentioned further in. */
  function ArgPos(m: Inbound): (k: nat)
    requires WellFormed(m)
    ensures k <= |m.content|
  {
    if m.mentionEnd.Some? then m.mentionEnd.value else 0
  }

  /** A non-empty mention turn is a piece of the message text after the
      mention prefix, with no white space left at either end, so trimming
      it again changes nothing. */
  lemma MentionTextShape(m: Inbound)
    requires WellFormed(m)
    ensures var t := MentionText(m);
      && Trim(t) == t
      && (t != "" ==> Contains(m.content[ArgPos(m)..], t))
  {
    var s := m.content[ArgPos(m)..];
    TrimIdempotent(s);
    TrimContained(s);
    assert Trim("") == "";
  }

  /** The tests of the routing chain, one per branch. */
  datatype Trigger = NotFromPerson | Direct | Recordings | TalebMode | IsReply | CommandPrefix | Mention | BotNamed

  /** The order the chain evaluates the tests in. */
  const ChainOrder: seq<Trigger> :=
    [NotFromPerson, Direct, Recordings, TalebMode, IsReply, CommandPrefix, Mention, BotNamed]

  predicate Fires(t: Trigger, m: Inbound) {
    match t
    case NotFromPerson => !m.fromUser || m.fromBot
    case Direct => m.isDirect
    case Recordings => AsksAboutRecordings(m.content)
    case TalebMode => ContainsIgnoreCase(m.content, "taleb mode")
    case IsReply => m.reference.ReplyTo?
    case CommandPrefix => HasCommandPrefix(m.content)
    case Mention => MentionsBot(m)
    case BotNamed => ContainsIgnoreCase(m.content, "smallbot")
  }

  /** The first test of `ts` that holds of `m`, if any. */
  function FirstFiring(ts: seq<Trigger>, m: Inbound): (r: Option<Trigger>)
    ensures r.None? <==> forall i :: 0 <= i < |ts| ==> !Fires(ts[i], m)
    ensures r.Some? ==> r.value in ts && Fires(r.value, m)
  {
    if |ts| == 0 then None
    else if Fires(ts[0], m) then Some(ts[0])
    else FirstFiring(ts[1..], m)
  }

  /** The first firing test of the chain, written out test by test. */
  lemma ChainUnfolded(m: Inbound)
    ensures FirstFiring(ChainOrder, m) ==
      if Fires(NotFromPerson, m) then Some(NotFromPerson)
      else if Fires(Direct, m) then Some(Direct)
      else if Fires(Recordings, m) then Some(Recordings)
      else if Fires(TalebMode, m) then Some(TalebMode)
      else if Fires(IsReply, m) then Some(IsReply)
      else if Fires(CommandPrefix, m) then Some(CommandPrefix)
      else if Fires(Mention, m) then Some(Mention)
      else if Fires(BotNamed, m) then Some(BotNamed)
      else None
  {
    var t7 := [BotNamed];
    var t6 := [Mention] + t7;
    var t5 := [CommandPrefix] + t6;
    var t4 := [IsReply] + t5;
    var t3 := [TalebMode] + t4;
    var t2 := [Recordings] + t3;
    var t1 := [Direct] + t2;
    assert ChainOrder == [NotFromPerson] + t1;
    FirstFiringCons(NotFromPerson, t1, m);
    FirstFiringCons(Direct, t2, m);
    FirstFiringCons(Recordings, t3, m);
    FirstFiringCons(TalebMode, t4, m);
    FirstFiringCons(IsReply, t5, m);
    FirstFiringCons(CommandPrefix, t6, m);
    FirstFiringCons(Mention, t7, m);
    FirstFiringCons(BotNamed, [], m);
    assert t7 == [BotNamed] + [];
  }

  lemma FirstFiringCons(t: Trigger, rest: seq<Trigger>, m: Inbound)
    ensures FirstFiring([t] + rest, m) == if Fires(t, m) then Some(t) else FirstFiring(rest, m)
  {
    assert ([t] + rest)[1..] == rest;
  }

  /** The test a route is reached through. */
  function TriggerOf(r: Route): Option<Trigger> {
    match r
    case Ignore => Some(NotFromPerson)
    case DirectChat => Some(Direct)
    case RecordingsInfo => Some(Recordings)
    case TalebChat => Some(TalebMode)
    case ReplyChat => Some(IsReply)
    case ReplyElsewhere => Some(IsReply)
    case Command(_) => Some(CommandPrefix)
    case Mentioned => Some(Mention)
    case NameChat => Some(BotNamed)
    case ChannelChatter => None
  }

  /** `MessageReceivedAsync`'s `if / else if` chain. The route is reached
      through the first test in chain order that holds, and is channel
      chatter exactly when none holds; within the reply branch the route
      is decided by the referenced author. */
  function Classify(m: Inbound): (r: Route)
    ensures r.ChannelChatter? <==> TriggerOf(r).None?
    ensures TriggerOf(r).Some? ==> Fires(TriggerOf(r).value, m)
    ensures r == ReplyChat <==> TriggerOf(r) == Some(IsReply) && m.reference.toSelf
    ensures r.Command? ==> r.argPos == 1
  {
    if Fires(NotFromPerson, m) then Ignore
    else if Fires(Direct, m) then DirectChat
    else if Fires(Recordings, m) then RecordingsInfo
    else if Fires(TalebMode, m) then TalebChat
    else if Fires(IsReply, m) then (if m.reference.toSelf then ReplyChat else ReplyElsewhere)
    else if Fires(CommandPrefix, m) then Command(1)
    else if Fires(Mention, m) then Mentioned
    else if Fires(BotNamed, m) then NameChat
    else ChannelChatter
  }

  /** The routing chain is a first-match table: the route is reached
      through the first test in chain order that holds, and is channel
      chatter exactly when none holds. */
  lemma ClassifyFirstMatch(m: Inbound)
    ensures TriggerOf(Classify(m)) == FirstFiring(ChainOrder, m)
    ensures Classify(m) == ChannelChatter <==> forall i :: 0 <= i < |ChainOrder| ==> !Fires(ChainOrder[i], m)
  {
    ClassifyTrigger(m);
  }

  lemma ClassifyTrigger(m: Inbound)
    ensures TriggerOf(Classify(m)) == FirstFiring(ChainOrder, m)
  {
    ChainUnfolded(m);
  }

  /** The routes that may call the chat-completion service. */
  predicate IsChatRoute(r: Route) {
    r.DirectChat? || r.TalebChat? || r.ReplyChat? || r.Mentioned? || r.NameChat?
  }

  /** The mention route hands the model the text after the mention
      prefix with any further mention token still inside it: the token is
      not stripped. */
  lemma MentionTokenKept(m: Inbound, before: string, after: string)
    requires WellFormed(m) && m.mentionEnd.Some?
    requires m.content[m.mentionEnd.value..] == before + SelfMention + after
    requires |before| > 0 && !IsWhiteSpace(before[0])
    requires |after| > 0 && !IsWhiteSpace(after[|after| - 1])
    ensures Contains(MentionText(m), SelfMention)
    ensures MentionText(m) == before + SelfMention + after
  {
    var t := before + SelfMention + after;
    assert t[0] == before[0] && t[|t| - 1] == after[|after| - 1];
    TrimUntrimmed(t);
    assert |t| > |SelfMention|;
    assert StartsWith(t[|before|..], SelfMention) by {
      assert t[|before|..][..|SelfMention|] == SelfMention;
    }
  }
}
