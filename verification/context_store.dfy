/** The conversational context the bot keeps in its process-wide memory
    cache: per-user conversations for the two personas, seeded once per
    key, and per-channel windows of recent chatter. The cache is a plain
    map from key to message list; expiry is not modelled. */
module ContextStore {
  import opened Text
  import opened Models
  import opened Prompts

  /** The memory cache. Conversations and channel histories share one key
      space, as they do in the cache the bot uses. */
  type Store = map<string, seq<Message>>

  /** `username#discriminator`, the key of a user's default conversation. */
  function UserKey(username: string, discriminator: string): string {
    username + "#" + discriminator
  }

  /** The key of a user's conversation with the given persona. */
  function PersonaKey(p: Persona, username: string, discriminator: string): string {
    match p
    case Default => UserKey(username, discriminator)
    case Taleb => UserKey(username, discriminator) + "#taleb"
  }

  predicate NoHash(s: string) {
    forall k :: 0 <= k < |s| ==> s[k] != '#'
  }

  lemma FirstHashOfUserKey(username: string, discriminator: string, rest: string)
    requires NoHash(username)
    ensures IndexOfChar(UserKey(username, discriminator) + rest, '#') == |username|
  {
    var s := UserKey(username, discriminator) + rest;
    assert s[|username|] == '#';
    assert forall k :: 0 <= k < |username| ==> s[k] == username[k];
  }

  /** Persona isolation at the level of keys: for user names and
      discriminators without '#', different (persona, user) pairs never
      share a cache entry. In particular a user's two personas never do. */
  lemma PersonaKeysInjective(p1: Persona, u1: string, d1: string, p2: Persona, u2: string, d2: string)
    requires NoHash(u1) && NoHash(d1) && NoHash(u2) && NoHash(d2)
    requires PersonaKey(p1, u1, d1) == PersonaKey(p2, u2, d2)
    ensures p1 == p2 && u1 == u2 && d1 == d2
  {
    var k := PersonaKey(p1, u1, d1);
    var s1 := if p1 == Taleb then "#taleb" else "";
    var s2 := if p2 == Taleb then "#taleb" else "";
    assert k == UserKey(u1, d1) + s1;
    assert k == UserKey(u2, d2) + s2;
    FirstHashOfUserKey(u1, d1, s1);
    FirstHashOfUserKey(u2, d2, s2);
    assert u1 == k[..|u1|] == u2;
    var tail := k[|u1| + 1..];
    assert tail == d1 + s1 == d2 + s2;
    if p1 == p2 {
      assert d1 == tail[..|tail| - |s1|] == d2;
    } else if p1 == Taleb {
      assert d2 == d1 + "#taleb";
      SuffixHasHash(d1);
    } else {
      assert d1 == d2 + "#taleb";
      SuffixHasHash(d2);
    }
  }

  lemma SuffixHasHash(d: string)
    ensures !NoHash(d + "#taleb")
  {
    assert (d + "#taleb")[|d|] == '#';
  }

  /** A key containing no '#' (a plain channel name) is never a user's
      conversation key. */
  lemma ChannelKeyIsNotPersonaKey(name: string, p: Persona, username: string, discriminator: string)
    requires NoHash(name)
    ensures name != PersonaKey(p, username, discriminator)
  {
    var k := PersonaKey(p, username, discriminator);
    assert k[|username|] == '#';
  }

  /** The five seed messages of a new conversation: the persona's system
      prompt, its two instruction prompts, the directory blurb, and the
      opening line quoting what the user said. */
  function Seed(p: Persona, username: string, info: string, prompt: string): (s: seq<Message>)
    ensures |s| == 5
    ensures s[0].role == SystemRole && s[0].content == SystemPrompt(p)
    ensures forall i :: 1 <= i < 5 ==> s[i].role == UserRole
    ensures s[3].content == info
    ensures s[4].content == ThirdSeed(p) + username + " here is what they said:" + prompt
  {
    [ SystemMessage(SystemPrompt(p)),
      UserMessage(FirstSeed(p)),
      UserMessage(SecondSeed(p)),
      UserMessage(info),
      UserMessage(ThirdSeed(p) + username + " here is what they said:" + prompt) ]
  }

  /** A conversation handed out by the store, and the store after the
      hand-out. */
  datatype Opened = Opened(conversation: seq<Message>, store: Store)

  /** `GetConversationAsync` / `GetTalebModeConversationAsync`: the stored
      conversation under `key` if there is one, untouched; otherwise the
      seed, which is stored under `key` before it is handed out. */
  function Open(store: Store, key: string, seed: seq<Message>): (r: Opened)
    ensures key in r.store && r.store[key] == r.conversation
    ensures r.store.Keys == store.Keys + {key}
    ensures forall k :: k in store && k != key ==> r.store[k] == store[k]
    ensures key in store ==> r.conversation == store[key] && r.store == store
    ensures key !in store ==> r.conversation == seed
  {
    if key in store then Opened(store[key], store) else Opened(seed, store[key := seed])
  }

  /** A key is seeded at most once: opening it again, with whatever seed,
      hands out the conversation the first opening stored. */
  lemma SeedOnce(store: Store, key: string, seed1: seq<Message>, seed2: seq<Message>)
    ensures var first := Open(store, key, seed1);
      Open(first.store, key, seed2) == Opened(first.conversation, first.store)
  {
  }

  const MaxHistory: nat := 10

  const ChannelHeaderText: string :=
    "In addition, I am providing this for context so you can be more helpful, but these messages were not necessarily directed at you, the AI Assistant SmallBot. And for this conversation you are in the discord channel: "

  function ChannelHeader(channelName: string): string {
    ChannelHeaderText + channelName
  }

  /** One message of channel chatter: who said it and what they said. */
  datatype Chatter = Chatter(author: string, text: string)

  /** The history entry for a chatter message. The message that creates
      the history is worded slightly differently from later ones. */
  const ChatterOpening: string := "This message directed to the channel was by discord user: "

  function ChatterEntry(c: Chatter, first: bool): Message {
    if first then SystemMessage(ChatterOpening + c.author + ". They said: " + c.text)
    else SystemMessage(ChatterOpening + c.author + ". They said to the channel: " + c.text)
  }

  /** The cap applied after an append: a list longer than ten loses its
      entry at index 1, so the header at index 0 survives. */
  function Evict(h: seq<Message>): (r: seq<Message>)
    ensures |h| <= MaxHistory ==> r == h
    ensures |h| > MaxHistory ==> |r| == |h| - 1 && r[0] == h[0] && r[1..] == h[2..]
  {
    if |h| > MaxHistory then h[..1] + h[2..] else h
  }

  /** `SetChannelConversationAsync`: an unknown channel gets a history of
      its header and the entry; a known one gets the entry appended, after
      which the entry at index 1 is evicted if the list is longer than ten.
      Nothing but the channel's own entry changes; a bounded history stays
      bounded, keeps its header and ends with the new entry. */
  function AppendChatter(store: Store, channelName: string, c: Chatter): (r: Store)
    ensures channelName in r && r.Keys == store.Keys + {channelName}
    ensures forall k :: k in store && k != channelName ==> r[k] == store[k]
    ensures channelName !in store ==>
      r[channelName] == [SystemMessage(ChannelHeader(channelName)), ChatterEntry(c, true)]
    ensures channelName in store ==>
      r[channelName] == Evict(store[channelName] + [ChatterEntry(c, false)])
    ensures channelName in store && 1 <= |store[channelName]| <= MaxHistory ==>
      && 1 <= |r[channelName]| <= MaxHistory
      && r[channelName][0] == store[channelName][0]
      && r[channelName][|r[channelName]| - 1] == ChatterEntry(c, false)
  {
    if channelName !in store then
      store[channelName := [SystemMessage(ChannelHeader(channelName)), ChatterEntry(c, true)]]
    else
      store[channelName := Evict(store[channelName] + [ChatterEntry(c, false)])]
  }

  /** `GetChannelConversationAsync`: the channel's history, or nothing for
      an unknown channel. */
  function ReadHistory(store: Store, channelName: string): (h: seq<Message>)
    ensures channelName !in store ==> h == []
    ensures channelName in store ==> h == store[channelName]
  {
    if channelName in store then store[channelName] else []
  }

  /** The entries a run of chatter contributes, the first one worded as the
      creating entry. */
  function Entries(cs: seq<Chatter>): (es: seq<Message>)
    ensures |es| == |cs|
  {
    seq(|cs|, i requires 0 <= i < |cs| => ChatterEntry(cs[i], i == 0))
  }

  /** The store after a run of chatter in one channel, oldest first. */
  function AppendAll(store: Store, channelName: string, cs: seq<Chatter>): Store {
    if |cs| == 0 then store
    else AppendChatter(AppendAll(store, channelName, cs[..|cs| - 1]), channelName, cs[|cs| - 1])
  }

  function WindowStart(n: nat): nat {
    if n > MaxHistory - 1 then n - (MaxHistory - 1) else 0
  }

  /** One step of the window: appending the next entry to the window of
      the first n - 1 entries and evicting gives the window of the first n. */
  lemma WindowStep(hd: Message, es: seq<Message>)
    requires |es| > 1
    ensures Evict([hd] + es[WindowStart(|es| - 1)..|es| - 1] + [es[|es| - 1]])
      == [hd] + es[WindowStart(|es|)..]
  {
    var n := |es|;
    var k := WindowStart(n - 1);
    var h := [hd] + es[k..n - 1] + [es[n - 1]];
    assert h == [hd] + es[k..];
    if |h| > MaxHistory {
      assert h[2..] == es[k + 1..];
    }
  }

  lemma EntriesPrefix(cs: seq<Chatter>)
    requires |cs| > 0
    ensures Entries(cs[..|cs| - 1]) == Entries(cs)[..|cs| - 1]
    ensures Entries(cs)[|cs| - 1] == ChatterEntry(cs[|cs| - 1], |cs| == 1)
  {
  }

  /** The sliding window: after any run of chatter in a channel it had no
      history for, the history is the channel header followed by the
      entries of the nine most recent messages (all of them if fewer), in
      the order they arrived. */
  lemma {:induction false} HistoryWindow(store: Store, channelName: string, cs: seq<Chatter>)
    requires channelName !in store && |cs| > 0
    ensures channelName in AppendAll(store, channelName, cs)
    ensures AppendAll(store, channelName, cs)[channelName]
      == [SystemMessage(ChannelHeader(channelName))] + Entries(cs)[WindowStart(|cs|)..]
  {
    var n := |cs|;
    var hd := SystemMessage(ChannelHeader(channelName));
    var es := Entries(cs);
    EntriesPrefix(cs);
    if n == 1 {
      assert es == [ChatterEntry(cs[0], true)];
    } else {
      var prev := cs[..n - 1];
      HistoryWindow(store, channelName, prev);
      var before := AppendAll(store, channelName, prev);
      var k := WindowStart(n - 1);
      assert before[channelName] == [hd] + es[k..n - 1];
      var after := AppendChatter(before, channelName, cs[n - 1]);
      assert after[channelName] == Evict([hd] + es[k..n - 1] + [es[n - 1]]);
      WindowStep(hd, es);
    }
  }

  /** The bound and the header of the window, for a run of any length. */
  lemma HistoryBounded(store: Store, channelName: string, cs: seq<Chatter>)
    requires channelName !in store && |cs| > 0
    ensures var h := AppendAll(store, channelName, cs)[channelName];
      && |h| == 1 + (if |cs| < MaxHistory then |cs| else MaxHistory - 1)
      && h[0] == SystemMessage(ChannelHeader(channelName))
  {
    HistoryWindow(store, channelName, cs);
  }
}
