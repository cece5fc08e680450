/** The slash commands: dispatch on the command name and the private
    (ephemeral) answers of `/help`, `/whisper`, `/who-is`, `/see-bets` and
    `/search`. The directory, the project list, the search engine and the
    completion call are parameters. Embed colours, links, avatars and
    timestamps are not modelled; an answer is its title and description. */
module SlashCommands {
  import opened Text
  import opened Models
  import opened Prompts
  import opened Directory

  datatype SlashCommand = Help | Whisper | WhoIs | SeeBets | Search

  function CommandName(c: SlashCommand): string {
    match c
    case Help => "help"
    case Whisper => "whisper"
    case WhoIs => "who-is"
    case SeeBets => "see-bets"
    case Search => "search"
  }

  /** `SlashCommandHandler`'s switch on the command name; any other name is
      not handled. */
  function Dispatch(name: string): (r: Option<SlashCommand>)
    ensures r.Some? ==> CommandName(r.value) == name
  {
    if name == "help" then Some(Help)
    else if name == "whisper" then Some(Whisper)
    else if name == "who-is" then Some(WhoIs)
    else if name == "see-bets" then Some(SeeBets)
    else if name == "search" then Some(Search)
    else None
  }

  /** Every command is reached by exactly its own name. */
  lemma DispatchByName(name: string, c: SlashCommand)
    ensures Dispatch(name) == Some(c) <==> CommandName(c) == name
  {
  }

  /** An answer to a slash command, visible only to the caller. */
  datatype Answer = NoAnswer | Plain(text: string) | Embed(title: string, description: string)

  // ----- /help -----

  const HelpLines: seq<string> := [
    "Here are my available commands:",
    "!cat: Grabs a random cat picture from the internet.",
    "!quote: Fetches a random quote from the internet.",
    "!server-info: Displays very basic server-related information.",
    "!ping: pong.",
    "There are also the more powerful slash commands such as: who-is ('/who-is user:') see-bets ('/see-bets user:') and {'/whisper question:') that respond directly to you with info on a user from our Member Directory."
  ]

  function HelpAnswer(): Answer {
    Embed("Help", Lines(HelpLines))
  }

  // ----- /whisper -----

  /** Outcome of the single-shot completion call: the completion text, the
      provider's reason phrase for a non-success status, or an exception. */
  datatype TextCompletion = Completed(text: string) | Refused(reasonPhrase: string) | Raised

  const BrokenText: string :=
    "Forgive me but it appears something is broken on my side and I am unable to respond intelligently right now. \nTry again in a little bit please"

  const RefusalLead: string := "Unfortunetly something appears to be wrong, the error reason I am seeing: "

  /** A whisper: the prompt sent, and the answer. */
  datatype Whispered = Whispered(prompt: string, answer: Answer)

  /** The text the whisper responds with when the completion call returns:
      the completion, or the service's refusal text. */
  function ResponseText(c: TextCompletion): Option<string> {
    match c
    case Completed(t) => Some(t)
    case Refused(reason) => Some(RefusalLead + reason)
    case Raised => None
  }

  /** `/whisper`: the question goes out inside the completion prompt, and
      the completion or the service's refusal text is the response. The
      response is sent inside the `try`, so a response Discord refuses
      (`accepts` is its verdict on a text) falls to the apology like an
      exception does; the apology is sent outside it, so when Discord
      refuses that too the caller gets no answer. */
  function WhisperAnswer(question: string, complete: string -> TextCompletion, accepts: string -> bool): (w: Whispered)
    ensures HumanTurnOf(w.prompt) == Some(question)
    ensures var c := complete(w.prompt);
      && (c.Completed? && accepts(c.text) ==> w.answer == Plain(c.text))
      && (c.Refused? && accepts(RefusalLead + c.reasonPhrase) ==> w.answer == Plain(RefusalLead + c.reasonPhrase))
      && ((c.Raised? || (c.Completed? && !accepts(c.text)) || (c.Refused? && !accepts(RefusalLead + c.reasonPhrase))) ==>
            w.answer == (if accepts(BrokenText) then Plain(BrokenText) else NoAnswer))
    ensures w.answer.Plain? ==> accepts(w.answer.text)
    ensures w.answer.NoAnswer? <==> !accepts(BrokenText) && !(ResponseText(complete(w.prompt)).Some? && accepts(ResponseText(complete(w.prompt)).value))
  {
    var prompt := DavinciPrompt(question);
    DavinciPromptRoundTrip(question, prompt);
    var response := ResponseText(complete(prompt));
    var answer :=
      if response.Some? && accepts(response.value) then Plain(response.value)
      else if accepts(BrokenText) then Plain(BrokenText)
      else NoAnswer;
    Whispered(prompt, answer)
  }

  // ----- /who-is -----

  const WhoIsOrder: seq<Field> := [Name, Twitter, LinkedIn, Location, Projects]

  const WhoIsFallback: string :=
    "I found no info. Maybe they have not yet setup their Community Directory profile."

  const TwitterLink: string := "https://twitter.com/"
  const LinkedInLink: string := "https://www.linkedin.com/in/"

  function WhoIsLine(u: UserInfo, f: Field): string
    requires Present(u, f)
  {
    match f
    case Name => "Name: " + NameOf(u)
    case Twitter => "Twitter: " + TwitterLink + u.twitterUrl
    case LinkedIn => "LinkedIn: " + LinkedInLink + u.linkedInUrl + "/"
    case Location => "Location: " + u.location
    case Projects => "# of Projects: " + IntToString(u.totalNumberOfProjects.value)
    case Joined => ""  // `/who-is` shows no join date: `WhoIsOrder` leaves it out
  }

  function WhoIsLines(u: UserInfo): seq<string> {
    var fs := Select(u, WhoIsOrder);
    seq(|fs|, i requires 0 <= i < |fs| => WhoIsLine(u, fs[i]))
  }

  function WhoIsTitle(username: string): string {
    "Who is " + username + "? Here is what I found:"
  }

  /** `/who-is`: a found profile is described line by line, starting with
      the Name line, so the no-info sentence is only ever the answer for a
      missing profile. */
  function WhoIsAnswer(username: string, profile: Option<UserInfo>): (a: Answer)
    ensures a.Embed? && a.title == WhoIsTitle(username)
    ensures profile.None? ==> a.description == WhoIsFallback
    ensures profile.Some? ==> a.description == Lines(WhoIsLines(profile.value))
    ensures profile.Some? ==> StartsWith(a.description, "Name: " + NameOf(profile.value) + NewLine)
  {
    match profile
    case None => Embed(WhoIsTitle(username), WhoIsFallback)
    case Some(u) =>
      var ls := WhoIsLines(u);
      assert Select(u, WhoIsOrder)[0] == Name;
      assert ls == [ls[0]] + ls[1..];
      LinesAppend([ls[0]], ls[1..]);
      var text := Lines(ls);
      Embed(WhoIsTitle(username), if text == "" then WhoIsFallback else text)
  }

  lemma WhoIsLineNoNewLine(u: UserInfo, f: Field)
    requires FieldsHaveNoNewLine(u) && Present(u, f)
    ensures NoNewLine(WhoIsLine(u, f))
  {
    match f
    case Name => InfoLineNoNewLine(u, Name);
    case Twitter =>
      LabelledNoNewLine(TwitterLink, u.twitterUrl);
      LabelledNoNewLine("Twitter: ", TwitterLink + u.twitterUrl);
      assert WhoIsLine(u, f) == "Twitter: " + (TwitterLink + u.twitterUrl);
    case LinkedIn =>
      LabelledNoNewLine(LinkedInLink, u.linkedInUrl);
      LabelledNoNewLine(LinkedInLink + u.linkedInUrl, "/");
      LabelledNoNewLine("LinkedIn: ", LinkedInLink + u.linkedInUrl + "/");
      assert WhoIsLine(u, f) == "LinkedIn: " + (LinkedInLink + u.linkedInUrl + "/");
    case Location => LabelledNoNewLine("Location: ", u.location);
    case Projects =>
      IntToStringNoNewLine(u.totalNumberOfProjects.value);
      LabelledNoNewLine("# of Projects: ", IntToString(u.totalNumberOfProjects.value));
    case Joined =>
  }

  /** Read line by line, a found profile's description is one line per set
      field in who-is order, the Name line first; an optional line is there
      exactly when its field is set. */
  lemma WhoIsReadsBack(username: string, u: UserInfo)
    requires FieldsHaveNoNewLine(u)
    ensures SplitLines(WhoIsAnswer(username, Some(u)).description) == WhoIsLines(u)
    ensures WhoIsLines(u)[0] == "Name: " + NameOf(u)
    ensures forall f :: f in Select(u, WhoIsOrder) <==> f in WhoIsOrder && Present(u, f)
  {
    var ls := WhoIsLines(u);
    var fs := Select(u, WhoIsOrder);
    assert fs[0] == Name;
    forall i | 0 <= i < |ls|
      ensures NoNewLine(ls[i])
    {
      assert fs[i] in fs;
      WhoIsLineNoNewLine(u, fs[i]);
    }
    SplitLinesOfLines(ls);
  }

  // ----- /see-bets -----

  const SeeBetsFallback: string :=
    "I found no info. Maybe they have not yet setup their Small Bets Directory profile."

  /** Written in two pieces so that each piece is checked for line breaks
      on its own; the text is the one line the profile shows. */
  const NoProjectsLine: string := "No projects listed on their " + "Small Bets directory profile."

  function SeeBetsTitle(username: string): string {
    "See Small Bets for " + username + ". Here is what I found:"
  }

  function ProjectCountLine(u: UserInfo): string {
    match u.totalNumberOfProjects
    case Some(n) => IntToString(n) + " projects."
    case None => NoProjectsLine
  }

  function ProjectLine(p: ProjectInfo): string {
    p.name + ": " + p.url
  }

  /** The count line, then one line per project in list order. */
  function SeeBetsLines(u: UserInfo, projects: seq<ProjectInfo>): (ls: seq<string>)
    ensures |ls| == 1 + |projects|
  {
    [ProjectCountLine(u)] + seq(|projects|, i requires 0 <= i < |projects| => ProjectLine(projects[i]))
  }

  /** `UserProjects` as the code stands. A null project list throws while
      listing the projects, and a missing profile with a project list
      present throws while the profile link is built from the missing
      profile, so neither gets an answer. */
  function SeeBetsAsWritten(username: string, profile: Option<UserInfo>, projects: Option<seq<ProjectInfo>>): (a: Answer)
    ensures profile.Some? && projects.Some? ==>
      a == Embed(SeeBetsTitle(username), Lines(SeeBetsLines(profile.value, projects.value)))
    ensures profile.None? && projects.None? ==> a == Embed(SeeBetsTitle(username), SeeBetsFallback)
    ensures profile.Some? != projects.Some? ==> a == NoAnswer
  {
    match profile
    case Some(u) =>
      if projects.None? then NoAnswer
      else Embed(SeeBetsTitle(username), Lines(SeeBetsLines(u, projects.value)))
    case None =>
      if projects.Some? then NoAnswer
      else Embed(SeeBetsTitle(username), SeeBetsFallback)
  }

  /** The fallback sentence is unreachable in the common case it was
      written for: a member with no profile, whose project list comes back
      (empty), gets no answer at all. */
  lemma SeeBetsMissingProfileUnanswered(username: string)
    ensures SeeBetsAsWritten(username, None, Some([])) == NoAnswer
  {
  }

  /** `UserProjects` with the profile link built only from a profile that
      exists: a missing profile is always told so, whatever the project
      list. */
  function SeeBetsAnswer(username: string, profile: Option<UserInfo>, projects: Option<seq<ProjectInfo>>): (a: Answer)
    ensures profile.None? ==> a == Embed(SeeBetsTitle(username), SeeBetsFallback)
    ensures profile.Some? && projects.Some? ==>
      a == Embed(SeeBetsTitle(username), Lines(SeeBetsLines(profile.value, projects.value)))
    ensures profile.Some? && projects.None? ==> a == NoAnswer
  {
    match profile
    case None => Embed(SeeBetsTitle(username), SeeBetsFallback)
    case Some(u) =>
      if projects.None? then NoAnswer
      else Embed(SeeBetsTitle(username), Lines(SeeBetsLines(u, projects.value)))
  }

  /** The corrected command agrees with the code wherever the code answers,
      and answers every missing profile. */
  lemma SeeBetsCorrectionConservative(username: string, profile: Option<UserInfo>, projects: Option<seq<ProjectInfo>>)
    ensures SeeBetsAsWritten(username, profile, projects) != NoAnswer ==>
      SeeBetsAnswer(username, profile, projects) == SeeBetsAsWritten(username, profile, projects)
    ensures profile.None? ==> SeeBetsAnswer(username, profile, projects).Embed?
  {
  }

  predicate ProjectHasNoNewLine(p: ProjectInfo) {
    NoNewLine(p.name) && NoNewLine(p.url)
  }

  /** Read line by line, a found profile's description is the count line
      followed by each project's line, in list order. */
  lemma SeeBetsReadsBack(username: string, u: UserInfo, projects: seq<ProjectInfo>)
    requires forall i :: 0 <= i < |projects| ==> ProjectHasNoNewLine(projects[i])
    ensures var ls := SplitLines(SeeBetsAnswer(username, Some(u), Some(projects)).description);
      && |ls| == 1 + |projects|
      && ls[0] == ProjectCountLine(u)
      && forall i :: 0 <= i < |projects| ==> ls[i + 1] == projects[i].name + ": " + projects[i].url
  {
    var ls := SeeBetsLines(u, projects);
    forall i | 0 <= i < |ls|
      ensures NoNewLine(ls[i])
    {
      if i == 0 {
        match u.totalNumberOfProjects
        case Some(n) =>
          IntToStringNoNewLine(n);
          LabelledNoNewLine(IntToString(n), " projects.");
        case None => NoProjectsLineNoNewLine();
      } else {
        var p := projects[i - 1];
        LabelledNoNewLine(": ", p.url);
        LabelledNoNewLine(p.name, ": " + p.url);
        assert ls[i] == p.name + (": " + p.url);
      }
    }
    SplitLinesOfLines(ls);
  }

  lemma NoProjectsLineNoNewLine()
    ensures NoNewLine(NoProjectsLine)
  {
    LabelledNoNewLine("No projects listed on their ", "Small Bets directory profile.");
  }

  // ----- /search -----

  /** What the search engine gives back: a result list, null, or an
      exception. */
  datatype SearchOutcome = Hits(users: seq<UserInfo>) | NoHits | SearchFault

  const MaxResults: nat := 10

  const SearchFallback: string := "Try searching for something else."
  /** The directory's profile link, site and path; written in two pieces
      for the same reason as `NoProjectsLine`. */
  const ProfileLinkBase: string := "https://home.smallbets.co" + "/Home/DirectoryProfile?userId="

  /** The results the answer lists: the first ten. */
  function Kept(us: seq<UserInfo>): (r: seq<UserInfo>)
    ensures |r| == if |us| > MaxResults then MaxResults else |us|
    ensures r == us[..|r|]
  {
    if |us| > MaxResults then us[..MaxResults] else us
  }

  /** An unset project count interpolates as nothing. */
  function ProjectCountText(n: Option<int>): string {
    match n
    case Some(v) => IntToString(v)
    case None => ""
  }

  function SummaryLine(u: UserInfo): string {
    NameOf(u) + ": with " + ProjectCountText(u.totalNumberOfProjects) + " projects."
  }

  function LinkedInLine(u: UserInfo): string {
    "Their LinkedIn: " + LinkedInLink + u.linkedInUrl + "/"
  }

  function TwitterLine(u: UserInfo): string {
    "Their Twitter: " + TwitterLink + u.twitterUrl
  }

  function ProfileLinkLine(u: UserInfo): string {
    "Directory Profile: " + ProfileLinkBase + u.id
  }

  /** A line written only when its field is set. */
  function WhenSet(field: string, line: string): seq<string> {
    if field != "" then [line] else []
  }

  /** One result's block: its summary line first, its LinkedIn line
      exactly when set and then its Twitter line exactly when set, its
      profile link, and a blank line last. */
  function EntryLines(u: UserInfo): (ls: seq<string>)
    ensures |ls| == 3 + (if u.linkedInUrl != "" then 1 else 0) + (if u.twitterUrl != "" then 1 else 0)
    ensures ls[0] == SummaryLine(u)
    ensures u.linkedInUrl != "" ==> ls[1] == LinkedInLine(u)
    ensures u.twitterUrl != "" ==> ls[|ls| - 3] == TwitterLine(u)
    ensures ls[|ls| - 2] == ProfileLinkLine(u) && ls[|ls| - 1] == ""
  {
    [SummaryLine(u)]
      + WhenSet(u.linkedInUrl, LinkedInLine(u))
      + WhenSet(u.twitterUrl, TwitterLine(u))
      + [ProfileLinkLine(u), ""]
  }

  function SearchLines(us: seq<UserInfo>): (ls: seq<string>)
    ensures |ls| >= 3 * |us|
    ensures |ls| == 0 <==> |us| == 0
  {
    if |us| == 0 then [] else EntryLines(us[0]) + SearchLines(us[1..])
  }

  function SearchTitle(count: nat): string {
    "I found " + NatToString(count) + " results."
  }

  /** `/search`. At most ten results are listed and the title counts the
      listed ones; an empty list, or no list at all, gets the suggestion to
      search for something else; a failing search gets the apology. */
  function SearchAnswer(found: SearchOutcome): (a: Answer)
    ensures found.SearchFault? ==> a == Plain(BrokenText)
    ensures found.NoHits? ==> a == Embed(SearchTitle(0), SearchFallback)
    ensures found.Hits? ==> a.Embed? && a.title == SearchTitle(|Kept(found.users)|)
    ensures found.Hits? ==> (a.description == SearchFallback <==> |found.users| == 0)
    ensures found.Hits? && |found.users| > 0 ==> a.description == Lines(SearchLines(Kept(found.users)))
  {
    match found
    case SearchFault => Plain(BrokenText)
    case NoHits => Embed(SearchTitle(0), SearchFallback)
    case Hits(us) =>
      var kept := Kept(us);
      var text := Lines(SearchLines(kept));
      assert text != "" ==> text != SearchFallback by {
        if text != "" { LinesEndsWithNewLine(SearchLines(kept)); }
      }
      Embed(SearchTitle(|kept|), if text == "" then SearchFallback else text)
  }

  lemma LinesEndsWithNewLine(ls: seq<string>)
    requires |ls| > 0
    ensures Lines(ls) != SearchFallback
  {
    LastLineBreak(ls);
    assert SearchFallback[|SearchFallback| - 1] == '.';
  }

  /** A non-empty builder text ends with a line break. */
  lemma LastLineBreak(ls: seq<string>)
    requires |ls| > 0
    ensures |Lines(ls)| > 0 && Lines(ls)[|Lines(ls)| - 1] == '\n'
  {
    var r := Lines(ls);
    LinesAppend(ls[..|ls| - 1], [ls[|ls| - 1]]);
    assert ls == ls[..|ls| - 1] + [ls[|ls| - 1]];
  }

  /** The description lists exactly the first ten results in order: read
      line by line it is their blocks one after another, so a longer list
      loses its tail and nothing else. */
  lemma SearchKeepsFirstTen(us: seq<UserInfo>)
    requires |us| > 0
    requires forall i :: 0 <= i < |us| ==> FieldsHaveNoNewLine(us[i]) && NoNewLine(us[i].id)
    ensures var a := SearchAnswer(Hits(us));
      var n := if |us| > MaxResults then MaxResults else |us|;
      && a.title == SearchTitle(n)
      && SplitLines(a.description) == SearchLines(us[..n])
  {
    var kept := Kept(us);
    SearchLinesNoNewLine(kept);
    SplitLinesOfLines(SearchLines(kept));
  }

  lemma {:induction false} SearchLinesNoNewLine(us: seq<UserInfo>)
    requires forall i :: 0 <= i < |us| ==> FieldsHaveNoNewLine(us[i]) && NoNewLine(us[i].id)
    ensures forall i :: 0 <= i < |SearchLines(us)| ==> NoNewLine(SearchLines(us)[i])
  {
    if |us| > 0 {
      SearchLinesNoNewLine(us[1..]);
      EntryLinesNoNewLine(us[0]);
      var a := EntryLines(us[0]);
      var b := SearchLines(us[1..]);
      assert SearchLines(us) == a + b;
      forall i | 0 <= i < |a + b|
        ensures NoNewLine((a + b)[i])
      {
        if i >= |a| { assert (a + b)[i] == b[i - |a|]; }
      }
    }
  }

  lemma EntryLinesNoNewLine(u: UserInfo)
    requires FieldsHaveNoNewLine(u) && NoNewLine(u.id)
    ensures forall i :: 0 <= i < |EntryLines(u)| ==> NoNewLine(EntryLines(u)[i])
  {
    SummaryLineNoNewLine(u);
    LabelledNoNewLine(LinkedInLink, u.linkedInUrl);
    LabelledNoNewLine(LinkedInLink + u.linkedInUrl, "/");
    LabelledNoNewLine("Their LinkedIn: ", LinkedInLink + u.linkedInUrl + "/");
    assert LinkedInLine(u) == "Their LinkedIn: " + (LinkedInLink + u.linkedInUrl + "/");
    LabelledNoNewLine(TwitterLink, u.twitterUrl);
    LabelledNoNewLine("Their Twitter: ", TwitterLink + u.twitterUrl);
    assert TwitterLine(u) == "Their Twitter: " + (TwitterLink + u.twitterUrl);
    ProfileLinkLineNoNewLine(u);
  }

  lemma SummaryLineNoNewLine(u: UserInfo)
    requires FieldsHaveNoNewLine(u)
    ensures NoNewLine(SummaryLine(u))
  {
    var c := ProjectCountText(u.totalNumberOfProjects);
    if u.totalNumberOfProjects.Some? { IntToStringNoNewLine(u.totalNumberOfProjects.value); }
    NameNoNewLine(u);
    LabelledNoNewLine(c, " projects.");
    LabelledNoNewLine(": with ", c + " projects.");
    LabelledNoNewLine(NameOf(u), ": with " + (c + " projects."));
    assert SummaryLine(u) == NameOf(u) + (": with " + (c + " projects."));
  }

  lemma ProfileLinkBaseNoNewLine()
    ensures NoNewLine(ProfileLinkBase)
  {
    LabelledNoNewLine("https://home.smallbets.co", "/Home/DirectoryProfile?userId=");
  }

  lemma ProfileLinkLineNoNewLine(u: UserInfo)
    requires NoNewLine(u.id)
    ensures NoNewLine(ProfileLinkLine(u))
  {
    ProfileLinkBaseNoNewLine();
    LabelledNoNewLine(ProfileLinkBase, u.id);
    LabelledNoNewLine("Directory Profile: ", ProfileLinkBase + u.id);
    assert ProfileLinkLine(u) == "Directory Profile: " + (ProfileLinkBase + u.id);
  }

  // ----- dispatch -----

  /** What the slash commands consult: the directory profile and project
      list of the user asked about, the search engine's outcome for the
      term, and the completion call. */
  datatype SlashServices = SlashServices(
    profile: Option<UserInfo>,
    projects: Option<seq<ProjectInfo>>,
    search: SearchOutcome,
    complete: string -> TextCompletion,
    accepts: string -> bool)

  /** The command's only option: a question, a search term, or the user
      asked about. `/see-bets` is answered by the corrected command, which
      agrees with the code wherever the code answers and also answers a
      missing profile that the code leaves unanswered. */
  function HandleSlash(name: string, option: string, svc: SlashServices): (a: Answer)
    ensures Dispatch(name).None? ==> a == NoAnswer
    ensures name == "help" ==> a == HelpAnswer()
    ensures name == "whisper" ==> a == WhisperAnswer(option, svc.complete, svc.accepts).answer
    ensures name == "who-is" ==> a == WhoIsAnswer(option, svc.profile)
    ensures name == "see-bets" ==> a == SeeBetsAnswer(option, svc.profile, svc.projects)
    ensures name == "see-bets" && SeeBetsAsWritten(option, svc.profile, svc.projects) != NoAnswer ==>
      a == SeeBetsAsWritten(option, svc.profile, svc.projects)
    ensures name == "search" ==> a == SearchAnswer(svc.search)
  {
    match Dispatch(name)
    case None => NoAnswer
    case Some(Help) => HelpAnswer()
    case Some(Whisper) => WhisperAnswer(option, svc.complete, svc.accepts).answer
    case Some(WhoIs) => WhoIsAnswer(option, svc.profile)
    case Some(SeeBets) =>
      SeeBetsCorrectionConservative(option, svc.profile, svc.projects);
      SeeBetsAnswer(option, svc.profile, svc.projects)
    case Some(Search) => SearchAnswer(svc.search)
  }
}
