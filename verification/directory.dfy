/** Rendering of community-directory profiles: the profile blurb the chat
    personas are seeded with (`InfoOnUser`), and the field selection that
    the `/who-is` and `/search` descriptions share with it. */
module Directory {
  import opened Text
  import opened Models

  /** The line kinds a rendered profile is made of. */
  datatype Field = Name | Twitter | LinkedIn | Location | Projects | Joined

  /** Whether the profile has a line of kind `f`: the name always; a string
      field when it is not null or empty; a nullable field when it has a
      value. */
  predicate Present(u: UserInfo, f: Field) {
    match f
    case Twitter => u.twitterUrl != ""
    case LinkedIn => u.linkedInUrl != ""
    case Location => u.location != ""
    case Projects => u.totalNumberOfProjects.Some?
    case Joined => u.joinDate.Some?
    case Name => true
  }

  /** The kinds of `order` that the profile has, in the order given. */
  function Select(u: UserInfo, order: seq<Field>): (r: seq<Field>)
    ensures |r| <= |order|
    ensures forall f :: f in r <==> f in order && Present(u, f)
    ensures (forall i :: 0 <= i < |order| ==> Present(u, order[i])) ==> r == order
  {
    if |order| == 0 then []
    else if Present(u, order[0]) then [order[0]] + Select(u, order[1..])
    else Select(u, order[1..])
  }

  /** Selection distributes over a split of the layout, so each part of a
      layout is selected independently of the others. */
  lemma {:induction false} SelectAppend(u: UserInfo, a: seq<Field>, b: seq<Field>)
    ensures Select(u, a + b) == Select(u, a) + Select(u, b)
  {
    if |a| > 0 {
      assert (a + b)[0] == a[0];
      assert (a + b)[1..] == a[1..] + b;
      SelectAppend(u, a[1..], b);
    } else {
      assert a + b == b;
    }
  }

  /** Outcome of the directory lookup behind `InfoOnUser`. */
  datatype Lookup = Found(profile: UserInfo) | NotFound | LookupFault

  const DirectoryHeader: string :=
    "This info is meant to help you better assist me, here is what the Small Bets Community Directory has on me:"

  const NoProfileText: string :=
    "There is no info about me in the Small Bets Directory at home.smallbets.co and if you get a chance you should remind me to either setup my profile or connect my discord so you can assist me better."

  /** Line layout of the seed blurb, after its header line. */
  const InfoOrder: seq<Field> := [Name, Twitter, LinkedIn, Location, Projects, Joined]

  function NameOf(u: UserInfo): string {
    u.firstName + " " + u.lastName
  }

  function InfoLine(u: UserInfo, f: Field): string
    requires Present(u, f)
  {
    match f
    case Name => "Name: " + NameOf(u)
    case Twitter => "Twitter: " + u.twitterUrl
    case LinkedIn => "LinkedIn: " + u.linkedInUrl
    case Location => "Location: " + u.location
    case Projects => "Number of Projects I have: " + IntToString(u.totalNumberOfProjects.value)
    case Joined => "Date I joined Small Bets: " + u.joinDate.value
  }

  /** The profile lines of the blurb, one per set field in layout order. */
  function ProfileLines(u: UserInfo): seq<string> {
    var fs := Select(u, InfoOrder);
    seq(|fs|, i requires 0 <= i < |fs| => InfoLine(u, fs[i]))
  }

  /** `InfoOnUser`: the directory blurb about the user that seeds a new
      conversation. A found profile renders as the header line and then
      the profile lines, the first of which is the Name line; a missing
      profile gives a fixed sentence; a failing lookup gives the empty
      string. */
  function InfoOnUser(l: Lookup): (r: string)
    ensures l.Found? ==> r == DirectoryHeader + NewLine + Lines(ProfileLines(l.profile))
    ensures l.Found? ==> StartsWith(r, DirectoryHeader + NewLine + "Name: " + NameOf(l.profile) + NewLine)
    ensures l.NotFound? ==> r == NoProfileText
    ensures l.LookupFault? ==> r == ""
  {
    match l
    case LookupFault => ""
    case NotFound => NoProfileText
    case Found(u) =>
      var text := Lines([DirectoryHeader] + ProfileLines(u));
      NameLineFirst(u);
      HeaderedLines(DirectoryHeader, ProfileLines(u));
      StartsWithAppend(DirectoryHeader + NewLine, Lines(ProfileLines(u)), "Name: " + NameOf(u) + NewLine);
      if text == "" then NoProfileText else text
  }

  /** The profile lines start with the Name line. */
  lemma NameLineFirst(u: UserInfo)
    ensures StartsWith(Lines(ProfileLines(u)), "Name: " + NameOf(u) + NewLine)
  {
    var ps := ProfileLines(u);
    assert Select(u, InfoOrder)[0] == Name;
    assert ps == [ps[0]] + ps[1..];
    LinesAppend([ps[0]], ps[1..]);
  }

  /** A header line written before a run of lines. */
  lemma HeaderedLines(h: string, ps: seq<string>)
    ensures Lines([h] + ps) == h + NewLine + Lines(ps)
  {
    LinesAppend([h], ps);
  }

  lemma StartsWithAppend(a: string, b: string, p: string)
    requires StartsWith(b, p)
    ensures StartsWith(a + b, a + p)
  {
    assert (a + b)[..|a + p|] == a + b[..|p|];
  }

  predicate FieldsHaveNoNewLine(u: UserInfo) {
    && NoNewLine(u.firstName) && NoNewLine(u.lastName) && NoNewLine(u.twitterUrl)
    && NoNewLine(u.linkedInUrl) && NoNewLine(u.location)
    && (u.joinDate.Some? ==> NoNewLine(u.joinDate.value))
  }

  lemma IntToStringNoNewLine(n: int)
    ensures NoNewLine(IntToString(n))
  {
  }

  /** Read line by line, what follows the header of a found profile's blurb
      is one line per set field in layout order: the Name line first, and
      each optional line exactly when its field is set. */
  lemma InfoOnUserReadsBack(u: UserInfo)
    requires FieldsHaveNoNewLine(u)
    ensures var r := InfoOnUser(Found(u));
      && StartsWith(r, DirectoryHeader + NewLine)
      && SplitLines(r[|DirectoryHeader + NewLine|..]) == ProfileLines(u)
    ensures |ProfileLines(u)| >= 1 && ProfileLines(u)[0] == "Name: " + NameOf(u)
    ensures forall f :: f in Select(u, InfoOrder) <==> f in InfoOrder && Present(u, f)
  {
    var r := InfoOnUser(Found(u));
    var ls := ProfileLines(u);
    var fs := Select(u, InfoOrder);
    assert fs[0] == Name;
    forall i | 0 <= i < |ls|
      ensures NoNewLine(ls[i])
    {
      assert fs[i] in fs;
      InfoLineNoNewLine(u, fs[i]);
    }
    assert r[|DirectoryHeader + NewLine|..] == Lines(ls);
    SplitLinesOfLines(ls);
  }

  lemma InfoLineNoNewLine(u: UserInfo, f: Field)
    requires FieldsHaveNoNewLine(u) && Present(u, f)
    ensures NoNewLine(InfoLine(u, f))
  {
    match f
    case Name => NameNoNewLine(u); LabelledNoNewLine("Name: ", NameOf(u));
    case Twitter => LabelledNoNewLine("Twitter: ", u.twitterUrl);
    case LinkedIn => LabelledNoNewLine("LinkedIn: ", u.linkedInUrl);
    case Location => LabelledNoNewLine("Location: ", u.location);
    case Projects => ProjectsLineNoNewLine(u);
    case Joined => JoinedLineNoNewLine(u);
  }

  lemma NameNoNewLine(u: UserInfo)
    requires NoNewLine(u.firstName) && NoNewLine(u.lastName)
    ensures NoNewLine(NameOf(u))
  {
    LabelledNoNewLine(" ", u.lastName);
    NoNewLineAppend(u.firstName, " " + u.lastName);
    assert NameOf(u) == u.firstName + (" " + u.lastName);
  }

  lemma ProjectsLineNoNewLine(u: UserInfo)
    requires u.totalNumberOfProjects.Some?
    ensures NoNewLine("Number of Projects I have: " + IntToString(u.totalNumberOfProjects.value))
  {
    IntToStringNoNewLine(u.totalNumberOfProjects.value);
    LabelledNoNewLine("Number of Projects I have: ", IntToString(u.totalNumberOfProjects.value));
  }

  lemma JoinedLineNoNewLine(u: UserInfo)
    requires u.joinDate.Some? && NoNewLine(u.joinDate.value)
    ensures NoNewLine("Date I joined Small Bets: " + u.joinDate.value)
  {
    LabelledNoNewLine("Date I joined Small Bets: ", u.joinDate.value);
  }

  lemma LabelledNoNewLine(tag: string, v: string)
    requires NoNewLine(tag) && NoNewLine(v)
    ensures NoNewLine(tag + v)
  {
    NoNewLineAppend(tag, v);
  }

  lemma NoNewLineAppend(a: string, b: string)
    ensures NoNewLine(a + b) <==> NoNewLine(a) && NoNewLine(b)
  {
    if NoNewLine(a) && NoNewLine(b) {
      forall k | 0 <= k < |a + b| ensures (a + b)[k] != '\n' {
        if k >= |a| { assert (a + b)[k] == b[k - |a|]; }
      }
    }
    if NoNewLine(a + b) {
      forall k | 0 <= k < |b| ensures b[k] != '\n' {
        assert (a + b)[|a| + k] == b[k];
      }
      forall k | 0 <= k < |a| ensures a[k] != '\n' {
        assert (a + b)[k] == a[k];
      }
    }
  }
}
