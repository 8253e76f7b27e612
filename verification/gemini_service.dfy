/** The data-shaping half of the matching service client
    (services/geminiService.ts): the per-candidate context sent to the
    generative model, and the fallback that turns a missing or unreadable
    response into an empty result. The model call itself and JSON parsing
    are parameters. */
module GeminiService {
  import opened Types

  /** The separator `Array.prototype.join` is given for tags. */
  const TagSeparator: string := ", "

  /** Sum of the lengths of the tags. */
  function TotalLength(tags: seq<string>): nat
  {
    if |tags| == 0 then 0 else |tags[0]| + TotalLength(tags[1..])
  }

  /** `tags.join(", ")`. */
  function JoinTags(tags: seq<string>): (r: string)
    ensures tags == [] ==> r == ""
    ensures |tags| == 1 ==> r == tags[0]
    ensures |tags| > 0 ==> |r| == TotalLength(tags) + |TagSeparator| * (|tags| - 1)
    ensures |tags| > 0 ==> r[..|tags[0]|] == tags[0]
  {
    if |tags| == 0 then ""
    else if |tags| == 1 then tags[0]
    else tags[0] + TagSeparator + JoinTags(tags[1..])
  }

  /** Joining a concatenation puts exactly one separator between the two
      joined halves. */
  lemma {:induction false} JoinTagsAppend(a: seq<string>, b: seq<string>)
    requires a != [] && b != []
    ensures JoinTags(a + b) == JoinTags(a) + TagSeparator + JoinTags(b)
  {
    var ab := a + b;
    assert ab[0] == a[0];
    if |a| == 1 {
      assert ab[1..] == b;
    } else {
      assert ab[1..] == a[1..] + b;
      JoinTagsAppend(a[1..], b);
    }
  }

  /** What the prompt carries about one candidate: the fields relevant to
      matching, and nothing else (no name, contact details or counters). */
  datatype ContextEntry = ContextEntry(
    userId: string,
    role: string,
    industry: string,
    tags: string,
    providing: string,
    lookingFor: string
  )

  /** The projection applied to each profile. */
  function Project(p: UserProfile): ContextEntry
  {
    ContextEntry(p.id, p.role, p.industry, JoinTags(p.tags), p.resources, p.needs)
  }

  /** `allProfiles.map(...)`: one entry per profile, in the same order,
      each copying the matching fields of its profile. */
  function BuildContext(profiles: seq<UserProfile>): (r: seq<ContextEntry>)
    ensures |r| == |profiles|
    ensures forall i :: 0 <= i < |r| ==>
      && r[i].userId == profiles[i].id
      && r[i].role == profiles[i].role
      && r[i].industry == profiles[i].industry
      && r[i].tags == JoinTags(profiles[i].tags)
      && r[i].providing == profiles[i].resources
      && r[i].lookingFor == profiles[i].needs
  {
    if |profiles| == 0 then []
    else [Project(profiles[0])] + BuildContext(profiles[1..])
  }

  /** Building the context commutes with concatenating rosters. */
  lemma {:induction false} BuildContextAppend(a: seq<UserProfile>, b: seq<UserProfile>)
    ensures BuildContext(a + b) == BuildContext(a) + BuildContext(b)
  {
    if |a| == 0 {
      assert a + b == b;
    } else {
      assert (a + b)[0] == a[0];
      assert (a + b)[1..] == a[1..] + b;
      BuildContextAppend(a[1..], b);
    }
  }

  /** Two rosters that agree on the six matching fields produce the same
      context: names, avatars, contact details, flags and counters never
      reach the prompt. */
  lemma {:induction false} ContextIgnoresOtherFields(a: seq<UserProfile>, b: seq<UserProfile>)
    requires |a| == |b|
    requires forall i :: 0 <= i < |a| ==>
      && a[i].id == b[i].id && a[i].role == b[i].role && a[i].industry == b[i].industry
      && a[i].tags == b[i].tags && a[i].resources == b[i].resources && a[i].needs == b[i].needs
    ensures BuildContext(a) == BuildContext(b)
  {
    if |a| > 0 {
      ContextIgnoresOtherFields(a[1..], b[1..]);
    }
  }

  /** What the model endpoint did with one request: it failed in transport
      (the call throws), or it answered with a possibly missing text. */
  datatype Transport = TransportFailed | Responded(text: Option<string>)

  /** What `getMatchingResults` does for its caller: it throws, or it
      returns the parsed array. */
  datatype ServiceOutcome = Threw | Returned(matches: seq<MatchResult>)

  /** `response.text || "[]"`: a missing or empty text reads as an empty
      JSON array, because both are falsy. */
  function ResponseText(text: Option<string>): (r: string)
    ensures r != ""
    ensures !(text.Some? && text.value != "") ==> r == "[]"
    ensures text.Some? && text.value != "" ==> r == text.value
  {
    if text.Some? && text.value != "" then text.value else "[]"
  }

  /** `getMatchingResults(query, allProfiles)`. `ai` stands for the model
      call with the prompt built from the query and the context; `parse`
      stands for `JSON.parse`, with `None` for a text it rejects. Only the
      parse sits inside the `try`, so a transport failure reaches the
      caller as a thrown error while a parse failure becomes `[]`. */
  function GetMatchingResults(
    query: string,
    allProfiles: seq<UserProfile>,
    ai: (string, seq<ContextEntry>) -> Transport,
    parse: string -> Option<seq<MatchResult>>
  ): (r: ServiceOutcome)
    ensures var reply := ai(query, BuildContext(allProfiles));
      && (r == Threw <==> reply == TransportFailed)
      && (reply.Responded? && (reply.text == None || reply.text == Some("")) && parse("[]") == Some([])
          ==> r == Returned([]))
      && (reply.Responded? && reply.text.Some? && reply.text.value != "" && parse(reply.text.value) == None
          ==> r == Returned([]))
      && (reply.Responded? && reply.text.Some? && reply.text.value != "" && parse(reply.text.value).Some?
          ==> r == Returned(parse(reply.text.value).value))
  {
    var reply := ai(query, BuildContext(allProfiles));
    match reply
    case TransportFailed => Threw
    case Responded(text) =>
      match parse(ResponseText(text))
      case None => Returned([])
      case Some(matches) => Returned(matches)
  }
}
