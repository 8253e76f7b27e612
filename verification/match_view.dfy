/** The match view's `handleMatch` (components/MatchView.tsx): the blank
    query guard, the exclusion of the signed-in user from the candidates,
    the join of returned match records with the roster, the stable sort by
    score, the choice of the focused result, and the loading and error
    state around the service call. */
module MatchView {
  import opened Types
  import JsArray
  import opened GeminiService
  import opened ScoreSort

  // ---------------------------------------------------------------------
  // The blank-query guard: `!query.trim()`

  /** The code points `String.prototype.trim` strips: the ECMAScript
      WhiteSpace (tab, vertical tab, form feed, space, no-break space,
      byte order mark and the other space separators) and LineTerminator
      (line feed, carriage return, line and paragraph separator) sets. */
  predicate IsJsWhitespace(c: char) {
    || c == '\t' || c == '\n' || c == '\U{000B}' || c == '\U{000C}' || c == '\r' || c == ' '
    || c == '\U{00A0}' || c == '\U{1680}' || ('\U{2000}' <= c <= '\U{200A}')
    || c == '\U{2028}' || c == '\U{2029}' || c == '\U{202F}' || c == '\U{205F}'
    || c == '\U{3000}' || c == '\U{FEFF}'
  }

  /** Number of whitespace characters at the start of `s`. */
  function LeadingSpace(s: string): (n: nat)
    ensures n <= |s|
    ensures forall k :: 0 <= k < n ==> IsJsWhitespace(s[k])
    ensures n < |s| ==> !IsJsWhitespace(s[n])
  {
    if |s| > 0 && IsJsWhitespace(s[0]) then 1 + LeadingSpace(s[1..]) else 0
  }

  /** Number of whitespace characters at the end of `s`. */
  function TrailingSpace(s: string): (n: nat)
    ensures n <= |s|
    ensures forall k :: |s| - n <= k < |s| ==> IsJsWhitespace(s[k])
    ensures n < |s| ==> !IsJsWhitespace(s[|s| - n - 1])
  {
    if |s| > 0 && IsJsWhitespace(s[|s| - 1]) then 1 + TrailingSpace(s[..|s| - 1]) else 0
  }

  /** `s.trim()`: what is left of `s` once the whitespace at both ends is
      dropped; it neither starts nor ends with whitespace. */
  function Trim(s: string): (r: string)
    ensures LeadingSpace(s) + |r| <= |s|
    ensures r == s[LeadingSpace(s)..LeadingSpace(s) + |r|]
    ensures forall k :: LeadingSpace(s) + |r| <= k < |s| ==> IsJsWhitespace(s[k])
    ensures r == [] || (!IsJsWhitespace(r[0]) && !IsJsWhitespace(r[|r| - 1]))
  {
    var i := LeadingSpace(s);
    var t := s[i..];
    var r := t[..|t| - TrailingSpace(t)];
    assert r == s[i..i + |r|];
    r
  }

  /** `!query.trim()`: the trimmed query is the empty (falsy) string. */
  predicate IsBlank(query: string) {
    Trim(query) == ""
  }

  /** A query is blank exactly when every character of it is whitespace. */
  lemma BlankIffAllWhitespace(query: string)
    ensures IsBlank(query) <==> forall k :: 0 <= k < |query| ==> IsJsWhitespace(query[k])
  {
    var r := Trim(query);
    if r != [] {
      assert query[LeadingSpace(query)] == r[0];
    }
  }

  // ---------------------------------------------------------------------
  // Candidate exclusion: `MOCK_USERS.filter(u => u.id !== user.id)`

  function ExcludeUser(roster: seq<UserProfile>, userId: string): (r: seq<UserProfile>)
    ensures |r| <= |roster|
    ensures forall i :: 0 <= i < |r| ==> r[i].id != userId
    ensures forall p :: multiset(r)[p] == if p.id == userId then 0 else multiset(roster)[p]
  {
    JsArray.Filter(roster, (u: UserProfile) => u.id != userId)
  }

  /** Exclusion commutes with concatenation: the candidates keep their
      roster order. */
  lemma ExcludeUserAppend(a: seq<UserProfile>, b: seq<UserProfile>, userId: string)
    ensures ExcludeUser(a + b, userId) == ExcludeUser(a, userId) + ExcludeUser(b, userId)
  {
    JsArray.FilterAppend(a, b, (u: UserProfile) => u.id != userId);
  }

  /** A one-profile roster is kept exactly when it is someone else. */
  lemma ExcludeUserSingleton(p: UserProfile, userId: string)
    ensures ExcludeUser([p], userId) == if p.id == userId then [] else [p]
  {
    JsArray.FilterSingleton(p, (u: UserProfile) => u.id != userId);
  }

  // ---------------------------------------------------------------------
  // The join: `MOCK_USERS.find(u => u.id === m.userId)` and the filter

  /** The first roster profile with the given id. */
  function Lookup(roster: seq<UserProfile>, id: string): (r: Option<UserProfile>)
    ensures r.None? <==> forall i :: 0 <= i < |roster| ==> roster[i].id != id
    ensures r.Some? ==> r.value.id == id && r.value in roster
    ensures r.Some? ==> exists i :: 0 <= i < |roster| && roster[i] == r.value
                                    && forall j :: 0 <= j < i ==> roster[j].id != id
  {
    JsArray.Find(roster, (u: UserProfile) => u.id == id)
  }

  /** A match record refers to some profile in the roster. */
  predicate Resolves(roster: seq<UserProfile>, m: MatchResult) {
    Lookup(roster, m.userId).Some?
  }

  /** The match records that refer to a roster profile, in service order. */
  function Resolvable(ms: seq<MatchResult>, roster: seq<UserProfile>): seq<MatchResult> {
    JsArray.Filter(ms, (m: MatchResult) => Resolves(roster, m))
  }

  /** The match record underlying each combined entry. */
  function Records(cs: seq<Combined>): (r: seq<MatchResult>)
    ensures |r| == |cs|
    ensures forall i :: 0 <= i < |cs| ==> r[i] == cs[i].Record()
  {
    seq(|cs|, i requires 0 <= i < |cs| => cs[i].Record())
  }

  /** Each entry's profile is the first roster profile with its id. */
  ghost predicate JoinedWith(cs: seq<Combined>, roster: seq<UserProfile>) {
    forall i :: 0 <= i < |cs| ==>
      cs[i].user.id == cs[i].userId && Lookup(roster, cs[i].userId) == Some(cs[i].user)
  }

  /** `matchData.map(m => ({...m, user: find(...)})).filter(r => r.user)`:
      every record joined with its profile; records with no profile are
      dropped, and duplicates are kept. */
  function Resolve(ms: seq<MatchResult>, roster: seq<UserProfile>): (r: seq<Combined>)
    ensures |r| <= |ms|
    ensures JoinedWith(r, roster)
    ensures Records(r) == Resolvable(ms, roster)
  {
    if |ms| == 0 then []
    else
      var m := ms[0];
      var rest := Resolve(ms[1..], roster);
      ResolvableCons(ms, roster);
      match Lookup(roster, m.userId)
      case None => rest
      case Some(u) =>
        var c := Combined(m.userId, m.score, m.reasons, u);
        RecordsCons(c, rest);
        JoinedCons(c, rest, roster);
        [c] + rest
  }

  lemma ResolvableCons(ms: seq<MatchResult>, roster: seq<UserProfile>)
    requires |ms| > 0
    ensures Resolvable(ms, roster)
      == (if Resolves(roster, ms[0]) then [ms[0]] else []) + Resolvable(ms[1..], roster)
  {
    assert ms == [ms[0]] + ms[1..];
    JsArray.FilterAppend([ms[0]], ms[1..], (m: MatchResult) => Resolves(roster, m));
    JsArray.FilterSingleton(ms[0], (m: MatchResult) => Resolves(roster, m));
  }

  lemma JoinedCons(c: Combined, cs: seq<Combined>, roster: seq<UserProfile>)
    requires JoinedWith(cs, roster)
    requires c.user.id == c.userId && Lookup(roster, c.userId) == Some(c.user)
    ensures JoinedWith([c] + cs, roster)
  {
  }

  lemma RecordsCons(c: Combined, cs: seq<Combined>)
    ensures Records([c] + cs) == [c.Record()] + Records(cs)
  {
  }

  /** Rearranging combined entries rearranges their records the same way. */
  lemma {:induction false} RecordsPermutation(a: seq<Combined>, b: seq<Combined>)
    requires multiset(a) == multiset(b)
    ensures multiset(Records(a)) == multiset(Records(b))
    decreases |a|
  {
    if |a| == 0 {
      assert |b| == |multiset(b)| == 0;
    } else {
      var x, a' := a[0], a[1..];
      assert x in multiset(b);
      var i :| 0 <= i < |b| && b[i] == x;
      var b1, b2 := b[..i], b[i + 1..];
      assert a == [x] + a';
      assert b == b1 + [x] + b2;
      RemoveOne(a', b1, x, b2);
      RecordsPermutation(a', b1 + b2);
      RecordsAppend([x], a');
      RecordsAppend(b1 + [x], b2);
      RecordsAppend(b1, [x]);
      RecordsAppend(b1, b2);
    }
  }

  lemma RemoveOne(a': seq<Combined>, b1: seq<Combined>, x: Combined, b2: seq<Combined>)
    requires multiset([x] + a') == multiset(b1 + [x] + b2)
    ensures multiset(a') == multiset(b1 + b2)
  {
    calc {
      multiset(a');
      multiset([x] + a') - multiset{x};
      multiset(b1 + [x] + b2) - multiset{x};
      multiset(b1) + multiset(b2);
      multiset(b1 + b2);
    }
  }

  lemma RecordsAppend(p: seq<Combined>, q: seq<Combined>)
    ensures Records(p + q) == Records(p) + Records(q)
  {
  }

  /** A rearrangement of joined entries is still joined. */
  lemma JoinedPermutation(a: seq<Combined>, b: seq<Combined>, roster: seq<UserProfile>)
    requires JoinedWith(a, roster)
    requires multiset(a) == multiset(b)
    ensures JoinedWith(b, roster)
  {
    forall i | 0 <= i < |b|
      ensures b[i].user.id == b[i].userId && Lookup(roster, b[i].userId) == Some(b[i].user)
    {
      assert b[i] in multiset(a);
      var j :| 0 <= j < |a| && a[j] == b[i];
    }
  }

  /** The combined results: resolved, then stably sorted by score, highest
      first. The output is a rearrangement of exactly the resolvable
      records (so it is never longer than the service's answer), and
      entries with equal scores keep the service's order. */
  function Combine(ms: seq<MatchResult>, roster: seq<UserProfile>): (r: seq<Combined>)
    ensures |r| <= |ms|
    ensures SortedDesc(r)
    ensures JoinedWith(r, roster)
    ensures multiset(Records(r)) == multiset(Resolvable(ms, roster))
    ensures forall k :: WithScore(r, k) == WithScore(Resolve(ms, roster), k)
  {
    var resolved := Resolve(ms, roster);
    var r := Sort(resolved);
    RecordsPermutation(r, resolved);
    JoinedPermutation(resolved, r, roster);
    r
  }

  /** The records with score `k`, in their order in `ms`. */
  function RecordsScored(ms: seq<MatchResult>, k: int): seq<MatchResult> {
    JsArray.Filter(ms, (m: MatchResult) => m.score == k)
  }

  lemma RecordsScoredSnoc(rs: seq<MatchResult>, m: MatchResult, k: int)
    ensures RecordsScored(rs + [m], k) == RecordsScored(rs, k) + (if m.score == k then [m] else [])
  {
    JsArray.FilterAppend(rs, [m], (m: MatchResult) => m.score == k);
    JsArray.FilterSingleton(m, (m: MatchResult) => m.score == k);
  }

  /** Taking the entries of one score commutes with taking their records. */
  lemma {:induction false} RecordsWithScore(cs: seq<Combined>, k: int)
    ensures Records(WithScore(cs, k)) == RecordsScored(Records(cs), k)
  {
    if |cs| > 0 {
      var init, last := cs[..|cs| - 1], cs[|cs| - 1];
      assert cs == init + [last];
      RecordsWithScoreSnoc(init, last, k);
      RecordsWithScore(init, k);
      RecordsScoredOfSnoc(init, last, k);
    }
  }

  lemma RecordsWithScoreSnoc(init: seq<Combined>, last: Combined, k: int)
    ensures Records(WithScore(init + [last], k))
      == Records(WithScore(init, k)) + (if last.score == k then [last.Record()] else [])
  {
    WithScoreSnoc(init, last, k);
    RecordsAppend(WithScore(init, k), if last.score == k then [last] else []);
  }

  lemma RecordsScoredOfSnoc(init: seq<Combined>, last: Combined, k: int)
    ensures RecordsScored(Records(init + [last]), k)
      == RecordsScored(Records(init), k) + (if last.score == k then [last.Record()] else [])
  {
    RecordsAppend(init, [last]);
    assert Records(init + [last]) == Records(init) + [last.Record()];
    JsArray.FilterAppend(Records(init), [last.Record()], (m: MatchResult) => m.score == k);
    JsArray.FilterSingleton(last.Record(), (m: MatchResult) => m.score == k);
  }

  /** Among the records the service returns with one score, the combined
      output holds exactly the resolvable ones, in the service's order. */
  lemma CombineIsStable(ms: seq<MatchResult>, roster: seq<UserProfile>, k: int)
    ensures Records(WithScore(Combine(ms, roster), k)) == RecordsScored(Resolvable(ms, roster), k)
  {
    RecordsWithScore(Resolve(ms, roster), k);
  }

  /** The worked example: `u1@80`, `missing@95`, `u2@60` against a roster
      holding `u1` and `u2` combine to exactly `[u1@80, u2@60]`. */
  lemma CombineExample(u1: UserProfile, u2: UserProfile)
    requires u1.id == "u1" && u2.id == "u2"
    ensures
      var ms := [MatchResult("u1", 80, ["a"]), MatchResult("missing", 95, ["b"]), MatchResult("u2", 60, ["c"])];
      Combine(ms, [u1, u2]) == [Combined("u1", 80, ["a"], u1), Combined("u2", 60, ["c"], u2)]
  {
    var ms := [MatchResult("u1", 80, ["a"]), MatchResult("missing", 95, ["b"]), MatchResult("u2", 60, ["c"])];
    var roster := [u1, u2];
    var c1, c2 := Combined("u1", 80, ["a"], u1), Combined("u2", 60, ["c"], u2);
    assert roster[0].id == "u1" && roster[1].id == "u2";
    assert Lookup(roster, "u1") == Some(u1);
    assert Lookup(roster, "u2") == Some(u2);
    assert Lookup(roster, "missing") == None;
    assert Resolve(ms[2..][1..], roster) == [];
    assert Resolve(ms[2..], roster) == [c2];
    assert ms[1..][1..] == ms[2..];
    assert Resolve(ms[1..], roster) == [c2];
    assert Resolve(ms, roster) == [c1, c2];
    CombineExampleSorted(c1, c2);
    SortIsTheStableSort(Resolve(ms, roster), [c1, c2]);
  }

  lemma CombineExampleSorted(c1: Combined, c2: Combined)
    requires c1.score == 80 && c2.score == 60
    ensures SortedDesc([c1, c2])
  {
  }

  // ---------------------------------------------------------------------
  // The view state and its transitions

  /** The match view's state variables (the copy-to-clipboard marker is
      not modelled). */
  datatype MatchState = MatchState(
    query: string,
    loading: bool,
    results: seq<Combined>,
    selected: Option<Combined>,
    error: string
  )

  /** The message shown when the service call throws. */
  const ConnectionError: string := "匹配引擎连接失败。请确保您已在环境变量中配置有效的 API_KEY。"

  /** What `handleMatch` hands to the service. */
  datatype Request = Request(query: string, candidates: seq<UserProfile>)

  /** The request for the current query, or none for a blank query. The
      candidates are the roster without the signed-in user. */
  function MatchRequest(s: MatchState, user: UserProfile, roster: seq<UserProfile>): (r: Option<Request>)
    ensures r.None? <==> IsBlank(s.query)
    ensures r.Some? ==> r.value.query == s.query
    ensures r.Some? ==> forall p :: p in r.value.candidates <==> p in roster && p.id != user.id
    ensures r.Some? ==> r.value.candidates == ExcludeUser(roster, user.id)
  {
    if IsBlank(s.query) then None
    else
      var cs := ExcludeUser(roster, user.id);
      assert forall p :: p in cs <==> p in multiset(cs);
      Some(Request(s.query, cs))
  }

  /** `setLoading(true); setError('')` before the call. */
  function Begin(s: MatchState): MatchState {
    s.(loading := true, error := "")
  }

  /** What happens once the call has settled: on success the results are
      replaced and the first one (if any) is focused, a previous focus
      surviving an empty result; on a thrown error the results stay and
      the error message is set. Either way loading ends. */
  function Settle(pending: MatchState, roster: seq<UserProfile>, outcome: ServiceOutcome): (r: MatchState)
    ensures !r.loading && r.query == pending.query
    ensures outcome.Threw? ==>
      r.results == pending.results && r.selected == pending.selected && r.error == ConnectionError
    ensures outcome.Returned? ==>
      && r.error == pending.error
      && r.results == Combine(outcome.matches, roster)
      && (|r.results| > 0 ==> r.selected == Some(r.results[0]))
      && (|r.results| == 0 ==> r.selected == pending.selected)
  {
    match outcome
    case Threw => pending.(error := ConnectionError, loading := false)
    case Returned(ms) =>
      var combined := Combine(ms, roster);
      pending.(
        results := combined,
        selected := if |combined| > 0 then Some(combined[0]) else pending.selected,
        loading := false)
  }

  /** `handleMatch`: a blank query changes nothing; otherwise the request
      goes to the service with the other users' profiles and the view
      settles on its outcome. */
  function HandleMatch(
    s: MatchState,
    user: UserProfile,
    roster: seq<UserProfile>,
    ai: (string, seq<ContextEntry>) -> Transport,
    parse: string -> Option<seq<MatchResult>>
  ): (r: MatchState)
    ensures IsBlank(s.query) ==> r == s
    ensures !IsBlank(s.query) ==> !r.loading && r.query == s.query
    ensures var outcome := GetMatchingResults(s.query, ExcludeUser(roster, user.id), ai, parse);
      && (!IsBlank(s.query) && outcome.Threw? ==>
            r == s.(loading := false, error := ConnectionError))
      && (!IsBlank(s.query) && outcome.Returned? ==>
            && r.error == ""
            && r.results == Combine(outcome.matches, roster)
            && (r.results != [] ==> r.selected == Some(r.results[0]))
            && (r.results == [] ==> r.selected == s.selected))
  {
    match MatchRequest(s, user, roster)
    case None => s
    case Some(req) =>
      Settle(Begin(s), roster, GetMatchingResults(req.query, req.candidates, ai, parse))
  }

  /** After a successful match with results, the focused entry has the
      highest score of all results. */
  lemma FocusedIsBest(
    s: MatchState,
    user: UserProfile,
    roster: seq<UserProfile>,
    ai: (string, seq<ContextEntry>) -> Transport,
    parse: string -> Option<seq<MatchResult>>
  )
    requires !IsBlank(s.query)
    requires GetMatchingResults(s.query, ExcludeUser(roster, user.id), ai, parse).Returned?
    ensures var r := HandleMatch(s, user, roster, ai, parse);
      r.results != [] ==> r.selected.Some? && forall e :: e in r.results ==> r.selected.value.score >= e.score
  {
  }
}
