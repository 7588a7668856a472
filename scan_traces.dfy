/** What scan rules observe when they query one PassiveScanData instance several
    times during a scan pass: the queries as a sequence, the answers as a sequence,
    and the caching guarantees stated over every such sequence. */
module ScanTraces {
  import opened ScanEntities
  import opened PassiveScan

  /** A query a scan rule makes: getUsers (with the user-management extension as it
      is found at that moment) or one of the isPage200/500/404/Other checks. */
  datatype Query = GetUsers(userManagement: Option<UserManagement>) | IsCustomPage(msg: HttpMessage, kind: Kind)

  datatype Answer = Users(users: seq<User>) | Page(isPage: bool)

  function Step(context: Option<Context>, matcher: CustomPageMatcher, c: Caches, q: Query): (r: (Caches, Answer))
    requires Wf(context, c)
    ensures Wf(context, r.0)
    ensures q.GetUsers? <==> r.1.Users?
  {
    match q
    case GetUsers(userManagement) =>
      var (c', users) := GetUsersStep(context, c, userManagement);
      (c', Users(users))
    case IsCustomPage(msg, kind) =>
      var (c', isPage) := IsCustomPageStep(context, matcher, c, msg, kind);
      (c', Page(isPage))
  }

  /** The caches after answering the queries in order, and the answers, one per query. */
  function Run(context: Option<Context>, matcher: CustomPageMatcher, c: Caches, qs: seq<Query>)
    : (r: (Caches, seq<Answer>))
    requires Wf(context, c)
    ensures Wf(context, r.0)
    ensures |r.1| == |qs|
    decreases |qs|
  {
    if |qs| == 0 then (c, [])
    else
      var (c1, a) := Step(context, matcher, c, qs[0]);
      var (c2, rest) := Run(context, matcher, c1, qs[1..]);
      (c2, [a] + rest)
  }

  /** The message of the first custom-page query for a kind, if there is one. */
  function FirstPageMsg(qs: seq<Query>, kind: Kind): (r: Option<HttpMessage>)
    decreases |qs|
  {
    if |qs| == 0 then None
    else if qs[0].IsCustomPage? && qs[0].kind == kind then Some(qs[0].msg)
    else FirstPageMsg(qs[1..], kind)
  }

  /** The user-management handle seen by the first getUsers query, if there is one. */
  function FirstUsersLookup(qs: seq<Query>): (r: Option<Option<UserManagement>>)
    decreases |qs|
  {
    if |qs| == 0 then None
    else if qs[0].GetUsers? then Some(qs[0].userManagement)
    else FirstUsersLookup(qs[1..])
  }

  /** With no context nothing is ever cached or consulted: every getUsers answers the
      empty list and every custom-page check answers false. */
  lemma {:induction false} NoContextTrace(matcher: CustomPageMatcher, c: Caches, qs: seq<Query>)
    requires Wf(None, c)
    ensures Run(None, matcher, c, qs).0 == c
    ensures forall i :: 0 <= i < |qs| ==>
      Run(None, matcher, c, qs).1[i] == if qs[i].GetUsers? then Users([]) else Page(false)
    decreases |qs|
  {
    if |qs| > 0 {
      NoContextTrace(matcher, c, qs[1..]);
    }
  }

  /** Every custom-page answer for a kind is the cached answer if there was one,
      and otherwise the matcher's verdict on the message of the FIRST query for
      that kind: later messages are never looked at. */
  lemma {:induction false} PageAnswerIsFirstEvaluation(ctx: Context, matcher: CustomPageMatcher, c: Caches,
                                                       qs: seq<Query>, i: nat)
    requires Wf(Some(ctx), c)
    requires i < |qs| && qs[i].IsCustomPage?
    ensures FirstPageMsg(qs, qs[i].kind).Some?
    ensures Run(Some(ctx), matcher, c, qs).1[i] ==
      Page(match CachedPage(c, qs[i].kind)
           case Some(b) => b
           case None => matcher(ctx, FirstPageMsg(qs, qs[i].kind).value, qs[i].kind))
    decreases |qs|
  {
    var (c1, a) := Step(Some(ctx), matcher, c, qs[0]);
    if i > 0 {
      PageAnswerIsFirstEvaluation(ctx, matcher, c1, qs[1..], i - 1);
      assert qs[1..][i - 1] == qs[i];
    }
  }

  /** The kind-only cache key: two custom-page queries of the same kind get the same
      answer, whichever messages they name. */
  lemma SameKindSameAnswer(ctx: Context, matcher: CustomPageMatcher, c: Caches, qs: seq<Query>, i: nat, j: nat)
    requires Wf(Some(ctx), c)
    requires i < |qs| && j < |qs| && qs[i].IsCustomPage? && qs[j].IsCustomPage?
    requires qs[i].kind == qs[j].kind
    ensures Run(Some(ctx), matcher, c, qs).1[i] == Run(Some(ctx), matcher, c, qs).1[j]
  {
    PageAnswerIsFirstEvaluation(ctx, matcher, c, qs, i);
    PageAnswerIsFirstEvaluation(ctx, matcher, c, qs, j);
  }

  /** The misuse hazard of the kind-only key, on a fresh instance: when the matcher
      would judge two messages differently, the second query still gets the first
      message's answer. */
  lemma StaleAnswerForSecondMessage(ctx: Context, matcher: CustomPageMatcher,
                                    first: HttpMessage, second: HttpMessage, kind: Kind)
    requires matcher(ctx, first, kind) != matcher(ctx, second, kind)
    ensures Run(Some(ctx), matcher, InitialCaches(Some(ctx)), [IsCustomPage(first, kind), IsCustomPage(second, kind)]).1[1]
            != Page(matcher(ctx, second, kind))
  {
  }

  /** Every getUsers answer is the cached list if there was one, and otherwise what
      the first getUsers query computed: the empty list when user management was
      absent then, else the users of the context's authentication manager. */
  lemma {:induction false} UsersAnswerIsFirstLookup(context: Option<Context>, matcher: CustomPageMatcher, c: Caches,
                                                    qs: seq<Query>, i: nat)
    requires Wf(context, c)
    requires i < |qs| && qs[i].GetUsers?
    ensures FirstUsersLookup(qs).Some?
    ensures Run(context, matcher, c, qs).1[i] ==
      Users(if c.userList.Some? then c.userList.value
            else match FirstUsersLookup(qs).value
                 case None => []
                 case Some(userManagement) => userManagement.usersOf(context.value.id))
    decreases |qs|
  {
    var (c1, a) := Step(context, matcher, c, qs[0]);
    if i > 0 {
      UsersAnswerIsFirstLookup(context, matcher, c1, qs[1..], i - 1);
      assert qs[1..][i - 1] == qs[i];
    }
  }

  /** getUsers is idempotent: all its answers in one pass are the same list. */
  lemma UsersAnswersAgree(context: Option<Context>, matcher: CustomPageMatcher, c: Caches,
                          qs: seq<Query>, i: nat, j: nat)
    requires Wf(context, c)
    requires i < |qs| && j < |qs| && qs[i].GetUsers? && qs[j].GetUsers?
    ensures Run(context, matcher, c, qs).1[i] == Run(context, matcher, c, qs).1[j]
  {
    UsersAnswerIsFirstLookup(context, matcher, c, qs, i);
    UsersAnswerIsFirstLookup(context, matcher, c, qs, j);
  }

  /** The matcher runs for a kind exactly once over a pass when the kind was not
      cached, a context exists and some query asks about the kind; otherwise never. */
  lemma {:induction false} MatcherCallsPerKind(context: Option<Context>, matcher: CustomPageMatcher, c: Caches,
                                               qs: seq<Query>, kind: Kind)
    requires Wf(context, c)
    ensures Run(context, matcher, c, qs).0.matcherCalls[kind] ==
      c.matcherCalls[kind] +
      if context.Some? && CachedPage(c, kind).None? && FirstPageMsg(qs, kind).Some? then 1 else 0
    decreases |qs|
  {
    if |qs| > 0 {
      var (c1, a) := Step(context, matcher, c, qs[0]);
      MatcherCallsPerKind(context, matcher, c1, qs[1..], kind);
    }
  }

  /** User management is queried exactly once over a pass when the list was not yet
      cached and the extension was installed at the first getUsers query; otherwise never. */
  lemma {:induction false} UserQueriesPerPass(context: Option<Context>, matcher: CustomPageMatcher, c: Caches,
                                              qs: seq<Query>)
    requires Wf(context, c)
    ensures Run(context, matcher, c, qs).0.userQueries ==
      c.userQueries +
      if c.userList.None? && FirstUsersLookup(qs).Some? && FirstUsersLookup(qs).value.Some? then 1 else 0
    decreases |qs|
  {
    if |qs| > 0 {
      var (c1, a) := Step(context, matcher, c, qs[0]);
      UserQueriesPerPass(context, matcher, c1, qs[1..]);
    }
  }

  /** A message the registry matches to no context: every scan-rule query in the pass
      sees the empty user list and false for every custom-page kind. */
  lemma NoMatchObservations(msg: HttpMessage, contextsForUrl: ContextRegistry, matcher: CustomPageMatcher,
                            qs: seq<Query>, i: nat)
    requires contextsForUrl(msg.requestUri) == []
    requires i < |qs|
    ensures TechSetFor(ContextFor(msg, contextsForUrl)) == AllTech
    ensures Run(ContextFor(msg, contextsForUrl), matcher, InitialCaches(ContextFor(msg, contextsForUrl)), qs).1[i]
            == if qs[i].GetUsers? then Users([]) else Page(false)
  {
    NoContextTrace(matcher, InitialCaches(None), qs);
  }
}
