/** PassiveScanData: the per-message helper that resolves a message to its first
    matching context and lazily caches the users and custom-page answers for it. */
module PassiveScan {
  import opened ScanEntities

  /** Context resolution: the first context the registry lists for the request URI,
      or none when the registry lists none. Later matches are never chosen. */
  function ContextFor(msg: HttpMessage, contextsForUrl: ContextRegistry): (r: Option<Context>)
    ensures r.None? <==> contextsForUrl(msg.requestUri) == []
    ensures r.Some? ==> r.value == contextsForUrl(msg.requestUri)[0]
  {
    var contextList := contextsForUrl(msg.requestUri);
    if |contextList| == 0 then None else Some(contextList[0])
  }

  /** The technology set fixed at construction. */
  function TechSetFor(context: Option<Context>): (r: TechSet)
  {
    match context
    case None => AllTech
    case Some(c) => c.techSet
  }

  /** The lazily filled state of one instance, with how often each collaborator was
      consulted: userList (null until first computed), customPageMap (null until the
      first custom-page query with a context), userQueries (calls into user management)
      and matcherCalls (custom-page matcher runs, per kind). */
  datatype Caches = Caches(
    userList: Option<seq<User>>,
    customPageMap: Option<map<Kind, bool>>,
    userQueries: nat,
    matcherCalls: multiset<Kind>)

  /** The answer cached for a kind, if any. */
  function CachedPage(c: Caches, kind: Kind): (r: Option<bool>)
  {
    match c.customPageMap
    case None => None
    case Some(m) => if kind in m then Some(m[kind]) else None
  }

  /** The invariant every instance keeps: with no context, the user list is the empty
      list and the custom-page map was never created; user management was queried at
      most once and only to fill the user list; the matcher ran exactly once for each
      cached kind and never for another. */
  ghost predicate Wf(context: Option<Context>, c: Caches)
  {
    && (context.None? ==> c.userList == Some([]) && c.customPageMap == None && c.userQueries == 0)
    && c.userQueries <= 1
    && (c.userQueries == 1 ==> c.userList.Some?)
    && (forall k :: c.matcherCalls[k] == if CachedPage(c, k).Some? then 1 else 0)
  }

  /** The caches as the constructor leaves them. */
  function InitialCaches(context: Option<Context>): (c: Caches)
    ensures Wf(context, c)
    ensures c.userList.Some? <==> context.None?
    ensures forall k :: CachedPage(c, k) == None
    ensures c.userQueries == 0
  {
    Caches(if context.None? then Some([]) else None, None, 0, multiset{})
  }

  /** getUsers on the caches: a cached list is returned as it is; otherwise, with no
      user management, the empty list is cached; otherwise the users of the context's
      authentication manager are copied, cached and returned. */
  function GetUsersStep(context: Option<Context>, c: Caches, userManagement: Option<UserManagement>)
    : (r: (Caches, seq<User>))
    requires Wf(context, c)
    ensures Wf(context, r.0)
    ensures r.0.userList == Some(r.1)
    ensures c.userList.Some? ==> r == (c, c.userList.value)
    ensures context.None? ==> r == (c, [])
    ensures c.userList.None? && userManagement.None? ==> r.1 == [] && r.0.userQueries == c.userQueries
    ensures c.userList.None? && userManagement.Some? ==>
      r.1 == userManagement.value.usersOf(context.value.id) && r.0.userQueries == c.userQueries + 1
    ensures r.0.customPageMap == c.customPageMap && r.0.matcherCalls == c.matcherCalls
  {
    if c.userList.Some? then (c, c.userList.value)
    else if userManagement.None? then (c.(userList := Some([])), [])
    else
      var users := userManagement.value.usersOf(context.value.id);
      (c.(userList := Some(users), userQueries := c.userQueries + 1), users)
  }

  /** isCustomPage on the caches: false without a context, touching nothing; otherwise
      the map is created if needed and the matcher runs only when the kind has no
      cached answer. The key is the kind alone: a cached answer is returned whatever
      message is asked about. */
  function IsCustomPageStep(context: Option<Context>, matcher: CustomPageMatcher, c: Caches,
                            msg: HttpMessage, kind: Kind): (r: (Caches, bool))
    requires Wf(context, c)
    ensures Wf(context, r.0)
    ensures context.None? ==> r == (c, false)
    ensures context.Some? ==> CachedPage(r.0, kind) == Some(r.1)
    ensures CachedPage(c, kind).Some? ==> r == (c, CachedPage(c, kind).value)
    ensures context.Some? && CachedPage(c, kind).None? ==>
      r.1 == matcher(context.value, msg, kind) && r.0.matcherCalls == c.matcherCalls + multiset{kind}
    ensures forall k :: k != kind ==> CachedPage(r.0, k) == CachedPage(c, k)
    ensures r.0.userList == c.userList && r.0.userQueries == c.userQueries
  {
    if context.None? then (c, false)
    else
      var m := if c.customPageMap.None? then map[] else c.customPageMap.value;
      if kind in m then (c, m[kind])
      else
        var isPage := matcher(context.value, msg, kind);
        (c.(customPageMap := Some(m[kind := isPage]), matcherCalls := c.matcherCalls + multiset{kind}), isPage)
  }

  class PassiveScanData {
    const message: HttpMessage
    const context: Option<Context>
    const techSet: TechSet
    const matcher: CustomPageMatcher
    /** The registry the context was resolved against. */
    ghost const contextsForUrl: ContextRegistry

    var userList: Option<seq<User>>
    var customPageMap: Option<map<Kind, bool>>
    ghost var userQueries: nat
    ghost var matcherCalls: multiset<Kind>

    /** The final fields hold the resolution of the message against the registry. */
    ghost predicate Resolved()
    {
      context == ContextFor(message, contextsForUrl) && techSet == TechSetFor(context)
    }

    ghost function CacheState(): Caches
      reads this
    {
      Caches(userList, customPageMap, userQueries, matcherCalls)
    }

    ghost predicate Valid()
      reads this
    {
      Resolved() && Wf(context, CacheState())
    }

    /** Resolves the message once; with no context the user list is the empty list at once. */
    constructor (msg: HttpMessage, contextsForUrl: ContextRegistry, matcher: CustomPageMatcher)
      ensures Valid()
      ensures message == msg && this.contextsForUrl == contextsForUrl && this.matcher == matcher
      ensures CacheState() == InitialCaches(context)
    {
      message := msg;
      this.contextsForUrl := contextsForUrl;
      this.matcher := matcher;
      var resolved := ContextFor(msg, contextsForUrl);
      context := resolved;
      if resolved.None? {
        techSet := AllTech;
        userList := Some([]);
      } else {
        techSet := resolved.value.techSet;
        userList := None;
      }
      customPageMap := None;
      userQueries := 0;
      matcherCalls := multiset{};
    }

    /** True exactly when the registry listed a context for the message. */
    function HasContext(): (r: bool)
      requires Resolved()
      ensures r <==> contextsForUrl(message.requestUri) != []
    {
      context.Some?
    }

    /** The first context the registry listed for the message, or none. */
    function GetContext(): (r: Option<Context>)
      requires Resolved()
      ensures r.None? <==> contextsForUrl(message.requestUri) == []
      ensures r.Some? ==> r.value == contextsForUrl(message.requestUri)[0]
    {
      context
    }

    /** AllTech without a context, otherwise the first matching context's set. */
    function GetTechSet(): (r: TechSet)
      requires Resolved()
      ensures contextsForUrl(message.requestUri) == [] ==> r == AllTech
      ensures contextsForUrl(message.requestUri) != [] ==> r == contextsForUrl(message.requestUri)[0].techSet
    {
      techSet
    }

    /** The users for the message's context; userManagement is the extension as
        looked up at the time of the call (None when it is not installed). */
    method GetUsers(userManagement: Option<UserManagement>) returns (users: seq<User>)
      requires Valid()
      modifies this
      ensures Valid()
      ensures (CacheState(), users) == GetUsersStep(context, old(CacheState()), userManagement)
    {
      if userList.Some? {
        return userList.value;
      }
      if userManagement.None? {
        userList := Some([]);
        return [];
      }
      users := userManagement.value.usersOf(context.value.id);
      userList := Some(users);
      userQueries := userQueries + 1;
    }

    method IsCustomPage(msg: HttpMessage, kind: Kind) returns (isPage: bool)
      requires Valid()
      modifies this
      ensures Valid()
      ensures (CacheState(), isPage) == IsCustomPageStep(context, matcher, old(CacheState()), msg, kind)
    {
      if context.None? {
        return false;
      }
      if customPageMap.None? {
        customPageMap := Some(map[]);
      }
      var m := customPageMap.value;
      if kind in m {
        isPage := m[kind];
      } else {
        isPage := matcher(context.value, msg, kind);
        customPageMap := Some(m[kind := isPage]);
        matcherCalls := matcherCalls + multiset{kind};
      }
    }

    method IsPage200(msg: HttpMessage) returns (isPage: bool)
      requires Valid()
      modifies this
      ensures Valid()
      ensures (CacheState(), isPage) == IsCustomPageStep(context, matcher, old(CacheState()), msg, Ok200)
    {
      isPage := IsCustomPage(msg, Ok200);
    }

    method IsPage500(msg: HttpMessage) returns (isPage: bool)
      requires Valid()
      modifies this
      ensures Valid()
      ensures (CacheState(), isPage) == IsCustomPageStep(context, matcher, old(CacheState()), msg, Error500)
    {
      isPage := IsCustomPage(msg, Error500);
    }

    method IsPage404(msg: HttpMessage) returns (isPage: bool)
      requires Valid()
      modifies this
      ensures Valid()
      ensures (CacheState(), isPage) == IsCustomPageStep(context, matcher, old(CacheState()), msg, NotFound404)
    {
      isPage := IsCustomPage(msg, NotFound404);
    }

    method IsPageOther(msg: HttpMessage) returns (isPage: bool)
      requires Valid()
      modifies this
      ensures Valid()
      ensures (CacheState(), isPage) == IsCustomPageStep(context, matcher, old(CacheState()), msg, Other)
    {
      isPage := IsCustomPage(msg, Other);
    }
  }

  /** A scan rule asking isPage404 twice on one instance, about two messages: the
      second answer is the first one, which the matcher gave for the first message. */
  method RepeatedPage404(msg: HttpMessage, contextsForUrl: ContextRegistry, matcher: CustomPageMatcher,
                         first: HttpMessage, second: HttpMessage)
    returns (firstAnswer: bool, secondAnswer: bool)
    ensures secondAnswer == firstAnswer
    ensures firstAnswer <==>
      contextsForUrl(msg.requestUri) != [] && matcher(contextsForUrl(msg.requestUri)[0], first, NotFound404)
  {
    var data := new PassiveScanData(msg, contextsForUrl, matcher);
    firstAnswer := data.IsPage404(first);
    secondAnswer := data.IsPage404(second);
  }

  /** The four checks on one message each consult the matcher for their own kind. */
  method ClassifyMessage(contextsForUrl: ContextRegistry, matcher: CustomPageMatcher, msg: HttpMessage)
    returns (page200: bool, page500: bool, page404: bool, pageOther: bool)
    ensures contextsForUrl(msg.requestUri) == [] ==> !page200 && !page500 && !page404 && !pageOther
    ensures contextsForUrl(msg.requestUri) != [] ==>
      var ctx := contextsForUrl(msg.requestUri)[0];
      && page200 == matcher(ctx, msg, Ok200)
      && page500 == matcher(ctx, msg, Error500)
      && page404 == matcher(ctx, msg, NotFound404)
      && pageOther == matcher(ctx, msg, Other)
  {
    var data := new PassiveScanData(msg, contextsForUrl, matcher);
    page404 := data.IsPage404(msg);
    page200 := data.IsPage200(msg);
    page500 := data.IsPage500(msg);
    pageOther := data.IsPageOther(msg);
  }

  /** A scan rule asking getUsers twice on one instance: the same list both times,
      empty without a context or without user management, otherwise the users of the
      first matching context. */
  method RepeatedGetUsers(msg: HttpMessage, contextsForUrl: ContextRegistry, matcher: CustomPageMatcher,
                          userManagement: Option<UserManagement>)
    returns (first: seq<User>, second: seq<User>)
    ensures second == first
    ensures contextsForUrl(msg.requestUri) == [] || userManagement.None? ==> first == []
    ensures contextsForUrl(msg.requestUri) != [] && userManagement.Some? ==>
      first == userManagement.value.usersOf(contextsForUrl(msg.requestUri)[0].id)
  {
    var data := new PassiveScanData(msg, contextsForUrl, matcher);
    first := data.GetUsers(userManagement);
    second := data.GetUsers(userManagement);
  }
}
