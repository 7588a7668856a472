/** The entities PassiveScanData reads, reduced to the fields and queries it uses,
    and the collaborators it consults, as values and functions handed in by the caller. */
module ScanEntities {

  /** Java's nullable reference: None stands for null. */
  datatype Option<+T> = None | Some(value: T)

  /** The custom-page kinds a context can define (CustomPage.Type). */
  datatype Kind = Ok200 | Error500 | NotFound404 | Other

  /** An HTTP message. Only the request URI is read here; the response is what
      the custom-page matcher inspects. */
  datatype HttpMessage = HttpMessage(requestUri: string, responseBody: string)

  datatype User = User(id: int, name: string)

  /** The technologies in scope. AllTech is the sentinel meaning "every technology";
      a context may carry any technology set, that sentinel included. */
  datatype TechSet = AllTech | Techs(includes: set<string>, excludes: set<string>)

  /** A context, identified by its id, with the technology set configured for it. */
  datatype Context = Context(id: int, name: string, techSet: TechSet)

  /** The session's query "contexts whose URL patterns match this URL", in registry order. */
  type ContextRegistry = string -> seq<Context>

  /** Custom-page matching of a message for one kind against a context's definitions
      (the context's own algorithm, with its fallback policy). */
  type CustomPageMatcher = (Context, HttpMessage, Kind) -> bool

  /** The optional user-management extension: the users of the authentication
      manager registered for a context id. */
  datatype UserManagement = UserManagement(usersOf: int -> seq<User>)
}
