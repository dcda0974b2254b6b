/**
 * The application statechart `app` of the xstate visualizer: a parallel
 * machine with an `auth` region (sign-in with GitHub, then saving the edited
 * machine as a gist) and a document region (loading the gist named in the
 * address bar).  Each region's active leaf is one constructor of a datatype,
 * so "exactly one active leaf per region" holds by construction.
 *
 * An event is processed by `Step` (the transitions it selects in every
 * region), then `Settle` takes the eventless transitions until none is
 * enabled; `Macrostep` is the two together and `Run` drains a FIFO queue of
 * events, appending the events the machine sends to itself.
 */
module AppMachine {
  import opened Wrappers

  // ---------------------------------------------------------------- context

  /** `!!x` on an optional string: present and not the empty string. */
  predicate Truthy(o: Option<string>)
  {
    o.Some? && o.value != ""
  }

  /** The parsed address-bar query (the `layout` key is not read by the machine). */
  datatype Query = Query(gist: Option<string>, code: Option<string>)

  /** The machine shown in the editor: one of the bundled examples, or the text of a loaded gist. */
  datatype Example = Omni | Light | Content(source: string)

  datatype Context = Context(
    query: Query,
    token: Option<string>,     // GitHub access token
    example: Example,
    user: Option<string>,      // the GitHub user record, kept opaque
    gist: Option<string>,      // id of the gist the editor saves to
    pendingSave: bool)         // a save was requested before sign-in

  // ---------------------------------------------------------- configuration

  /** Active leaf of the `gist` sub-region of `authorized` (`idle` has three children). */
  datatype GistState = IdleDefault | IdlePatched | IdlePosted | Patching | Posting

  /** Active leaf of the `auth` region; `authorized` also holds the (transition-free) `user` leaf. */
  datatype AuthState =
    | CheckingCode
    | Authorizing
    | GettingUser
    | Authorized(gistState: GistState)
    | Unauthorized
    | PendingAuthorization

  /** Active leaf of the document region (named `gist` in the machine definition). */
  datatype DocState = Checking | Fetching | DocIdle | Loaded

  datatype Config = Config(auth: AuthState, doc: DocState)

  datatype State = State(config: Config, ctx: Context)

  // ----------------------------------------------------------------- events

  /**
   * The events the machine reacts to.  `Code` comes from the authorization
   * actor, `GistSave` from the editor (its optional `code` is the machine
   * source), the `Done…`/`Error…` events are the outcomes of the services the
   * states invoke, and `Timeout` is the 1000 ms `after` timer of
   * `idle.patched` and `idle.posted`.  `DoneFetch` carries the content of
   * the fetched gist's `machine.js` file, or None when it has no such file.
   */
  datatype Event =
    | Code(authCode: string)
    | Login
    | Logout
    | GistSave(saveCode: Option<string>)
    | DoneAuthorizing(accessToken: Option<string>)
    | ErrorAuthorizing(reason: string)
    | DoneUser(userData: string)
    | ErrorUser
    | DonePatching
    | ErrorPatching(message: string)
    | DonePosting(id: string)
    | ErrorPosting(failure: string)
    | DoneFetch(machineFile: Option<string>)
    | ErrorFetch
    | Timeout

  /** The `code` field an event carries, as read by `e.code`. */
  function EventCode(ev: Event): (c: Option<string>)
    ensures c.Some? ==> ev.Code? || ev.GistSave?
  {
    match ev
    case Code(c) => Some(c)
    case GistSave(c) => c
    case _ => None
  }

  // ---------------------------------------------------------------- effects

  /** The external operations a state invokes on entry, with the inputs they read. */
  datatype Service =
    | CodeListener                                  // the root invocation listening to the auth actor
    | ExchangeCode(code: Option<string>)            // `authorizing`: code -> access token
    | GetUser(token: Option<string>)                // `gettingUser`
    | SaveGist(gistId: Option<string>, saveToken: Option<string>, saveSource: Option<string>)  // `/gists/<id>`
    | PostGist(postToken: Option<string>, postSource: Option<string>)                         // `/gists`
    | FetchGist(fetchId: Option<string>)           // document `fetching`, reads `query.gist`

  /** What the notifications actor is handed: a message, or a structured record. */
  datatype Notification =
    | Plain(text: string)
    | Detailed(headline: string, severity: string, description: string)

  /** Observable side effects of a transition, in execution order. */
  datatype Effect =
    | Invoke(service: Service)
    | Notify(note: Notification)
    | Alert(alertText: string)
    | OpenLoginWindow
    | UpdateQuery(queryGist: Option<string>)

  /** Result of processing: the new state, the events sent to self, the effects. */
  datatype Reaction = Reaction(state: State, raised: seq<Event>, effects: seq<Effect>)

  /**
   * The save guard's call of `toMachine(e.code)` and `getEdges`: None when the
   * code is a valid machine, Some(message) when they throw.  The library is not
   * modelled, so every property below holds for every validator.
   */
  type Validator = Option<string> -> Option<string>

  // Notification texts.
  const GistSaved := "Gist saved!"
  const GistCreated := "Gist created!"
  const GistNotFound := "Gist not found."
  const GistLoaded := "Gist loaded!"
  const UnableToSave := "Unable to save machine"
  const FailedToSave := "Failed to save machine"
  const ErrorSeverity := "error"

  // ---------------------------------------------------------------- entries

  /** Entry effects of a `gist` sub-state; `code` is the triggering event's `code`. */
  function EnterGist(g: GistState, ctx: Context, code: Option<string>): (es: seq<Effect>)
    ensures |es| <= 1
    ensures es != [] <==> g == Patching || g == Posting
    ensures forall e | e in es :: e.Invoke? && (e.service.SaveGist? || e.service.PostGist?)
  {
    match g
    case Patching => [Invoke(SaveGist(ctx.gist, ctx.token, code))]
    case Posting => [Invoke(PostGist(ctx.token, code))]
    case _ => []
  }

  /** Entry effects of an `auth` leaf. */
  function EnterAuth(a: AuthState, ctx: Context, code: Option<string>): (es: seq<Effect>)
    ensures |es| <= 1
    ensures es == [] <==> a == CheckingCode || a == Unauthorized || (a.Authorized? && a.gistState !in {Patching, Posting})
    ensures OpenLoginWindow in es <==> a == PendingAuthorization
  {
    match a
    case Authorizing => [Invoke(ExchangeCode(code))]
    case GettingUser => [Invoke(GetUser(ctx.token))]
    case Authorized(g) => EnterGist(g, ctx, code)
    case PendingAuthorization => [OpenLoginWindow]
    case _ => []
  }

  /** Entry effects of a document leaf. */
  function EnterDoc(d: DocState, ctx: Context): (es: seq<Effect>)
    ensures |es| <= 1
    ensures es == [] <==> d == Checking || d == DocIdle
    ensures Invoke(FetchGist(ctx.query.gist)) in es <==> d == Fetching
  {
    match d
    case Fetching => [Invoke(FetchGist(ctx.query.gist))]
    case Loaded => [Notify(Plain(GistLoaded))]
    case _ => []
  }

  /** Take an `auth` transition: transition actions, then the target's entry actions. */
  function AuthMove(s: State, target: AuthState, ctx: Context, actions: seq<Effect>, code: Option<string>): Reaction
  {
    Reaction(State(s.config.(auth := target), ctx), [], actions + EnterAuth(target, ctx, code))
  }

  /** Take a document transition. */
  function DocMove(s: State, target: DocState, ctx: Context, actions: seq<Effect>): Reaction
  {
    Reaction(State(s.config.(doc := target), ctx), [], actions + EnterDoc(target, ctx))
  }

  // ------------------------------------------------------------ transitions

  /**
   * Transitions of the active `gist` leaf inside `authorized`, then of the
   * `gist` node itself (`GIST.SAVE`, a first-match chain); None if neither
   * has one for `ev`.
   */
  function GistOn(validate: Validator, g: GistState, ctx: Context, ev: Event): (r: Option<(GistState, Context, seq<Effect>)>)
    ensures ev.GistSave? ==> r.Some?
    ensures !ev.GistSave? ==>
      (r.Some? <==> (g == Patching && (ev.DonePatching? || ev.ErrorPatching?))
                    || (g == Posting && ev.DonePosting?)
                    || ((g == IdlePatched || g == IdlePosted) && ev.Timeout?))
    ensures r.Some? ==> (r.value.0 in {Patching, Posting} <==> ev.GistSave? && validate(ev.saveCode).None?)
    ensures r.Some? ==> r.value.1 == ctx || (ev.DonePosting? && r.value.1 == ctx.(gist := Some(ev.id)))
  {
    match ev
    case DonePatching =>
      if g == Patching then Some((IdlePatched, ctx, [Notify(Plain(GistSaved))])) else None
    case ErrorPatching(m) =>
      if g == Patching then Some((IdleDefault, ctx, [Notify(Detailed(UnableToSave, ErrorSeverity, m))])) else None
    case DonePosting(id) =>
      if g == Posting
      then
        var ctx' := ctx.(gist := Some(id));
        Some((IdlePosted, ctx', [Notify(Plain(GistCreated)), UpdateQuery(ctx'.gist)]))
      else None
    case Timeout =>
      if g == IdlePatched || g == IdlePosted then Some((IdleDefault, ctx, [])) else None
    case GistSave(code) =>
      var failure := validate(code);
      if failure.Some? then
        Some((IdleDefault, ctx, [Notify(Detailed(FailedToSave, ErrorSeverity, failure.value))]))
      else if Truthy(ctx.gist) then Some((Patching, ctx, []))
      else Some((Posting, ctx, []))
    case _ => None
  }

  /**
   * Transitions of `authorized`: its `gist` sub-region first, then its own
   * `LOGOUT`.  The targets of `GIST.SAVE` (`.idle`, `.patching`, `.posting`)
   * are internal: a target that is already active is not re-entered.
   */
  function AuthorizedOn(validate: Validator, s: State, g: GistState, ev: Event): (r: Option<Reaction>)
    ensures r.Some? ==> r.value.raised == [] && r.value.state.config.doc == s.config.doc
    ensures r.Some? ==> r.value.state.ctx.query == s.ctx.query && r.value.state.ctx.pendingSave == s.ctx.pendingSave
    ensures ev == Logout ==> r.Some? && r.value.state.config.auth == Unauthorized
    ensures r.Some? && !r.value.state.config.auth.Authorized? ==> ev == Logout
    ensures r.Some? && ev.GistSave? && r.value.state.config.auth == Authorized(g) ==>
      forall e | e in r.value.effects :: !e.Invoke?
  {
    match GistOn(validate, g, s.ctx, ev)
    case Some((g', ctx', actions)) =>
      var entered := if ev.GistSave? && g' == g then [] else EnterGist(g', ctx', EventCode(ev));
      Some(Reaction(State(s.config.(auth := Authorized(g')), ctx'), [], actions + entered))
    case None =>
      if ev == Logout
      then Some(AuthMove(s, Unauthorized, s.ctx.(token := None, user := None), [], None))
      else None
  }

  /** Transitions defined on the active `auth` leaf itself. */
  function AuthLeafOn(validate: Validator, s: State, ev: Event): (r: Option<Reaction>)
    ensures s.config.auth == CheckingCode ==> r.None?
    ensures r.Some? ==> r.value.raised == [] && r.value.state.config.doc == s.config.doc
    ensures r.Some? ==> r.value.state.ctx.query == s.ctx.query
    ensures r.Some? && r.value.state.ctx.pendingSave != s.ctx.pendingSave ==>
      s.config.auth == Unauthorized && ev.GistSave? && r.value.state.config.auth == PendingAuthorization
  {
    var ctx := s.ctx;
    match s.config.auth
    case CheckingCode => None
    case Authorizing =>
      (match ev
       case DoneAuthorizing(t) => Some(AuthMove(s, GettingUser, ctx.(token := t), [], None))
       case ErrorAuthorizing(m) => Some(AuthMove(s, Unauthorized, ctx, [Alert(m)], None))
       case _ => None)
    case GettingUser =>
      (match ev
       case DoneUser(u) => Some(AuthMove(s, Authorized(IdleDefault), ctx.(user := Some(u)), [], None))
       case ErrorUser => Some(AuthMove(s, Unauthorized, ctx, [], None))
       case _ => None)
    case Authorized(g) => AuthorizedOn(validate, s, g, ev)
    case Unauthorized =>
      (match ev
       case Login => Some(AuthMove(s, PendingAuthorization, ctx, [], None))
       case GistSave(_) => Some(AuthMove(s, PendingAuthorization, ctx.(pendingSave := true), [], None))
       case _ => None)
    case PendingAuthorization =>
      (match ev
       case Code(c) => Some(AuthMove(s, Authorizing, ctx, [], Some(c)))
       case _ => None)
  }

  /**
   * The `auth` region: the leaf's transitions, else the region's own
   * `LOGIN`, whose target `.pendingAuthorization` is internal: taken while
   * `pendingAuthorization` is active, it re-enters nothing.
   */
  function AuthOn(validate: Validator, s: State, ev: Event): (r: Option<Reaction>)
    ensures ev == Login ==> r.Some? && r.value.state == State(s.config.(auth := PendingAuthorization), s.ctx)
    ensures ev == Login && s.config.auth == PendingAuthorization ==> r.Some? && r.value.effects == []
    ensures r.Some? ==> r.value.raised == [] && r.value.state.config.doc == s.config.doc
    ensures r.Some? ==> r.value.state.ctx.query == s.ctx.query
    ensures r.Some? && r.value.state.ctx.pendingSave != s.ctx.pendingSave ==>
      s.config.auth == Unauthorized && ev.GistSave? && r.value.state.config.auth == PendingAuthorization
  {
    var own := AuthLeafOn(validate, s, ev);
    if own.Some? then own
    else if ev != Login then None
    else if s.config.auth == PendingAuthorization then Some(Reaction(s, [], []))
    else Some(AuthMove(s, PendingAuthorization, s.ctx, [], None))
  }

  /**
   * The document region: only the outcomes of `fetching`.  When the fetched
   * gist has no `machine.js`, reading its content throws inside the
   * assignment, so the done transition is not taken: the region stays in
   * `fetching`.
   */
  function DocOn(s: State, ev: Event): (r: Option<Reaction>)
    ensures r.Some? <==> s.config.doc == Fetching && ((ev.DoneFetch? && ev.machineFile.Some?) || ev.ErrorFetch?)
    ensures r.Some? ==> r.value.raised == [] && r.value.state.config.auth == s.config.auth
    ensures r.Some? ==> r.value.state.ctx.query == s.ctx.query && r.value.state.ctx.pendingSave == s.ctx.pendingSave
  {
    if s.config.doc != Fetching then None
    else match ev
      case DoneFetch(Some(content)) => Some(DocMove(s, Loaded, s.ctx.(example := Content(content)), []))
      case ErrorFetch => Some(DocMove(s, DocIdle, s.ctx.(gist := None), [Notify(Plain(GistNotFound))]))
      case _ => None
  }

  /** Append a second region's reaction (if any) to the first's. */
  function Then(r: Reaction, next: Option<Reaction>): Reaction
  {
    match next
    case None => r
    case Some(n) => Reaction(n.state, r.raised + n.raised, r.effects + n.effects)
  }

  /** One event, both regions in document order; a region without a transition for `ev` stays. */
  function Step(validate: Validator, s: State, ev: Event): (r: Reaction)
    ensures r.raised == [] && r.state.ctx.query == s.ctx.query
    ensures r.state.config.auth.Authorized? && r.state.ctx.pendingSave ==> s.ctx.pendingSave
  {
    var a := AuthOn(validate, s, ev).GetOr(Reaction(s, [], []));
    Then(a, DocOn(a.state, ev))
  }

  // ---------------------------------------------------- eventless transitions

  /** No eventless transition is enabled in `s`. */
  predicate Settled(s: State)
  {
    && s.config.auth != CheckingCode
    && s.config.doc != Checking
    && !(s.config.auth.Authorized? && s.ctx.pendingSave)
  }

  /** How many eventless transitions can still fire: each one removes one. */
  function Pending(s: State): nat
  {
    (if s.config.auth == CheckingCode then 1 else 0)
    + (if s.config.doc == Checking then 1 else 0)
    + (if s.config.auth.Authorized? && s.ctx.pendingSave then 1 else 0)
  }

  /** The eventless transitions of the `auth` region (none enters `authorized`). */
  function AuthEventless(s: State): (r: Option<Reaction>)
    ensures r.Some? <==> s.config.auth == CheckingCode || (s.config.auth.Authorized? && s.ctx.pendingSave)
    ensures r.Some? ==> r.value.state.config.doc == s.config.doc && r.value.state.ctx.query == s.ctx.query
    ensures r.Some? && s.config.auth == CheckingCode ==>
      r.value.state.config.auth in {Authorizing, GettingUser, Unauthorized} && r.value.raised == []
  {
    match s.config.auth
    case CheckingCode =>
      if Truthy(s.ctx.query.code) then Some(AuthMove(s, Authorizing, s.ctx, [], None))
      else if Truthy(s.ctx.token) then Some(AuthMove(s, GettingUser, s.ctx, [], None))
      else Some(AuthMove(s, Unauthorized, s.ctx.(example := Light), [], None))
    case Authorized(_) =>
      // targetless: no state is exited or entered
      if s.ctx.pendingSave
      then Some(Reaction(State(s.config, s.ctx.(pendingSave := false)), [GistSave(None)], []))
      else None
    case _ => None
  }

  /** The eventless transitions of the document region. */
  function DocEventless(s: State): (r: Option<Reaction>)
    ensures r.Some? <==> s.config.doc == Checking
    ensures r.Some? ==> r.value.state.config.auth == s.config.auth && r.value.state.ctx == s.ctx && r.value.raised == []
    ensures r.Some? ==> r.value.state.config.doc in {Fetching, DocIdle}
    ensures r.Some? ==> (r.value.state.config.doc == Fetching <==> Truthy(s.ctx.query.gist))
  {
    if s.config.doc != Checking then None
    else if Truthy(s.ctx.query.gist) then Some(DocMove(s, Fetching, s.ctx, []))
    else Some(DocMove(s, DocIdle, s.ctx, []))
  }

  /** One round of eventless transitions, every enabled region at once. */
  function Eventless(s: State): (r: Option<Reaction>)
    ensures r.None? <==> Settled(s)
    ensures r.Some? ==> Pending(r.value.state) < Pending(s)
    ensures r.Some? ==> r.value.state.ctx.query == s.ctx.query
    ensures r.Some? && r.value.state.ctx.pendingSave ==> s.ctx.pendingSave
    ensures r.Some? && r.value.raised != [] ==>
      r.value.raised == [GistSave(None)] && s.config.auth.Authorized? && s.ctx.pendingSave
      && !r.value.state.ctx.pendingSave
  {
    var a := AuthEventless(s);
    var d := DocEventless(a.GetOr(Reaction(s, [], [])).state);
    if a.None? && d.None? then None
    else Some(Then(a.GetOr(Reaction(s, [], [])), d))
  }

  /** Take eventless rounds until none is enabled, accumulating raised events and effects. */
  function Settle(r: Reaction): (out: Reaction)
    decreases Pending(r.state)
    ensures Settled(out.state)
    ensures out.state.ctx.query == r.state.ctx.query
    ensures out.state.ctx.pendingSave ==> r.state.ctx.pendingSave
    ensures |out.raised| <= |r.raised| + 1
    ensures r.raised <= out.raised && r.effects <= out.effects
    ensures |out.raised| > |r.raised| ==>
      out.raised[|r.raised|] == GistSave(None) && r.state.config.auth.Authorized?
      && r.state.ctx.pendingSave && !out.state.ctx.pendingSave
  {
    match Eventless(r.state)
    case None => r
    case Some(e) => Settle(Reaction(e.state, r.raised + e.raised, r.effects + e.effects))
  }

  /** Process one event to completion. */
  function Macrostep(validate: Validator, s: State, ev: Event): (r: Reaction)
    ensures Settled(r.state) && r.state.ctx.query == s.ctx.query
    ensures Step(validate, s, ev).effects <= r.effects
    ensures r.raised == [] || (r.raised == [GistSave(None)] && s.ctx.pendingSave && !r.state.ctx.pendingSave)
  {
    Settle(Step(validate, s, ev))
  }

  // -------------------------------------------------------- start and queue

  /** The machine's initial context: `gist` is `query.gist || undefined`. */
  function InitialContext(query: Query, envToken: Option<string>): (c: Context)
    ensures c.query == query && c.token == envToken && c.example == Omni && c.user.None? && !c.pendingSave
    ensures Truthy(c.gist) <==> Truthy(query.gist)
    ensures c.gist.Some? ==> c.gist == query.gist && c.gist.value != ""
  {
    Context(query, envToken, Omni, None, if Truthy(query.gist) then query.gist else None, false)
  }

  /** Start the machine: invoke the code listener, enter both initial leaves, settle. */
  function Startup(query: Query, envToken: Option<string>): (r: Reaction)
    ensures Settled(r.state) && r.state.ctx.query == query && r.raised == []
    ensures |r.effects| >= 1 && r.effects[0] == Invoke(CodeListener)
  {
    Settle(Reaction(State(Config(CheckingCode, Checking), InitialContext(query, envToken)), [], [Invoke(CodeListener)]))
  }

  /**
   * Drain the event queue in FIFO order; events a macrostep sends to itself
   * go to the back.  Terminates because only the deferred save raises, and
   * it clears the flag it needs.
   */
  function Run(validate: Validator, s: State, queue: seq<Event>): (r: (State, seq<Effect>))
    decreases 2 * |queue| + (if s.ctx.pendingSave then 1 else 0)
    ensures r.0.ctx.query == s.ctx.query
  {
    if queue == [] then (s, [])
    else
      var m := Macrostep(validate, s, queue[0]);
      var rest := Run(validate, m.state, queue[1..] + m.raised);
      (rest.0, m.effects + rest.1)
  }
}
