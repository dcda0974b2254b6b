/**
 * Properties of the application statechart.  Most are stated for a settled
 * state (`Settled`): every macrostep ends in one (`Settle` ensures it), so
 * these are the states the running machine is ever in between events.
 */
module AppMachineProperties {
  import opened Wrappers
  import opened AppMachine

  // ------------------------------------------------------------- settling

  /** Settling a settled state takes no transition. */
  lemma SettleSettled(r: Reaction)
    requires Settled(r.state)
    ensures Settle(r) == r
  {
  }

  /** When the step already ends settled, the macrostep is the step. */
  lemma MacrostepIsStep(validate: Validator, s: State, ev: Event)
    requires Settled(Step(validate, s, ev).state)
    ensures Macrostep(validate, s, ev) == Step(validate, s, ev)
  {
    SettleSettled(Step(validate, s, ev));
  }

  /** When one eventless round reaches a settled state, settling is that round. */
  lemma SettleOneRound(r: Reaction)
    requires Eventless(r.state).Some? && Settled(Eventless(r.state).value.state)
    ensures var e := Eventless(r.state).value;
      Settle(r) == Reaction(e.state, r.raised + e.raised, r.effects + e.effects)
  {
    var e := Eventless(r.state).value;
    SettleSettled(Reaction(e.state, r.raised + e.raised, r.effects + e.effects));
  }

  /**
   * From a settled state, the only eventless transition a single event can
   * enable is the deferred-save replay, on the user record arriving while a
   * save is pending.
   */
  lemma MacrostepFromSettled(validate: Validator, s: State, ev: Event)
    requires Settled(s)
    ensures var st := Step(validate, s, ev);
      Macrostep(validate, s, ev)
        == if ev.DoneUser? && s.config.auth == GettingUser && s.ctx.pendingSave
           then Reaction(st.state.(ctx := st.state.ctx.(pendingSave := false)), [GistSave(None)], st.effects)
           else st
  {
    var st := Step(validate, s, ev);
    if ev.DoneUser? && s.config.auth == GettingUser && s.ctx.pendingSave {
      SettleOneRound(st);
    } else {
      MacrostepIsStep(validate, s, ev);
    }
  }

  // ------------------------------------------------------------ startup

  /**
   * Startup routing of `checkingCode` is first-match: an authorization code
   * in the query wins over a token; only the anonymous branch changes the
   * context (the editor shows the light example).  The document region
   * fetches iff the query names a gist.
   */
  lemma StartupRouting(query: Query, envToken: Option<string>)
    ensures var r := Startup(query, envToken);
      var ctx0 := InitialContext(query, envToken);
      && (Truthy(query.code) ==> r.state.config.auth == Authorizing && r.state.ctx == ctx0)
      && (!Truthy(query.code) && Truthy(envToken) ==> r.state.config.auth == GettingUser && r.state.ctx == ctx0)
      && (!Truthy(query.code) && !Truthy(envToken) ==>
            r.state.config.auth == Unauthorized && r.state.ctx == ctx0.(example := Light))
      && r.state.config.doc == (if Truthy(query.gist) then Fetching else DocIdle)
      && r.raised == []
      && r.effects == [Invoke(CodeListener)]
                      + (if Truthy(query.code) then [Invoke(ExchangeCode(None))]
                         else if Truthy(envToken) then [Invoke(GetUser(envToken))]
                         else [])
                      + (if Truthy(query.gist) then [Invoke(FetchGist(query.gist))] else [])
  {
    SettleOneRound(Reaction(State(Config(CheckingCode, Checking), InitialContext(query, envToken)), [], [Invoke(CodeListener)]));
  }

  // ------------------------------------------------- authorization outcomes

  /** `authorizing` done: `gettingUser` with the returned token, which the user lookup then uses. */
  lemma AuthorizingDone(validate: Validator, s: State, t: Option<string>)
    requires Settled(s) && s.config.auth == Authorizing
    ensures Macrostep(validate, s, DoneAuthorizing(t))
         == Reaction(State(s.config.(auth := GettingUser), s.ctx.(token := t)), [], [Invoke(GetUser(t))])
  {
    MacrostepFromSettled(validate, s, DoneAuthorizing(t));
  }

  /** `authorizing` error: `unauthorized`, context (token included) unchanged, the reason alerted. */
  lemma AuthorizingError(validate: Validator, s: State, m: string)
    requires Settled(s) && s.config.auth == Authorizing
    ensures Macrostep(validate, s, ErrorAuthorizing(m))
         == Reaction(State(s.config.(auth := Unauthorized), s.ctx), [], [Alert(m)])
  {
    MacrostepFromSettled(validate, s, ErrorAuthorizing(m));
  }

  /**
   * `gettingUser` done: `authorized` (gist sub-region at `idle.default`) with
   * the user record; a save deferred before sign-in is replayed exactly once,
   * as a `GIST.SAVE` without a `code`, and the flag is cleared.
   */
  lemma GettingUserDone(validate: Validator, s: State, u: string)
    requires Settled(s) && s.config.auth == GettingUser
    ensures var r := Macrostep(validate, s, DoneUser(u));
      && r.state.config == s.config.(auth := Authorized(IdleDefault))
      && r.state.ctx == s.ctx.(user := Some(u), pendingSave := false)
      && r.raised == (if s.ctx.pendingSave then [GistSave(None)] else [])
      && r.effects == []
  {
    MacrostepFromSettled(validate, s, DoneUser(u));
  }

  /** `gettingUser` error: `unauthorized`, context unchanged, nothing shown. */
  lemma GettingUserError(validate: Validator, s: State)
    requires Settled(s) && s.config.auth == GettingUser
    ensures Macrostep(validate, s, ErrorUser) == Reaction(State(s.config.(auth := Unauthorized), s.ctx), [], [])
  {
    MacrostepFromSettled(validate, s, ErrorUser);
  }

  // ------------------------------------------- moving between auth states

  /** `GIST.SAVE` while `unauthorized`: remember it, open the login window, change nothing else. */
  lemma SaveWhileUnauthorized(validate: Validator, s: State, c: Option<string>)
    requires Settled(s) && s.config.auth == Unauthorized
    ensures Macrostep(validate, s, GistSave(c))
         == Reaction(State(s.config.(auth := PendingAuthorization), s.ctx.(pendingSave := true)), [], [OpenLoginWindow])
  {
    MacrostepFromSettled(validate, s, GistSave(c));
  }

  /** A save requested while sign-in is in progress is dropped: nothing changes. */
  lemma SaveDroppedWhileSigningIn(validate: Validator, s: State, c: Option<string>)
    requires Settled(s)
    requires s.config.auth in {Authorizing, GettingUser, PendingAuthorization}
    ensures Macrostep(validate, s, GistSave(c)) == Reaction(s, [], [])
  {
    MacrostepFromSettled(validate, s, GistSave(c));
  }

  /** `CODE` in `pendingAuthorization`: `authorizing`, exchanging that very code. */
  lemma CodeWhilePending(validate: Validator, s: State, c: string)
    requires Settled(s) && s.config.auth == PendingAuthorization
    ensures Macrostep(validate, s, Code(c))
         == Reaction(State(s.config.(auth := Authorizing), s.ctx), [], [Invoke(ExchangeCode(Some(c)))])
  {
    MacrostepFromSettled(validate, s, Code(c));
  }

  /** `CODE` anywhere else is ignored. */
  lemma CodeElsewhereIgnored(validate: Validator, s: State, c: string)
    requires Settled(s) && s.config.auth != PendingAuthorization
    ensures Macrostep(validate, s, Code(c)) == Reaction(s, [], [])
  {
    MacrostepFromSettled(validate, s, Code(c));
  }

  /**
   * `LOGIN` from every `auth` leaf goes to `pendingAuthorization`; the login
   * window opens on entering it, so not when it is already active.
   */
  lemma LoginFromAnywhere(validate: Validator, s: State)
    requires Settled(s)
    ensures Macrostep(validate, s, Login)
         == Reaction(State(s.config.(auth := PendingAuthorization), s.ctx), [],
                     if s.config.auth == PendingAuthorization then [] else [OpenLoginWindow])
  {
    MacrostepFromSettled(validate, s, Login);
  }

  /** `LOGOUT` acts exactly in `authorized`: `unauthorized`, token and user cleared, nothing else changed. */
  lemma LogoutOnlyWhenAuthorized(validate: Validator, s: State)
    requires Settled(s)
    ensures var r := Macrostep(validate, s, Logout);
      && r.raised == [] && r.effects == []
      && (s.config.auth.Authorized? ==>
            r.state == State(s.config.(auth := Unauthorized), s.ctx.(token := None, user := None)))
      && (!s.config.auth.Authorized? ==> r.state == s)
  {
    MacrostepFromSettled(validate, s, Logout);
  }

  // ------------------------------------------------------ deferred save

  /**
   * On entering `authorized` with a pending save the targetless eventless
   * transition clears the flag and sends one `GIST.SAVE` without a payload;
   * the gist sub-state is not changed and the flag cannot fire twice.
   */
  lemma PendingSaveReplay(s: State)
    requires s.config.auth.Authorized? && s.ctx.pendingSave && s.config.doc != Checking
    ensures Settle(Reaction(s, [], [])) == Reaction(State(s.config, s.ctx.(pendingSave := false)), [GistSave(None)], [])
  {
  }

  /**
   * The whole deferred-save cycle, through the event queue: a save while
   * `unauthorized`, then the code, the token and the user record, lead to
   * `authorized` with the flag cleared and one replayed `GIST.SAVE` queued
   * behind whatever events were already waiting.
   */
  lemma {:induction false} DeferredSaveCycle(validate: Validator, s: State, c: Option<string>,
                                             k: string, t: Option<string>, u: string, rest: seq<Event>)
    requires Settled(s) && s.config.auth == Unauthorized
    ensures var signedIn := State(s.config.(auth := Authorized(IdleDefault)),
                                  s.ctx.(token := t, user := Some(u), pendingSave := false));
      var r := Run(validate, signedIn, rest + [GistSave(None)]);
      Run(validate, s, [GistSave(c), Code(k), DoneAuthorizing(t), DoneUser(u)] + rest)
        == (r.0, [OpenLoginWindow, Invoke(ExchangeCode(Some(k))), Invoke(GetUser(t))] + r.1)
  {
    var s1 := State(s.config.(auth := PendingAuthorization), s.ctx.(pendingSave := true));
    var signedIn := State(s.config.(auth := Authorized(IdleDefault)), s.ctx.(token := t, user := Some(u), pendingSave := false));
    var r := Run(validate, signedIn, rest + [GistSave(None)]);
    assert s1.ctx.(token := t, user := Some(u), pendingSave := false) == signedIn.ctx;
    assert s1.config.(auth := Authorized(IdleDefault)) == signedIn.config;
    assert Settled(s1);
    SignInCycle(validate, s1, k, t, u, rest, signedIn);
    SplitHead3(GistSave(c), [Code(k), DoneAuthorizing(t), DoneUser(u)], rest);
    SaveLink(validate, s, c, [Code(k), DoneAuthorizing(t), DoneUser(u)] + rest, s1);
    JoinHead2(OpenLoginWindow, [Invoke(ExchangeCode(Some(k))), Invoke(GetUser(t))], r.1);
  }

  /** Sign-in with a save pending: code, token and user record, then the replay at the back of the queue. */
  lemma {:induction false} SignInCycle(validate: Validator, s: State, k: string, t: Option<string>, u: string,
                                       rest: seq<Event>, signedIn: State)
    requires Settled(s) && s.config.auth == PendingAuthorization && s.ctx.pendingSave
    requires signedIn == State(s.config.(auth := Authorized(IdleDefault)), s.ctx.(token := t, user := Some(u), pendingSave := false))
    ensures var r := Run(validate, signedIn, rest + [GistSave(None)]);
      Run(validate, s, [Code(k), DoneAuthorizing(t), DoneUser(u)] + rest)
        == (r.0, [Invoke(ExchangeCode(Some(k))), Invoke(GetUser(t))] + r.1)
  {
    var s2 := s.(config := s.config.(auth := Authorizing));
    var r := Run(validate, signedIn, rest + [GistSave(None)]);
    TokenCycle(validate, s2, t, u, rest, signedIn);
    SplitHead2(Code(k), [DoneAuthorizing(t), DoneUser(u)], rest);
    CodeLink(validate, s, k, [DoneAuthorizing(t), DoneUser(u)] + rest, s2);
    JoinHead1(Invoke(ExchangeCode(Some(k))), Invoke(GetUser(t)), r.1);
  }

  /** The token and then the user record, with a save pending. */
  lemma {:induction false} TokenCycle(validate: Validator, s: State, t: Option<string>, u: string,
                                      rest: seq<Event>, signedIn: State)
    requires Settled(s) && s.config.auth == Authorizing && s.ctx.pendingSave
    requires signedIn == State(s.config.(auth := Authorized(IdleDefault)), s.ctx.(token := t, user := Some(u), pendingSave := false))
    ensures var r := Run(validate, signedIn, rest + [GistSave(None)]);
      Run(validate, s, [DoneAuthorizing(t), DoneUser(u)] + rest) == (r.0, [Invoke(GetUser(t))] + r.1)
  {
    var s3 := State(s.config.(auth := GettingUser), s.ctx.(token := t));
    UserLink(validate, s3, u, rest, signedIn);
    SplitHead1(DoneAuthorizing(t), DoneUser(u), rest);
    TokenLink(validate, s, t, [DoneUser(u)] + rest, s3);
  }

  /** `Run` on a queue headed by a save while `unauthorized`. */
  lemma SaveLink(validate: Validator, s: State, c: Option<string>, rest: seq<Event>, next: State)
    requires Settled(s) && s.config.auth == Unauthorized
    requires next == State(s.config.(auth := PendingAuthorization), s.ctx.(pendingSave := true))
    ensures var r := Run(validate, next, rest);
      Run(validate, s, [GistSave(c)] + rest) == (r.0, [OpenLoginWindow] + r.1)
  {
    SaveWhileUnauthorized(validate, s, c);
    RunCons(validate, s, GistSave(c), rest);
    assert rest + [] == rest;
  }

  /** `Run` on a queue headed by the code, in `pendingAuthorization`. */
  lemma CodeLink(validate: Validator, s: State, k: string, rest: seq<Event>, next: State)
    requires Settled(s) && s.config.auth == PendingAuthorization
    requires next == s.(config := s.config.(auth := Authorizing))
    ensures var r := Run(validate, next, rest);
      Run(validate, s, [Code(k)] + rest) == (r.0, [Invoke(ExchangeCode(Some(k)))] + r.1)
  {
    CodeWhilePending(validate, s, k);
    RunCons(validate, s, Code(k), rest);
    assert rest + [] == rest;
  }

  /** `Run` on a queue headed by the access token, in `authorizing`. */
  lemma TokenLink(validate: Validator, s: State, t: Option<string>, rest: seq<Event>, next: State)
    requires Settled(s) && s.config.auth == Authorizing
    requires next == State(s.config.(auth := GettingUser), s.ctx.(token := t))
    ensures var r := Run(validate, next, rest);
      Run(validate, s, [DoneAuthorizing(t)] + rest) == (r.0, [Invoke(GetUser(t))] + r.1)
  {
    AuthorizingDone(validate, s, t);
    RunCons(validate, s, DoneAuthorizing(t), rest);
    assert rest + [] == rest;
  }

  /** `Run` on a queue headed by the user record while a save is pending: the replay goes to the back. */
  lemma UserLink(validate: Validator, s: State, u: string, rest: seq<Event>, next: State)
    requires Settled(s) && s.config.auth == GettingUser && s.ctx.pendingSave
    requires next == State(s.config.(auth := Authorized(IdleDefault)), s.ctx.(user := Some(u), pendingSave := false))
    ensures Run(validate, s, [DoneUser(u)] + rest) == Run(validate, next, rest + [GistSave(None)])
  {
    GettingUserDone(validate, s, u);
    RunCons(validate, s, DoneUser(u), rest);
    var r := Run(validate, next, rest + [GistSave(None)]);
    assert [] + r.1 == r.1;
  }

  // Regrouping queue and effect literals (kept apart from the heavy contexts above).

  lemma SplitHead1<T>(a: T, b: T, rest: seq<T>)
    ensures [a, b] + rest == [a] + ([b] + rest)
  {
  }

  lemma SplitHead2<T>(a: T, tail: seq<T>, rest: seq<T>)
    requires |tail| == 2
    ensures [a, tail[0], tail[1]] + rest == [a] + (tail + rest)
  {
  }

  lemma SplitHead3<T>(a: T, tail: seq<T>, rest: seq<T>)
    requires |tail| == 3
    ensures [a, tail[0], tail[1], tail[2]] + rest == [a] + (tail + rest)
  {
  }

  lemma JoinHead1<T>(a: T, b: T, xs: seq<T>)
    ensures [a] + ([b] + xs) == [a, b] + xs
  {
  }

  lemma JoinHead2<T>(a: T, tail: seq<T>, xs: seq<T>)
    requires |tail| == 2
    ensures [a] + (tail + xs) == [a, tail[0], tail[1]] + xs
  {
  }

  /** Processing the head of the queue, as `Run` does. */
  lemma RunCons(validate: Validator, s: State, ev: Event, rest: seq<Event>)
    ensures var m := Macrostep(validate, s, ev);
      var r := Run(validate, m.state, rest + m.raised);
      Run(validate, s, [ev] + rest) == (r.0, m.effects + r.1)
  {
    assert ([ev] + rest)[0] == ev;
    assert ([ev] + rest)[1..] == rest;
  }

  /** From a settled state a `GIST.SAVE` sends nothing to itself and ends settled. */
  lemma SaveRaisesNothing(validate: Validator, s: State, c: Option<string>)
    requires Settled(s)
    ensures Macrostep(validate, s, GistSave(c)).raised == []
  {
    MacrostepFromSettled(validate, s, GistSave(c));
  }

  // ------------------------------------------------ save while authorized

  /**
   * `GIST.SAVE` while `authorized`, from any gist sub-state, is first-match:
   * an invalid machine goes to `idle` with a failure notification and no
   * request; otherwise a known gist is saved to, else a new one is posted.
   * A request starts only when its state is entered, so not when a save
   * arrives while that same request state is active.  The context never
   * changes.
   */
  lemma SaveDispatch(validate: Validator, s: State, g: GistState, c: Option<string>)
    requires Settled(s) && s.config.auth == Authorized(g)
    ensures var r := Macrostep(validate, s, GistSave(c));
      && r.raised == [] && r.state.ctx == s.ctx && r.state.config.doc == s.config.doc
      && (validate(c).Some? ==>
            r.state.config.auth == Authorized(IdleDefault)
            && r.effects == [Notify(Detailed(FailedToSave, ErrorSeverity, validate(c).value))])
      && (validate(c).None? && Truthy(s.ctx.gist) ==>
            r.state.config.auth == Authorized(Patching)
            && r.effects == (if g == Patching then [] else [Invoke(SaveGist(s.ctx.gist, s.ctx.token, c))]))
      && (validate(c).None? && !Truthy(s.ctx.gist) ==>
            r.state.config.auth == Authorized(Posting)
            && r.effects == (if g == Posting then [] else [Invoke(PostGist(s.ctx.token, c))]))
  {
    MacrostepFromSettled(validate, s, GistSave(c));
  }

  /** An effect that sends the machine to GitHub to be saved. */
  predicate IsSaveRequest(e: Effect)
  {
    e.Invoke? && (e.service.SaveGist? || e.service.PostGist?)
  }

  /**
   * A save request is only ever issued by a valid `GIST.SAVE` while
   * `authorized`, and it goes to the existing gist exactly when a gist id is
   * known.
   */
  lemma SaveRequestsNeedValidSave(validate: Validator, s: State, ev: Event)
    requires Settled(s)
    ensures var r := Macrostep(validate, s, ev);
      forall e | e in r.effects && IsSaveRequest(e) ::
        && ev.GistSave? && validate(ev.saveCode).None? && s.config.auth.Authorized?
        && e.service == (if Truthy(s.ctx.gist) then SaveGist(s.ctx.gist, s.ctx.token, ev.saveCode)
                         else PostGist(s.ctx.token, ev.saveCode))
  {
    MacrostepFromSettled(validate, s, ev);
    match ev {
      case GistSave(c) =>
        match s.config.auth {
          case Authorized(g) => SaveDispatch(validate, s, g, c);
          case Unauthorized => SaveWhileUnauthorized(validate, s, c);
          case _ => SaveDroppedWhileSigningIn(validate, s, c);
        }
      case _ => OnlySavesRequestSaves(validate, s, ev);
    }
  }

  /** The effects of any other event hold no save request. */
  lemma OnlySavesRequestSaves(validate: Validator, s: State, ev: Event)
    requires !ev.GistSave?
    ensures forall e | e in Step(validate, s, ev).effects :: !IsSaveRequest(e)
  {
    if s.config.auth.Authorized? {
      var moved := GistOn(validate, s.config.auth.gistState, s.ctx, ev);
      assert moved.Some? ==> moved.value.0 !in {Patching, Posting};
    }
  }

  // --------------------------------------------------------- save outcomes

  /** `posting` done: `idle.posted`, the new gist id stored and written to the address bar. */
  lemma PostingDone(validate: Validator, s: State, id: string)
    requires Settled(s) && s.config.auth == Authorized(Posting)
    ensures Macrostep(validate, s, DonePosting(id))
         == Reaction(State(s.config.(auth := Authorized(IdlePosted)), s.ctx.(gist := Some(id))), [],
                     [Notify(Plain(GistCreated)), UpdateQuery(Some(id))])
  {
    MacrostepFromSettled(validate, s, DonePosting(id));
  }

  /** `patching` done: `idle.patched`, context unchanged. */
  lemma PatchingDone(validate: Validator, s: State)
    requires Settled(s) && s.config.auth == Authorized(Patching)
    ensures Macrostep(validate, s, DonePatching)
         == Reaction(State(s.config.(auth := Authorized(IdlePatched)), s.ctx), [], [Notify(Plain(GistSaved))])
  {
    MacrostepFromSettled(validate, s, DonePatching);
  }

  /** `patching` error: `idle` (its default child), with the error's message in the notification. */
  lemma PatchingError(validate: Validator, s: State, m: string)
    requires Settled(s) && s.config.auth == Authorized(Patching)
    ensures Macrostep(validate, s, ErrorPatching(m))
         == Reaction(State(s.config.(auth := Authorized(IdleDefault)), s.ctx), [],
                     [Notify(Detailed(UnableToSave, ErrorSeverity, m))])
  {
    MacrostepFromSettled(validate, s, ErrorPatching(m));
  }

  /** `posting` has no error transition: a failed post changes nothing, in any state. */
  lemma PostingErrorIgnored(validate: Validator, s: State, m: string)
    ensures Step(validate, s, ErrorPosting(m)) == Reaction(s, [], [])
  {
  }

  /** The "saved" indicator clears itself: the timer takes `patched`/`posted` to `default`, and does nothing elsewhere. */
  lemma TimerReset(validate: Validator, s: State)
    requires Settled(s)
    ensures var r := Macrostep(validate, s, Timeout);
      && r.raised == [] && r.effects == [] && r.state.ctx == s.ctx
      && (s.config.auth in {Authorized(IdlePatched), Authorized(IdlePosted)} ==>
            r.state.config == s.config.(auth := Authorized(IdleDefault)))
      && (s.config.auth !in {Authorized(IdlePatched), Authorized(IdlePosted)} ==> r.state == s)
  {
    MacrostepFromSettled(validate, s, Timeout);
  }

  /** Posting round trip: the returned id is kept after the indicator has cleared. */
  lemma {:induction false} PostThenTimeout(validate: Validator, s: State, id: string)
    requires Settled(s) && s.config.auth == Authorized(Posting)
    ensures Run(validate, s, [DonePosting(id), Timeout])
         == (State(s.config.(auth := Authorized(IdleDefault)), s.ctx.(gist := Some(id))),
             [Notify(Plain(GistCreated)), UpdateQuery(Some(id))])
  {
    var s1 := State(s.config.(auth := Authorized(IdlePosted)), s.ctx.(gist := Some(id)));
    PostingDone(validate, s, id);
    TimerReset(validate, s1);
    var s2 := State(s.config.(auth := Authorized(IdleDefault)), s.ctx.(gist := Some(id)));
    assert [DonePosting(id), Timeout][1..] + [] == [Timeout];
    assert [Timeout][1..] + [] == [];
    assert Run(validate, s2, []) == (s2, []);
    assert Run(validate, s1, [Timeout]) == (s2, []);
  }

  // ------------------------------------------------------ document region

  /** Fetch done: `loaded`, the gist's content in the editor, "Gist loaded!" on entry. */
  lemma FetchDone(validate: Validator, s: State, content: string)
    requires Settled(s) && s.config.doc == Fetching
    ensures Macrostep(validate, s, DoneFetch(Some(content)))
         == Reaction(State(s.config.(doc := Loaded), s.ctx.(example := Content(content))), [], [Notify(Plain(GistLoaded))])
  {
    MacrostepFromSettled(validate, s, DoneFetch(Some(content)));
  }

  /**
   * A fetched gist without `machine.js` is not loaded: the assignment throws
   * and nothing changes.  Only the fetch's own outcomes leave `fetching`,
   * and that fetch has already finished, so the region stays there.
   */
  lemma FetchWithoutMachineFile(validate: Validator, s: State, ev: Event)
    requires Settled(s) && s.config.doc == Fetching
    ensures Macrostep(validate, s, DoneFetch(None)) == Reaction(s, [], [])
    ensures !ev.DoneFetch? && !ev.ErrorFetch? ==> Macrostep(validate, s, ev).state.config.doc == Fetching
  {
    MacrostepFromSettled(validate, s, DoneFetch(None));
    MacrostepFromSettled(validate, s, ev);
  }

  /** Fetch error: `idle`, the gist id forgotten, "Gist not found.". */
  lemma FetchError(validate: Validator, s: State)
    requires Settled(s) && s.config.doc == Fetching
    ensures Macrostep(validate, s, ErrorFetch)
         == Reaction(State(s.config.(doc := DocIdle), s.ctx.(gist := None)), [], [Notify(Plain(GistNotFound))])
  {
    MacrostepFromSettled(validate, s, ErrorFetch);
  }

  // ---------------------------------------------------- stale outcomes

  /** The outcome events of invoked services and timers. */
  predicate IsOutcome(ev: Event)
  {
    ev.DoneAuthorizing? || ev.ErrorAuthorizing? || ev.DoneUser? || ev.ErrorUser?
    || ev.DonePatching? || ev.ErrorPatching? || ev.DonePosting? || ev.ErrorPosting?
    || ev.DoneFetch? || ev.ErrorFetch? || ev.Timeout?
  }

  /** The state that owns the invocation or timer an outcome belongs to is active. */
  predicate OwnerActive(s: State, ev: Event)
  {
    match ev
    case DoneAuthorizing(_) => s.config.auth == Authorizing
    case ErrorAuthorizing(_) => s.config.auth == Authorizing
    case DoneUser(_) => s.config.auth == GettingUser
    case ErrorUser => s.config.auth == GettingUser
    case DonePatching => s.config.auth == Authorized(Patching)
    case ErrorPatching(_) => s.config.auth == Authorized(Patching)
    case DonePosting(_) => s.config.auth == Authorized(Posting)
    case DoneFetch(_) => s.config.doc == Fetching
    case ErrorFetch => s.config.doc == Fetching
    case Timeout => s.config.auth == Authorized(IdlePatched) || s.config.auth == Authorized(IdlePosted)
    case _ => false
  }

  /**
   * An outcome acts iff its owner is still active: a stale result changes
   * neither configuration nor context and shows nothing; a live one always
   * moves its region, except a fetched gist without `machine.js`
   * (`FetchWithoutMachineFile`).
   */
  lemma OutcomeActsIffOwnerActive(validate: Validator, s: State, ev: Event)
    requires Settled(s) && IsOutcome(ev)
    ensures var r := Macrostep(validate, s, ev);
      && (!OwnerActive(s, ev) ==> r == Reaction(s, [], []))
      && (OwnerActive(s, ev) && ev != DoneFetch(None) ==> r.state.config != s.config)
  {
    MacrostepFromSettled(validate, s, ev);
  }

  // ----------------------------------------------------------- invariant

  /** What holds of the machine between events. */
  predicate Inv(s: State)
  {
    && Settled(s)
    && (s.config.auth.Authorized? ==> s.ctx.user.Some?)
    && (s.config.doc == Loaded ==> s.ctx.example.Content?)
    && (s.config.doc == Fetching ==> Truthy(s.ctx.query.gist))
  }

  lemma StartupEstablishesInv(query: Query, envToken: Option<string>)
    ensures Inv(Startup(query, envToken).state)
  {
    StartupRouting(query, envToken);
  }

  lemma MacrostepPreservesInv(validate: Validator, s: State, ev: Event)
    requires Inv(s)
    ensures Inv(Macrostep(validate, s, ev).state)
  {
    MacrostepFromSettled(validate, s, ev);
  }

  /** Every queue of events, however long, keeps the invariant. */
  lemma {:induction false} RunPreservesInv(validate: Validator, s: State, queue: seq<Event>)
    requires Inv(s)
    ensures Inv(Run(validate, s, queue).0)
    decreases 2 * |queue| + (if s.ctx.pendingSave then 1 else 0)
  {
    if queue != [] {
      var m := Macrostep(validate, s, queue[0]);
      MacrostepPreservesInv(validate, s, queue[0]);
      RunPreservesInv(validate, m.state, queue[1..] + m.raised);
    }
  }
}
