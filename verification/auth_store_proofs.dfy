/** Properties of the session store that relate several steps or hold over
    whole traces, and the ones that do not hold over whole traces. */
module AuthStoreProofs {
  import opened Wrappers
  import opened AuthStore

  /** Every `getSession` the init effect issues comes right after the
      subscription. */
  ghost predicate LookupFollowsSubscribe(calls: seq<Call>) {
    forall k :: 0 <= k < |calls| && calls[k] == GetSession(FromInit) ==> 0 < k && calls[k - 1] == Subscribe
  }

  /** What holds of every machine a trace from `Start` reaches. */
  ghost predicate Inv(m: Machine) {
    && m.auth.user == UserOf(m.auth.session)
    && (m.subscribed ==> m.auth.didInit)
    && multiset(m.calls)[Subscribe] == (if m.auth.didInit then 1 else 0)
    && multiset(m.calls)[GetSession(FromInit)] == (if m.auth.didInit then 1 else 0)
    && LookupFollowsSubscribe(m.calls)
  }

  lemma AppendKeepsOrder(calls: seq<Call>, c: Call)
    requires LookupFollowsSubscribe(calls)
    requires c != GetSession(FromInit)
    ensures LookupFollowsSubscribe(calls + [c])
  {
    var calls' := calls + [c];
    forall k | 0 <= k < |calls'| && calls'[k] == GetSession(FromInit)
      ensures 0 < k && calls'[k - 1] == Subscribe
    {
      assert k < |calls| && calls'[k] == calls[k];
    }
  }

  /** Every step keeps the invariant. */
  lemma {:induction false} StepPreservesInv(m: Machine, e: Event)
    requires Inv(m) && Enabled(m, e)
    ensures Inv(Step(m, e))
  {
    var m' := Step(m, e);
    match e
    case Mount =>
      if !m.auth.didInit {
        var calls' := m.calls + [Subscribe, GetSession(FromInit)];
        assert m'.calls == calls';
        assert GetSession(FromInit) !in m.calls;
      }
    case Unmount =>
    case SignIn(email, password) =>
      AppendKeepsOrder(m.calls, SignInWithPassword(email, password));
    case SignUp(email, password, metadata) =>
      AppendKeepsOrder(m.calls, SignUpWithPassword(email, password, metadata));
    case SignOut =>
      AppendKeepsOrder(m.calls, ProviderSignOut);
    case ProviderEvent(kind, next) =>
    case Settle(i, o) =>
      match m.pending[i]
      case LookupSession(origin) =>
        if o.LookupDone? && o.found.Some? {
          AppendKeepsOrder(m.calls, SelectProfile(o.found.value.user.id));
        }
      case QueryProfile(_, _) =>
      case DeferredFetch(userId) =>
        AppendKeepsOrder(m.calls, SelectProfile(userId));
      case AwaitSignIn =>
        if o.ProviderOk? {
          AppendKeepsOrder(m.calls, GetSession(FromSignIn));
        }
      case AwaitSignUp =>
        if o.ProviderOk? {
          AppendKeepsOrder(m.calls, GetSession(FromSignUp));
        }
      case AwaitSignOut =>
  }

  /** The invariant holds after every valid trace from a machine that has it. */
  lemma {:induction false} RunPreservesInv(m: Machine, trace: seq<Event>)
    requires Inv(m) && ValidTrace(m, trace)
    ensures Inv(Run(m, trace))
    decreases |trace|
  {
    if |trace| > 0 {
      StepPreservesInv(m, trace[0]);
      RunPreservesInv(Step(m, trace[0]), trace[1..]);
    }
  }

  /** Initialisation happens at most once over any trace, however often the
      effect runs: one subscription and one init lookup at most, and the
      init lookup is issued right after the subscription. */
  lemma InitRunsOnce(trace: seq<Event>)
    requires ValidTrace(Start, trace)
    ensures multiset(Run(Start, trace).calls)[Subscribe] <= 1
    ensures multiset(Run(Start, trace).calls)[GetSession(FromInit)] <= 1
    ensures LookupFollowsSubscribe(Run(Start, trace).calls)
  {
    RunPreservesInv(Start, trace);
  }

  /** The store's user always belongs to its session: no step sets one
      without the other. */
  lemma UserFollowsSession(trace: seq<Event>)
    requires ValidTrace(Start, trace)
    ensures Run(Start, trace).auth.user == UserOf(Run(Start, trace).auth.session)
  {
    RunPreservesInv(Start, trace);
  }

  /** A settlement that ends one of the store's operations: the init chain
      (through its `finally`), `signIn`/`signUp` (through theirs) or
      `signOut`. */
  predicate EndsOperation(t: Task, o: Outcome) {
    match t
    case LookupSession(_) => o.Rejected? || (o.LookupDone? && o.found.None?)
    case QueryProfile(_, caller) => caller.Some?
    case DeferredFetch(_) => false
    case AwaitSignIn => !o.ProviderOk?
    case AwaitSignUp => !o.ProviderOk?
    case AwaitSignOut => true
  }

  /** An event that starts an operation: the first init effect, `signIn`,
      `signUp` or `signOut`. */
  predicate StartsOperation(m: Machine, e: Event) {
    (e.Mount? && !m.auth.didInit) || e.SignIn? || e.SignUp? || e.SignOut?
  }

  /** `loading` goes from true to false only in a `finally` that ends an
      operation or on a `SIGNED_OUT` event, and every such step clears it. */
  lemma LoadingClearedOnlyByFinallyOrSignedOut(m: Machine, e: Event)
    requires Enabled(m, e)
    ensures m.auth.loading && !Step(m, e).auth.loading ==>
      (e.ProviderEvent? && e.kind == SignedOut) || (e.Settle? && EndsOperation(m.pending[e.task], e.outcome))
    ensures e.Settle? && EndsOperation(m.pending[e.task], e.outcome) ==> !Step(m, e).auth.loading
    ensures e.ProviderEvent? && e.kind == SignedOut ==> !Step(m, e).auth.loading
  {
  }

  /** `loading` goes from false to true only when an operation starts, and
      every start sets it. */
  lemma LoadingRaisedOnlyByStart(m: Machine, e: Event)
    requires Enabled(m, e)
    ensures !m.auth.loading && Step(m, e).auth.loading ==> StartsOperation(m, e)
    ensures StartsOperation(m, e) ==> Step(m, e).auth.loading
  {
  }

  /** The steps that assign `user`: an auth event, a settled lookup, and a
      sign-out the provider answered. */
  predicate WritesUser(m: Machine, e: Event)
    requires Enabled(m, e)
  {
    || e.ProviderEvent?
    || (e.Settle? && m.pending[e.task].LookupSession? && e.outcome.LookupDone?)
    || (e.Settle? && m.pending[e.task] == AwaitSignOut && !e.outcome.Rejected?)
  }

  /** Clearing the user clears the profile in the same step: every step that
      assigns no user assigns no profile, and no other step touches the user. */
  lemma UserClearedWithProfile(m: Machine, e: Event)
    requires Enabled(m, e)
    ensures WritesUser(m, e) && Step(m, e).auth.user.None? ==> Step(m, e).auth.profile.None?
    ensures !WritesUser(m, e) ==> Step(m, e).auth.user == m.auth.user
  {
  }

  /** A profile fetch only ever writes the profile: session and user stay,
      an error keeps the old profile, a result (even "no row") replaces it. */
  lemma ProfileFetchWritesOnlyProfile(m: Machine, i: nat, o: Outcome)
    requires i < |m.pending| && m.pending[i].QueryProfile? && Accepts(m.pending[i], o)
    ensures Step(m, Settle(i, o)).auth.session == m.auth.session
    ensures Step(m, Settle(i, o)).auth.user == m.auth.user
    ensures o.Row? ==> Step(m, Settle(i, o)).auth.profile == o.row
    ensures !o.Row? ==> Step(m, Settle(i, o)).auth.profile == m.auth.profile
  {
  }

  /** A successful `signIn` from any machine: the provider accepts, the
      lookup finds session `s`, the profile query answers `row`. The store
      then holds `s`, its user and `row`, `loading` is false, and the caller
      got `{ error: null }`; the other pending tasks are as before. */
  lemma SignInScenario(m: Machine, email: string, password: string, s: Session, row: Option<Profile>)
    ensures var n := |m.pending|;
      var trace := [SignIn(email, password), Settle(n, ProviderOk), Settle(n, LookupDone(Some(s))), Settle(n, Row(row))];
      && ValidTrace(m, trace)
      && Run(m, trace).auth == m.auth.(session := Some(s), user := Some(s.user), profile := row, loading := false)
      && Run(m, trace).replies == m.replies + [Returned(SignInOp, None)]
      && Run(m, trace).pending == m.pending
  {
    var n := |m.pending|;
    var trace := [SignIn(email, password), Settle(n, ProviderOk), Settle(n, LookupDone(Some(s))), Settle(n, Row(row))];
    var m1 := Step(m, trace[0]);
    assert m1.pending == m.pending + [AwaitSignIn];
    assert RemoveAt(m1.pending, n) == m.pending;
    var m2 := Step(m1, trace[1]);
    assert m2.pending == m.pending + [LookupSession(FromSignIn)];
    assert RemoveAt(m2.pending, n) == m.pending;
    var m3 := Step(m2, trace[2]);
    assert m3.pending == m.pending + [QueryProfile(s.user.id, Some(FromSignIn))];
    assert RemoveAt(m3.pending, n) == m.pending;
    var m4 := Step(m3, trace[3]);
    var t1, t2, t3 := trace[1..], trace[2..], trace[3..];
    assert t1[0] == trace[1] && t2[0] == trace[2] && t3[0] == trace[3];
    assert t1[1..] == t2 && t2[1..] == t3 && t3[1..] == [];
    assert ValidTrace(m4, t3[1..]) && Run(m4, t3[1..]) == m4;
    assert ValidTrace(m3, t3) && Run(m3, t3) == m4;
    assert ValidTrace(m2, t2) && Run(m2, t2) == m4;
    assert ValidTrace(m1, t1) && Run(m1, t1) == m4;
  }

  /** A `signIn` the provider refuses: only `loading` changes (back to false),
      no lookup is issued, and the caller gets the provider's error. */
  lemma SignInErrorScenario(m: Machine, email: string, password: string, message: string)
    ensures var trace := [SignIn(email, password), Settle(|m.pending|, ProviderError(message))];
      && ValidTrace(m, trace)
      && Run(m, trace).auth == m.auth.(loading := false)
      && Run(m, trace).replies == m.replies + [Returned(SignInOp, Some(message))]
      && Run(m, trace).pending == m.pending
      && Run(m, trace).calls == m.calls + [SignInWithPassword(email, password)]
  {
    var n := |m.pending|;
    var trace := [SignIn(email, password), Settle(n, ProviderError(message))];
    var m1 := Step(m, trace[0]);
    assert RemoveAt(m1.pending, n) == m.pending;
    var m2 := Step(m1, trace[1]);
    assert trace[1..][1..] == [];
    assert Run(m1, trace[1..]) == m2;
  }

  /** A signed-in user for the stale-profile trace. */
  const Ada := User("u1", "ada@example.com")
  const AdaSession := Session("token", Ada)
  const AdaProfile := Profile("p1", "u1", "Ada Obi", "ada@example.com", "BU/20A/CS/1234",
                              None, 5000.0, "2024-01-01", "2024-01-01")

  /** Sign-in event, its deferred fetch issued, sign-out, then the fetch answers. */
  const StaleTrace: seq<Event> := [
    Mount,
    ProviderEvent(SignedIn, Some(AdaSession)),
    Settle(1, TimerFired),
    SignOut,
    Settle(2, ProviderOk),
    Settle(1, Row(Some(AdaProfile)))
  ]

  /** "No user implies no profile" is not an invariant of the store: a fetch
      deferred by the auth-event handler that answers after a sign-out puts
      the profile back, because the fetch never checks its user is current. */
  lemma StaleProfileAfterSignOut()
    ensures ValidTrace(Start, StaleTrace)
    ensures Run(Start, StaleTrace).auth.user == None
    ensures Run(Start, StaleTrace).auth.profile == Some(AdaProfile)
  {
    var m1 := Step(Start, Mount);
    assert m1.pending == [LookupSession(FromInit)] && m1.subscribed;
    var m2 := Step(m1, ProviderEvent(SignedIn, Some(AdaSession)));
    assert m2.pending == [LookupSession(FromInit), DeferredFetch("u1")];
    var m3 := Step(m2, Settle(1, TimerFired));
    assert m3.pending == [LookupSession(FromInit), QueryProfile("u1", None)];
    var m4 := Step(m3, SignOut);
    assert m4.pending == [LookupSession(FromInit), QueryProfile("u1", None), AwaitSignOut];
    var m5 := Step(m4, Settle(2, ProviderOk));
    assert m5.pending == [LookupSession(FromInit), QueryProfile("u1", None)];
    assert m5.auth.user == None && m5.auth.profile == None;
    var m6 := Step(m5, Settle(1, Row(Some(AdaProfile))));
    assert m6.auth.user == None && m6.auth.profile == Some(AdaProfile);
    var t := StaleTrace;
    assert t[1..][1..][1..][1..][1..][1..] == [];
    assert ValidTrace(m6, t[1..][1..][1..][1..][1..][1..]);
    assert Run(m5, t[1..][1..][1..][1..][1..]) == m6;
    assert Run(m4, t[1..][1..][1..][1..]) == m6;
    assert Run(m3, t[1..][1..][1..]) == m6;
    assert Run(m2, t[1..][1..]) == m6;
    assert Run(m1, t[1..]) == m6;
  }

  /** The init effect's cleanup unsubscribes, and the `didInit` ref outlives
      it, so a mount, cleanup and second mount (what React's development
      StrictMode does) ends with initialisation done and no subscription. */
  lemma RemountLeavesNoSubscription()
    ensures ValidTrace(Start, [Mount, Unmount, Mount])
    ensures Run(Start, [Mount, Unmount, Mount]).auth.didInit
    ensures !Run(Start, [Mount, Unmount, Mount]).subscribed
  {
    var t := [Mount, Unmount, Mount];
    assert t[1..] == [Unmount, Mount] && t[1..][1..] == [Mount] && t[1..][1..][1..] == [];
  }
}
