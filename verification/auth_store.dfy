/** The session store of `AuthProvider` as an explicit state machine.

    The store's React state `{session, user, profile, loading}` and the
    `didInit` ref form the record `Auth`. The asynchrony is made sequential:
    every `await` the store is suspended on, and every `setTimeout` callback it
    has scheduled, is a pending `Task`; the identity provider answers a task
    with an `Outcome` through a `Settle` event, in any order it likes. The code
    that runs after an `await` up to the next one (including a `finally`) runs
    as one step. The provider's own auth events reach the handler only while
    the handler is subscribed. */
module AuthStore {
  import opened Wrappers

  datatype User = User(id: string, email: string)

  /** A provider session; `nextSession?.user` is present whenever the session is. */
  datatype Session = Session(accessToken: string, user: User)

  /** A row of the `profiles` table. */
  datatype Profile = Profile(
    id: string,
    userId: string,
    fullName: string,
    email: string,
    matricNumber: string,
    phoneNumber: Option<string>,
    accountBalance: real,
    createdAt: string,
    updatedAt: string)

  /** The provider's state as the application sees it. */
  datatype Auth = Auth(
    session: Option<Session>,
    user: Option<User>,
    profile: Option<Profile>,
    loading: bool,
    didInit: bool)

  /** Before the first effect runs: nothing known, `loading` already true. */
  const InitialAuth := Auth(None, None, None, true, false)

  /** The user a session belongs to, absent with the session (`nextSession?.user ?? null`). */
  function UserOf(s: Option<Session>): (u: Option<User>)
    ensures u.Some? <==> s.Some?
    ensures s.Some? ==> u.value == s.value.user
  {
    match s
    case Some(session) => Some(session.user)
    case None => None
  }

  /** `profile?.account_balance || 0`: a missing profile shows as zero. */
  function BalanceOrZero(p: Option<Profile>): (balance: real)
    ensures p.None? ==> balance == 0.0
    ensures p.Some? ==> balance == p.value.accountBalance
  {
    match p
    case Some(profile) => profile.accountBalance
    case None => 0.0
  }

  datatype Metadata = Metadata(fullName: string, matricNumber: string, phoneNumber: string)

  datatype AuthEventKind =
    | InitialSession | SignedIn | SignedOut | TokenRefreshed | UserUpdated
    | PasswordRecovery | MfaChallengeVerified

  /** Who is waiting for a `syncSession` run. */
  datatype Origin = FromInit | FromSignIn | FromSignUp

  /** The three operations the store exposes. */
  datatype Op = SignInOp | SignUpOp | SignOutOp

  /** What an operation hands back to its caller: a returned value (with the
      provider's error message, if any) or an exception. */
  datatype Reply = Returned(op: Op, error: Option<string>) | Threw(op: Op)

  /** A request the store issues against the provider, in issue order. */
  datatype Call =
    | Subscribe
    | GetSession(origin: Origin)
    | SelectProfile(userId: string)
    | SignInWithPassword(email: string, password: string)
    | SignUpWithPassword(email: string, password: string, metadata: Metadata)
    | ProviderSignOut

  /** A suspended continuation of the store. */
  datatype Task =
    | LookupSession(origin: Origin)                    // syncSession, awaiting getSession
    | QueryProfile(userId: string, caller: Option<Origin>)  // fetchProfile, awaiting the query;
                                                       // no caller when started by a timer
    | DeferredFetch(userId: string)                    // the handler's setTimeout(…, 0)
    | AwaitSignIn | AwaitSignUp | AwaitSignOut         // awaiting the provider's answer

  /** How the provider (or the timer) settles a task. */
  datatype Outcome =
    | LookupDone(found: Option<Session>)   // getSession resolved
    | Row(row: Option<Profile>)            // maybeSingle resolved; None when no row matches
    | QueryFailed                          // the profile query returned an error
    | ProviderOk                           // signIn/signUp/signOut returned no error
    | ProviderError(message: string)       // ... returned an error
    | Rejected                             // the awaited promise rejected
    | TimerFired

  predicate Accepts(t: Task, o: Outcome) {
    match t
    case LookupSession(_) => o.LookupDone? || o.Rejected?
    case QueryProfile(_, _) => o.Row? || o.QueryFailed? || o.Rejected?
    case DeferredFetch(_) => o.TimerFired?
    case AwaitSignIn => o.ProviderOk? || o.ProviderError? || o.Rejected?
    case AwaitSignUp => o.ProviderOk? || o.ProviderError? || o.Rejected?
    case AwaitSignOut => o.ProviderOk? || o.ProviderError? || o.Rejected?
  }

  datatype Event =
    | Mount                                  // the init effect runs
    | Unmount                                // the init effect's cleanup runs
    | SignIn(email: string, password: string)
    | SignUp(email: string, password: string, metadata: Metadata)
    | SignOut
    | Settle(task: nat, outcome: Outcome)    // pending task `task` resumes
    | ProviderEvent(kind: AuthEventKind, next: Option<Session>)

  datatype Machine = Machine(
    auth: Auth,
    subscribed: bool,
    pending: seq<Task>,
    calls: seq<Call>,
    replies: seq<Reply>)

  const Start := Machine(InitialAuth, false, [], [], [])

  predicate Enabled(m: Machine, e: Event) {
    match e
    case ProviderEvent(_, _) => m.subscribed
    case Settle(i, o) => i < |m.pending| && Accepts(m.pending[i], o)
    case _ => true
  }

  /** The operation a foreground `syncSession` run answers for; the init run
      answers to nobody. */
  function OpOf(origin: Origin): Op
    requires origin != FromInit
  {
    if origin == FromSignIn then SignInOp else SignUpOp
  }

  /** `syncSession` returned normally to `origin`: the init chain's `finally`,
      or `signIn`/`signUp` returning `{ error: null }` through their `finally`. */
  function FinishSync(m: Machine, origin: Origin): (m': Machine)
    ensures !m'.auth.loading
    ensures m'.auth == m.auth.(loading := false)
    ensures m'.pending == m.pending && m'.calls == m.calls && m'.subscribed == m.subscribed
    ensures origin == FromInit ==> m'.replies == m.replies
    ensures origin != FromInit ==> m'.replies == m.replies + [Returned(OpOf(origin), None)]
  {
    var m1 := m.(auth := m.auth.(loading := false));
    if origin == FromInit then m1
    else m1.(replies := m.replies + [Returned(OpOf(origin), None)])
  }

  /** `syncSession` threw to `origin`: the init chain's `catch` swallows it and
      its `finally` clears `loading`; `signIn`/`signUp` clear `loading` in their
      `finally` and the exception escapes to their caller. */
  function FailSync(m: Machine, origin: Origin): (m': Machine)
    ensures m'.auth == m.auth.(loading := false)
    ensures m'.pending == m.pending && m'.calls == m.calls && m'.subscribed == m.subscribed
    ensures origin == FromInit ==> m'.replies == m.replies
    ensures origin != FromInit ==> m'.replies == m.replies + [Threw(OpOf(origin))]
  {
    var m1 := m.(auth := m.auth.(loading := false));
    if origin == FromInit then m1
    else m1.(replies := m.replies + [Threw(OpOf(origin))])
  }

  /** The init effect (`useAuth.tsx` lines 69-104): a second run is a no-op;
      the first sets `loading`, subscribes, and only then issues the lookup. */
  function Initialize(m: Machine): (m': Machine)
    ensures m.auth.didInit ==> m' == m
    ensures !m.auth.didInit ==>
      && m'.auth == m.auth.(loading := true, didInit := true)
      && m'.subscribed
      && m'.calls == m.calls + [Subscribe, GetSession(FromInit)]
      && m'.pending == m.pending + [LookupSession(FromInit)]
      && m'.replies == m.replies
  {
    if m.auth.didInit then m
    else
      m.(auth := m.auth.(loading := true, didInit := true),
         subscribed := true,
         calls := m.calls + [Subscribe, GetSession(FromInit)],
         pending := m.pending + [LookupSession(FromInit)])
  }

  /** The `onAuthStateChange` callback: adopt the event's session and user; with
      a user, only schedule the profile fetch; without one, clear the profile
      now; clear `loading` for `SIGNED_OUT` alone. */
  function HandleAuthEvent(m: Machine, kind: AuthEventKind, next: Option<Session>): (m': Machine)
    ensures m'.auth.session == next && m'.auth.user == UserOf(next)
    ensures next.None? ==> m'.auth.profile == None && m'.pending == m.pending
    ensures next.Some? ==>
      m'.auth.profile == m.auth.profile && m'.pending == m.pending + [DeferredFetch(next.value.user.id)]
    ensures m'.auth.loading == (if kind == SignedOut then false else m.auth.loading)
    ensures m'.calls == m.calls
    ensures m'.auth.didInit == m.auth.didInit && m'.subscribed == m.subscribed && m'.replies == m.replies
  {
    var a := m.auth.(session := next, user := UserOf(next));
    var a := if next.Some? then a else a.(profile := None);
    var a := if kind == SignedOut then a.(loading := false) else a;
    var pending := if next.Some? then m.pending + [DeferredFetch(next.value.user.id)] else m.pending;
    m.(auth := a, pending := pending)
  }

  /** `syncSession` after `getSession` settles (lines 50-64): session and user
      are set together from the lookup; with a user the profile fetch is issued
      and awaited, without one the profile is cleared and the run ends; a
      rejected lookup ends the run and leaves session, user and profile alone. */
  function ResumeLookup(m: Machine, origin: Origin, o: Outcome): (m': Machine)
    requires o.LookupDone? || o.Rejected?
    ensures o.Rejected? ==> m' == FailSync(m, origin)
    ensures o.LookupDone? ==> m'.auth.session == o.found && m'.auth.user == UserOf(o.found)
    ensures o.LookupDone? && o.found.None? ==>
      && m'.auth == m.auth.(session := None, user := None, profile := None, loading := false)
      && m'.pending == m.pending && m'.calls == m.calls
      && m'.replies == m.replies + (if origin == FromInit then [] else [Returned(OpOf(origin), None)])
    ensures o.LookupDone? && o.found.Some? ==>
      && m'.auth.profile == m.auth.profile
      && m'.auth.loading == m.auth.loading
      && m'.pending == m.pending + [QueryProfile(o.found.value.user.id, Some(origin))]
      && m'.calls == m.calls + [SelectProfile(o.found.value.user.id)]
      && m'.replies == m.replies
    ensures m'.auth.didInit == m.auth.didInit && m'.subscribed == m.subscribed
  {
    if o.Rejected? then FailSync(m, origin)
    else
      var next := o.found;
      var a := m.auth.(session := next, user := UserOf(next));
      match next
      case Some(s) =>
        m.(auth := a,
           pending := m.pending + [QueryProfile(s.user.id, Some(origin))],
           calls := m.calls + [SelectProfile(s.user.id)])
      case None => FinishSync(m.(auth := a.(profile := None)), origin)
  }

  /** `fetchProfile` after its query settles (lines 35-48): an error keeps the
      previous profile, otherwise the result (possibly no row) replaces it.
      The user id is not compared with the current user. A fetch awaited by
      `syncSession` then ends that run; a timer-started one ends silently. */
  function ResumeProfile(m: Machine, caller: Option<Origin>, o: Outcome): (m': Machine)
    requires o.Row? || o.QueryFailed? || o.Rejected?
    ensures o.Row? ==> m'.auth.profile == o.row
    ensures !o.Row? ==> m'.auth.profile == m.auth.profile
    ensures m'.auth.session == m.auth.session && m'.auth.user == m.auth.user
    ensures caller.None? ==> m'.auth.loading == m.auth.loading && m'.replies == m.replies
    ensures caller.Some? ==> !m'.auth.loading
    ensures caller.Some? && o.Rejected? ==> m' == FailSync(m, caller.value)
    ensures caller.None? && o.Rejected? ==> m' == m
    ensures !o.Rejected? ==>
      m'.auth == m.auth.(profile := if o.Row? then o.row else m.auth.profile,
                         loading := if caller.Some? then false else m.auth.loading)
    ensures caller.Some? && !o.Rejected? ==>
      m'.replies == m.replies + (if caller.value == FromInit then [] else [Returned(OpOf(caller.value), None)])
    ensures m'.pending == m.pending && m'.calls == m.calls
    ensures m'.auth.didInit == m.auth.didInit && m'.subscribed == m.subscribed
  {
    if o.Rejected? then
      (if caller.Some? then FailSync(m, caller.value) else m)
    else
      var m1 := if o.Row? then m.(auth := m.auth.(profile := o.row)) else m;
      if caller.Some? then FinishSync(m1, caller.value) else m1
  }

  /** `signIn`/`signUp` after the provider answers (lines 107-153): without an
      error, `syncSession` starts; with an error or an exception, `loading` is
      cleared in `finally` and nothing else in the state changes. */
  function ResumeCredentials(m: Machine, origin: Origin, o: Outcome): (m': Machine)
    requires origin != FromInit
    requires o.ProviderOk? || o.ProviderError? || o.Rejected?
    ensures o.ProviderOk? ==>
      && m'.auth == m.auth
      && m'.pending == m.pending + [LookupSession(origin)]
      && m'.calls == m.calls + [GetSession(origin)]
      && m'.replies == m.replies
    ensures !o.ProviderOk? ==> m'.auth == m.auth.(loading := false) && m'.pending == m.pending && m'.calls == m.calls
    ensures o.ProviderError? ==> m'.replies == m.replies + [Returned(OpOf(origin), Some(o.message))]
    ensures o.Rejected? ==> m'.replies == m.replies + [Threw(OpOf(origin))]
    ensures m'.subscribed == m.subscribed
  {
    match o
    case ProviderOk =>
      m.(pending := m.pending + [LookupSession(origin)], calls := m.calls + [GetSession(origin)])
    case ProviderError(msg) =>
      m.(auth := m.auth.(loading := false), replies := m.replies + [Returned(OpOf(origin), Some(msg))])
    case Rejected =>
      m.(auth := m.auth.(loading := false), replies := m.replies + [Threw(OpOf(origin))])
  }

  /** `signOut` after the provider answers (lines 155-165). The provider reports
      failures as a returned error, which the code ignores, so both answers
      clear profile, session and user; an exception skips the clearing. Either
      way `finally` clears `loading`. */
  function ResumeSignOut(m: Machine, o: Outcome): (m': Machine)
    requires o.ProviderOk? || o.ProviderError? || o.Rejected?
    ensures !m'.auth.loading
    ensures !o.Rejected? ==> m'.auth.session == None && m'.auth.user == None && m'.auth.profile == None
    ensures !o.Rejected? ==> m'.replies == m.replies + [Returned(SignOutOp, None)]
    ensures o.Rejected? ==> m'.auth == m.auth.(loading := false) && m'.replies == m.replies + [Threw(SignOutOp)]
    ensures m'.auth.didInit == m.auth.didInit
    ensures m'.pending == m.pending && m'.calls == m.calls && m'.subscribed == m.subscribed
  {
    if o.Rejected? then
      m.(auth := m.auth.(loading := false), replies := m.replies + [Threw(SignOutOp)])
    else
      m.(auth := m.auth.(profile := None, session := None, user := None, loading := false),
         replies := m.replies + [Returned(SignOutOp, None)])
  }

  /** Resume task `t` (already taken off the pending list) with outcome `o`. */
  function Resume(m: Machine, t: Task, o: Outcome): (m': Machine)
    requires Accepts(t, o)
    ensures m'.auth.didInit == m.auth.didInit && m'.subscribed == m.subscribed
  {
    match t
    case LookupSession(origin) => ResumeLookup(m, origin, o)
    case QueryProfile(_, caller) => ResumeProfile(m, caller, o)
    case DeferredFetch(userId) =>
      m.(pending := m.pending + [QueryProfile(userId, None)], calls := m.calls + [SelectProfile(userId)])
    case AwaitSignIn => ResumeCredentials(m, FromSignIn, o)
    case AwaitSignUp => ResumeCredentials(m, FromSignUp, o)
    case AwaitSignOut => ResumeSignOut(m, o)
  }

  function RemoveAt(tasks: seq<Task>, i: nat): (r: seq<Task>)
    requires i < |tasks|
    ensures |r| == |tasks| - 1
  {
    tasks[..i] + tasks[i + 1..]
  }

  /** One event of the trace. `signIn`, `signUp` and `signOut` start by
      raising `loading`, issuing exactly one provider call with the caller's
      arguments and suspending on it; the effect's cleanup only unsubscribes;
      a settlement never changes `didInit` or the subscription. */
  function Step(m: Machine, e: Event): (m': Machine)
    requires Enabled(m, e)
    ensures e.Unmount? ==> m' == m.(subscribed := false)
    ensures e.SignIn? || e.SignUp? || e.SignOut? ==>
      && m'.auth == m.auth.(loading := true)
      && |m'.pending| == |m.pending| + 1 && m'.pending[..|m.pending|] == m.pending
      && |m'.calls| == |m.calls| + 1 && m'.calls[..|m.calls|] == m.calls
      && m'.replies == m.replies && m'.subscribed == m.subscribed
    ensures e.SignIn? ==>
      m'.pending[|m.pending|] == AwaitSignIn && m'.calls[|m.calls|] == SignInWithPassword(e.email, e.password)
    ensures e.SignUp? ==>
      m'.pending[|m.pending|] == AwaitSignUp && m'.calls[|m.calls|] == SignUpWithPassword(e.email, e.password, e.metadata)
    ensures e.SignOut? ==>
      m'.pending[|m.pending|] == AwaitSignOut && m'.calls[|m.calls|] == ProviderSignOut
    ensures e.Settle? ==> m'.auth.didInit == m.auth.didInit && m'.subscribed == m.subscribed
  {
    match e
    case Mount => Initialize(m)
    case Unmount => m.(subscribed := false)
    case SignIn(email, password) =>
      m.(auth := m.auth.(loading := true),
         pending := m.pending + [AwaitSignIn],
         calls := m.calls + [SignInWithPassword(email, password)])
    case SignUp(email, password, metadata) =>
      m.(auth := m.auth.(loading := true),
         pending := m.pending + [AwaitSignUp],
         calls := m.calls + [SignUpWithPassword(email, password, metadata)])
    case SignOut =>
      m.(auth := m.auth.(loading := true),
         pending := m.pending + [AwaitSignOut],
         calls := m.calls + [ProviderSignOut])
    case Settle(i, o) => Resume(m.(pending := RemoveAt(m.pending, i)), m.pending[i], o)
    case ProviderEvent(kind, next) => HandleAuthEvent(m, kind, next)
  }

  predicate ValidTrace(m: Machine, trace: seq<Event>)
    decreases |trace|
  {
    |trace| == 0 || (Enabled(m, trace[0]) && ValidTrace(Step(m, trace[0]), trace[1..]))
  }

  /** The machine after every event of a valid trace. */
  function Run(m: Machine, trace: seq<Event>): (last: Machine)
    requires ValidTrace(m, trace)
    decreases |trace|
  {
    if |trace| == 0 then m else Run(Step(m, trace[0]), trace[1..])
  }
}
