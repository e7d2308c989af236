/**
 * Who is signed in, whose library this is, and when sync runs. Every stretch of the server between two awaits is one
 * step, so checks, sign-ins and sign-outs interleave.
 */
module Session {
  import opened Wrappers

  type User = nat

  datatype SessionState = SignedOut | SignedIn(userId: Option<User>, bound: bool) | Elsewhere

  /** A `checkSession` under way: waiting for a token, or past `bindLibrary` and waiting for `bindToUser` to return. */
  datatype Check = Asking | Bound(user: User) | Refused

  datatype State = State(
    session: SessionState,
    /** The user the library is bound to, in the database and in `libraryUser`; None is `local`. */
    owner: Option<User>,
    /** The user whose session is stored on disk. */
    stored: Option<User>,
    hasSource: bool,
    started: bool,
    pausedForCredential: bool,
    /** The supervisor: whether it has Drive's engine, engines of apps, and whether it is paused. */
    drive: bool,
    appEngines: bool,
    paused: bool,
    /** The registry holds an active app with a channel of its own. */
    appInstalled: bool,
    checks: map<nat, Check>,
    /** Sign-ins past the owner check, waiting for the replaced session to end. */
    logins: map<nat, User>
  )

  datatype Event =
    | StartCheck(id: nat)
    | TokenArrives(id: nat, token: Option<User>, throws: bool)
    | FinishCheck(id: nat)
    | AdmitLogin(login: nat, user: User)
    | StoreLogin(login: nat, check: nat)
    | StoreCleared
    | SignInEnds
    | ManualPause
    | ManualResume
    | AppsChanged(installed: bool)
    | Restart

  function Boot(owner: Option<User>, stored: Option<User>, appInstalled: bool): State {
    State(if stored.Some? then SignedIn(stored, false) else SignedOut, owner, stored, stored.Some?,
          false, false, false, false, false, appInstalled, map[], map[])
  }

  predicate SyncAllowed(s: State) { s.session.SignedIn? && s.session.bound }

  /** `hasCredential` in the supervisor, through `activeTokenSource`. */
  predicate HasCredential(s: State) { s.session.SignedIn? && s.hasSource }

  predicate HasEngines(s: State) { s.drive || s.appEngines }

  predicate Running(s: State) { HasEngines(s) && !s.paused }

  /** `supervisor.rescan()`, which asks for a credential and nothing else. */
  function Rescan(s: State): State {
    if HasCredential(s) then s.(appEngines := s.appInstalled) else s
  }

  /** `supervisor.start()` */
  function StartEngines(s: State): State {
    if HasCredential(s) then Rescan(s.(drive := true)) else s
  }

  function StartOrKick(s: State): State {
    if !SyncAllowed(s) then s
    else if !s.started then StartEngines(s).(started := true)
    else if s.pausedForCredential then StartEngines(s).(pausedForCredential := false, paused := false)
    else s
  }

  function PauseWithoutCredential(s: State): State {
    if !s.started || SyncAllowed(s) then s else s.(paused := true, pausedForCredential := true)
  }

  function BeginCheck(s: State, id: nat): State {
    if s.session.SignedIn? && s.hasSource then s.(checks := s.checks[id := Asking]) else s
  }

  /** The user a check learns: from the token, or offline from a stored session of the library's own user. */
  function LearnedUser(s: State, token: Option<User>): Option<User> {
    if token.None? && s.owner.Some? && s.owner == s.stored then s.owner else token
  }

  /** From the token's arrival to the first await inside `bindToUser`. */
  function Learn(s: State, id: nat, token: Option<User>, throws: bool): State {
    var user := LearnedUser(s, token);
    if !s.session.SignedIn? || user.None? then s.(checks := s.checks - {id})
    else if s.owner.Some? && s.owner != user then
      var s1 := s.(checks := s.checks[id := Refused]);
      if s.started then s1.(paused := true, drive := false, appEngines := false) else s1
    else if throws then s.(checks := s.checks - {id})
    else s.(owner := user, checks := s.checks[id := Bound(user.value)])
  }

  function Finish(s: State, id: nat): State
    requires id in s.checks && !s.checks[id].Asking?
  {
    var session := if s.checks[id].Bound? then SignedIn(Some(s.checks[id].user), true) else Elsewhere;
    StartOrKick(s.(session := session, checks := s.checks - {id}))
  }

  /** The owner check of a sign-in; one that fails it is refused before anything is stored. */
  function Admit(s: State, login: nat, user: User): State {
    if s.owner.Some? && s.owner.value != user then s else s.(logins := s.logins[login := user])
  }

  function Store(s: State, login: nat, check: nat): State
    requires login in s.logins
  {
    var user := Some(s.logins[login]);
    BeginCheck(s.(stored := user, hasSource := true, session := SignedIn(user, false), logins := s.logins - {login}), check)
  }

  predicate Enabled(s: State, e: Event) {
    match e
    case StartCheck(id) => id !in s.checks
    case TokenArrives(id, _, _) => id in s.checks && s.checks[id].Asking?
    case FinishCheck(id) => id in s.checks && !s.checks[id].Asking?
    case AdmitLogin(login, _) => login !in s.logins
    case StoreLogin(login, check) => login in s.logins && check !in s.checks
    case _ => true
  }

  function Step(s: State, e: Event): State
    requires Enabled(s, e)
  {
    match e
    case StartCheck(id) => BeginCheck(s, id)
    case TokenArrives(id, token, throws) => Learn(s, id, token, throws)
    case FinishCheck(id) => Finish(s, id)
    case AdmitLogin(login, user) => Admit(s, login, user)
    case StoreLogin(login, check) => Store(s, login, check)
    case StoreCleared => s.(stored := None)
    case SignInEnds => PauseWithoutCredential(s.(session := SignedOut))
    case ManualPause => s.(paused := true)
    case ManualResume => s.(paused := false)
    case AppsChanged(installed) => Rescan(s.(appInstalled := installed))
    case Restart => Boot(s.owner, s.stored, s.appInstalled)
  }

  predicate Possible(s: State, events: seq<Event>)
    decreases |events|
  {
    events != [] ==> Enabled(s, events[0]) && Possible(Step(s, events[0]), events[1..])
  }

  function After(s: State, events: seq<Event>): State
    requires Possible(s, events)
    decreases |events|
  {
    if events == [] then s else After(Step(s, events[0]), events[1..])
  }

  // ---- One owner ----

  /** A bound session, and every check about to make one, name the library's owner. */
  ghost predicate Inv(s: State) {
    && (SyncAllowed(s) ==> s.owner.Some? && s.session.userId == s.owner)
    && (forall id :: id in s.checks && s.checks[id].Bound? ==> s.owner == Some(s.checks[id].user))
    && (s.session.SignedIn? || s.checks != map[] ==> s.hasSource)
    && (s.session.SignedIn? ==> s.session.userId.Some?)
    && (s.drive ==> s.started)
    && (s.started ==> s.owner.Some?)
    && (s.pausedForCredential ==> s.started)
  }

  ghost predicate Kept(s: State, s1: State) { Inv(s1) && (s.owner.Some? ==> s1.owner == s.owner) }

  lemma DropKeeps(s: State, id: nat)
    requires Inv(s)
    ensures Kept(s, s.(checks := s.checks - {id}))
  {
  }

  lemma RefuseKeeps(s: State, id: nat)
    requires Inv(s) && id in s.checks
    ensures var s1 := s.(checks := s.checks[id := Refused]);
            Kept(s, s1) && (s.started ==> Kept(s, s1.(paused := true, drive := false, appEngines := false)))
  {
  }

  lemma BindKeeps(s: State, id: nat, user: User)
    requires Inv(s) && id in s.checks && (s.owner.None? || s.owner == Some(user))
    ensures Kept(s, s.(owner := Some(user), checks := s.checks[id := Check.Bound(user)]))
  {
  }

  lemma LearnKeeps(s: State, id: nat, token: Option<User>, throws: bool)
    requires Inv(s) && id in s.checks && s.checks[id].Asking?
    ensures Kept(s, Learn(s, id, token, throws))
  {
    hide Inv, Kept, LearnedUser;
    DropKeeps(s, id);
    RefuseKeeps(s, id);
    var user := LearnedUser(s, token);
    if user.Some? && (s.owner.None? || s.owner == user) { BindKeeps(s, id, user.value); }
  }

  lemma FinishKeeps(s: State, id: nat)
    requires Inv(s) && id in s.checks && !s.checks[id].Asking?
    ensures Kept(s, Finish(s, id))
  {
    if s.checks[id].Bound? {
      StartOrKickKeeps(s.(session := SignedIn(Some(s.checks[id].user), true), checks := s.checks - {id}));
    }
  }

  lemma StartOrKickKeeps(s: State)
    requires Inv(s)
    ensures Kept(s, StartOrKick(s))
  {
  }

  lemma BeginKeeps(s: State, check: nat)
    requires Inv(s)
    ensures Kept(s, BeginCheck(s, check))
  {
  }

  lemma AdmitKeeps(s: State, login: nat, user: User)
    requires Inv(s)
    ensures Kept(s, Admit(s, login, user))
  {
  }

  lemma StoreKeeps(s: State, login: nat, check: nat)
    requires Inv(s) && login in s.logins
    ensures Kept(s, Store(s, login, check))
  {
    var user := Some(s.logins[login]);
    BeginKeeps(s.(stored := user, hasSource := true, session := SignedIn(user, false), logins := s.logins - {login}), check);
  }

  lemma LeverKeeps(s: State, e: Event)
    requires Inv(s) && Enabled(s, e)
    requires e.StoreCleared? || e.SignInEnds? || e.ManualPause? || e.ManualResume? || e.AppsChanged? || e.Restart?
    ensures Kept(s, Step(s, e))
  {
  }

  lemma StepKeepsInv(s: State, e: Event)
    requires Inv(s) && Enabled(s, e)
    ensures Inv(Step(s, e))
    ensures s.owner.Some? ==> Step(s, e).owner == s.owner
  {
    assert Kept(s, Step(s, e)) by {
      hide Inv, Kept, Learn, Finish, Admit, Store, BeginCheck;
      match e
      case StartCheck(id) => BeginKeeps(s, id);
      case TokenArrives(id, token, throws) => LearnKeeps(s, id, token, throws);
      case FinishCheck(id) => FinishKeeps(s, id);
      case AdmitLogin(login, user) => AdmitKeeps(s, login, user);
      case StoreLogin(login, check) => StoreKeeps(s, login, check);
      case _ => LeverKeeps(s, e);
    }
  }

  /** Whatever the interleaving, and over any number of restarts, a library once bound never changes owner. */
  lemma {:induction false} OneOwner(s: State, events: seq<Event>)
    requires Inv(s) && Possible(s, events)
    ensures Inv(After(s, events))
    ensures s.owner.Some? ==> After(s, events).owner == s.owner
    decreases |events|
  {
    if events != [] {
      StepKeepsInv(s, events[0]);
      OneOwner(Step(s, events[0]), events[1..]);
    }
  }

  /** From any boot: a bound session names the one owner the library will ever have. */
  lemma BoundSessionsNameTheOwner(owner: Option<User>, stored: Option<User>, installed: bool, events: seq<Event>)
    requires Possible(Boot(owner, stored, installed), events)
    ensures var s := After(Boot(owner, stored, installed), events);
            && (SyncAllowed(s) ==> s.owner.Some? && s.session.userId == s.owner)
            && (owner.Some? ==> s.owner == owner)
  {
    OneOwner(Boot(owner, stored, installed), events);
  }

  // ---- When sync runs ----

  predicate OwnerSignedIn(s: State) { s.session.SignedIn? && s.session.userId == s.owner }

  /** Sync runs only under a sign-in of the library's owner. */
  predicate OwnersSync(s: State) { Running(s) ==> OwnerSignedIn(s) }

  /**
   * The steps that break it: resuming by hand without the owner signed in; an app installed or removed under a sign-in
   * that is not the owner's, bound or not; the end of a sign-in under which only a rescan had started engines; storing
   * a sign-in whose owner check has gone stale while sync runs; and the late end of a refused check, when the owner
   * has signed in while it waited.
   */
  predicate Breaks(s: State, e: Event) {
    match e
    case ManualResume => HasEngines(s) && !OwnerSignedIn(s)
    case AppsChanged(installed) => HasCredential(s) && installed && !s.paused && !OwnerSignedIn(s)
    case SignInEnds => Running(s) && !s.started
    case StoreLogin(login, _) => Running(s) && login in s.logins && s.owner != Some(s.logins[login])
    case FinishCheck(id) => Running(s) && id in s.checks && s.checks[id].Refused?
    case _ => false
  }

  /** Each step keeps the owner's sync exactly when it is none of those. */
  lemma ExactlyTheseBreakIt(s: State, e: Event)
    requires Inv(s) && OwnersSync(s) && Enabled(s, e)
    ensures OwnersSync(Step(s, e)) <==> !Breaks(s, e)
  {
  }

  ghost predicate NoneBreaks(s: State, events: seq<Event>)
    requires Possible(s, events)
    decreases |events|
  {
    events != [] ==> !Breaks(s, events[0]) && NoneBreaks(Step(s, events[0]), events[1..])
  }

  lemma {:induction false} OwnersSyncInEveryRun(s: State, events: seq<Event>)
    requires Inv(s) && OwnersSync(s) && Possible(s, events) && NoneBreaks(s, events)
    ensures OwnersSync(After(s, events))
    decreases |events|
  {
    if events != [] {
      StepKeepsInv(s, events[0]);
      ExactlyTheseBreakIt(s, events[0]);
      OwnersSyncInEveryRun(Step(s, events[0]), events[1..]);
    }
  }

  // ---- One thing at a time ----

  /**
   * A check or a sign-in begins only when none is under way, a token names the stored session's user, nobody resumes
   * by hand, no app comes or goes under another sign-in than the owner's, and no sign-in ends under which only a
   * rescan had started engines.
   */
  predicate InTurn(s: State, e: Event) {
    && !e.ManualResume?
    && (e.StartCheck? || e.AdmitLogin? ==> s.checks == map[] && s.logins == map[])
    && (e.TokenArrives? && e.token.Some? ==> e.token == s.stored)
    && (e.AppsChanged? || e.SignInEnds? ==> !Breaks(s, e))
  }

  ghost predicate AllInTurn(s: State, events: seq<Event>)
    requires Possible(s, events)
    decreases |events|
  {
    events != [] ==> InTurn(s, events[0]) && AllInTurn(Step(s, events[0]), events[1..])
  }

  /** At most one is under way and its owner check still stands; the session is the stored one, unless that was cleared. */
  predicate OneUnderWay(s: State) {
    && (s.checks == map[] || s.logins == map[])
    && (forall i, j :: i in s.checks && j in s.checks ==> i == j)
    && (forall i, j :: i in s.logins && j in s.logins ==> i == j)
    && (forall l :: l in s.logins ==> s.owner.None? || s.owner == Some(s.logins[l]))
    && (forall id :: id in s.checks && s.checks[id].Refused? ==> !OwnerSignedIn(s))
    && (forall id :: id in s.checks && s.checks[id].Bound? ==> s.stored.None? || s.stored == Some(s.checks[id].user))
    && (s.session.SignedIn? ==> s.stored.None? || s.session.userId == s.stored)
    && (s.started && s.session.SignedIn? ==> OwnerSignedIn(s))
  }

  /** Once sync has been started, apps may come and go and the sign-in may end at any time. */
  lemma StartedTakesRescans(s: State, e: Event)
    requires Inv(s) && OneUnderWay(s) && s.started && (e.AppsChanged? || e.SignInEnds?)
    ensures !Breaks(s, e)
  {
  }

  lemma NothingBreaksInTurn(s: State, e: Event)
    requires Inv(s) && OneUnderWay(s) && OwnersSync(s) && Enabled(s, e) && InTurn(s, e)
    ensures !Breaks(s, e)
  {
  }

  lemma DropInTurn(s: State, id: nat)
    requires OneUnderWay(s) && id in s.checks
    ensures OneUnderWay(s.(checks := s.checks - {id}))
  {
    assert s.checks - {id} == map[];
  }

  lemma RefuseInTurn(s: State, id: nat)
    requires OneUnderWay(s) && id in s.checks && s.session.SignedIn? && !OwnerSignedIn(s)
    ensures OneUnderWay(s.(checks := s.checks[id := Refused]))
  {
    assert s.checks[id := Refused] == map[id := Refused];
  }

  lemma BindInTurn(s: State, id: nat, user: User)
    requires OneUnderWay(s) && id in s.checks && s.session.SignedIn? && s.stored == Some(user)
    requires s.owner.None? || s.owner == Some(user)
    ensures OneUnderWay(s.(owner := Some(user), checks := s.checks[id := Check.Bound(user)]))
  {
    assert s.checks[id := Check.Bound(user)] == map[id := Check.Bound(user)];
  }

  /** In turn, the user a check learns is the stored one, and so the session's. */
  lemma LearnInTurn(s: State, id: nat, token: Option<User>, throws: bool)
    requires Inv(s) && OneUnderWay(s) && id in s.checks && s.checks[id].Asking? && (token.Some? ==> token == s.stored)
    ensures OneUnderWay(Learn(s, id, token, throws))
  {
    var user := LearnedUser(s, token);
    assert user.Some? ==> user == s.stored;
    assert s.session.SignedIn? && user.Some? ==> s.session.userId == user;
    assert s.session.SignedIn? && user.Some? && s.owner != user ==> !OwnerSignedIn(s) && !s.started;
    hide Inv, OneUnderWay, OwnerSignedIn, LearnedUser;
    DropInTurn(s, id);
    if s.session.SignedIn? && user.Some? {
      if s.owner.Some? && s.owner != user { RefuseInTurn(s, id); } else { BindInTurn(s, id, user.value); }
    }
  }

  lemma FinishInTurn(s: State, id: nat)
    requires Inv(s) && OneUnderWay(s) && id in s.checks && !s.checks[id].Asking?
    ensures OneUnderWay(Finish(s, id))
  {
    assert s.logins == map[];
    assert Finish(s, id).checks == map[];
  }

  lemma StoreInTurn(s: State, login: nat, check: nat)
    requires Inv(s) && OneUnderWay(s) && login in s.logins
    ensures OneUnderWay(Store(s, login, check))
  {
    assert s.checks == map[];
    assert Store(s, login, check).logins == map[];
  }

  lemma BeginInTurn(s: State, e: Event)
    requires Inv(s) && OneUnderWay(s) && (e.StartCheck? || e.AdmitLogin?) && InTurn(s, e) && Enabled(s, e)
    ensures OneUnderWay(Step(s, e))
  {
  }

  lemma LeverInTurn(s: State, e: Event)
    requires Inv(s) && OneUnderWay(s) && Enabled(s, e)
    requires e.StoreCleared? || e.SignInEnds? || e.ManualPause? || e.AppsChanged? || e.Restart?
    ensures OneUnderWay(Step(s, e))
  {
  }

  lemma TurnByTurn(s: State, e: Event)
    requires Inv(s) && OneUnderWay(s) && OwnersSync(s) && Enabled(s, e) && InTurn(s, e)
    ensures OneUnderWay(Step(s, e)) && !Breaks(s, e)
  {
    NothingBreaksInTurn(s, e);
    hide Inv, OneUnderWay, OwnersSync, Breaks, Learn, Finish, Store, BeginCheck, Admit;
    match e
    case StartCheck(_) => BeginInTurn(s, e);
    case AdmitLogin(_, _) => BeginInTurn(s, e);
    case TokenArrives(id, token, throws) => LearnInTurn(s, id, token, throws);
    case FinishCheck(id) => FinishInTurn(s, id);
    case StoreLogin(login, check) => StoreInTurn(s, login, check);
    case _ => LeverInTurn(s, e);
  }

  /** With one check or sign-in at a time and none of those, sync only ever runs under the owner's sign-in. */
  lemma {:induction false} InTurnOwnersSync(s: State, events: seq<Event>)
    requires Inv(s) && OwnersSync(s) && OneUnderWay(s) && Possible(s, events) && AllInTurn(s, events)
    ensures OwnersSync(After(s, events))
    decreases |events|
  {
    if events != [] {
      TurnByTurn(s, events[0]);
      StepKeepsInv(s, events[0]);
      ExactlyTheseBreakIt(s, events[0]);
      InTurnOwnersSync(Step(s, events[0]), events[1..]);
    }
  }

  /**
   * An app installed while the server cannot yet tell whose session it has: one thing at a time and no manual resume,
   * yet the app's engine runs under a sign-in that is not the owner's, and outlives the end of that sign-in.
   */
  lemma InstallStartsUnbound(owner: Option<User>, user: User)
    requires owner != Some(user)
    ensures var s0 := Boot(owner, Some(user), false);
            var s2 := Step(Step(s0, StartCheck(0)), TokenArrives(0, None, false));
            var s3 := Step(s2, AppsChanged(true));
            && InTurn(s0, StartCheck(0)) && InTurn(Step(s0, StartCheck(0)), TokenArrives(0, None, false))
            && Running(s3) && s3.session == SignedIn(Some(user), false) && s3.owner == owner
            && Running(Step(s3, SignInEnds)) && Step(s3, SignInEnds).session == SignedOut
  {
    var s0 := Boot(owner, Some(user), false);
    var s1 := Step(s0, StartCheck(0));
    assert s1.checks == map[0 := Asking];
    assert Step(s1, TokenArrives(0, None, false)).checks == map[];
  }

  // ---- The session and the store ----

  /** A session that claims to be bound is the stored one. */
  predicate Agrees(s: State) { SyncAllowed(s) ==> s.stored == s.session.userId }

  /** The claim goes wrong exactly where the store is cleared under it, or has changed while a check was finishing. */
  lemma ExactlyTheseDisagree(s: State, e: Event)
    requires Inv(s) && Agrees(s) && Enabled(s, e)
    ensures Agrees(Step(s, e)) <==>
      !((e.StoreCleared? && SyncAllowed(s)) || (e.FinishCheck? && s.checks[e.id].Bound? && s.stored != Some(s.checks[e.id].user)))
  {
  }

  /** A check that asked for one user can finish under the stored sign-in of another. */
  lemma CheckOutlivesItsSession()
    ensures var events := [StartCheck(0), AdmitLogin(0, 2), StoreLogin(0, 1), TokenArrives(0, Some(1), false), FinishCheck(0)];
            var s0 := Boot(None, Some(1), false);
            && Possible(s0, events)
            && var s := After(s0, events);
               s.session == SignedIn(Some(1), true) && s.stored == Some(2) && s.owner == Some(1) && Running(s)
  {
    var s0 := Boot(None, Some(1), false);
    var s1 := Step(s0, StartCheck(0));
    var s2 := Step(s1, AdmitLogin(0, 2));
    var s3 := Step(s2, StoreLogin(0, 1));
    var s4 := Step(s3, TokenArrives(0, Some(1), false));
    var s5 := Step(s4, FinishCheck(0));
    Unroll(s4, FinishCheck(0), []);
    Unroll(s3, TokenArrives(0, Some(1), false), [FinishCheck(0)]);
    Unroll(s2, StoreLogin(0, 1), [TokenArrives(0, Some(1), false), FinishCheck(0)]);
    Unroll(s1, AdmitLogin(0, 2), [StoreLogin(0, 1), TokenArrives(0, Some(1), false), FinishCheck(0)]);
    Unroll(s0, StartCheck(0), [AdmitLogin(0, 2), StoreLogin(0, 1), TokenArrives(0, Some(1), false), FinishCheck(0)]);
  }

  lemma Unroll(s: State, e: Event, rest: seq<Event>)
    requires Enabled(s, e) && Possible(Step(s, e), rest)
    ensures Possible(s, [e] + rest) && After(s, [e] + rest) == After(Step(s, e), rest)
  {
  }

  // ---- What a check brings about ----

  function LoginUnderWay(s: State, check: nat, user: User): State {
    s.(stored := Some(user), hasSource := true, session := SignedIn(Some(user), false), checks := s.checks[check := Asking])
  }

  function LoginBound(s: State, check: nat, user: User): State {
    s.(stored := Some(user), hasSource := true, session := SignedIn(Some(user), false), owner := Some(user),
       checks := s.checks[check := Check.Bound(user)])
  }

  lemma LoginAsks(s: State, login: nat, check: nat, user: User)
    requires login !in s.logins && check !in s.checks && (s.owner.None? || s.owner == Some(user))
    ensures Enabled(s, AdmitLogin(login, user)) && Enabled(Step(s, AdmitLogin(login, user)), StoreLogin(login, check))
    ensures Step(Step(s, AdmitLogin(login, user)), StoreLogin(login, check)) == LoginUnderWay(s, check, user)
  {
    assert s.logins[login := user] - {login} == s.logins;
  }

  lemma LoginLearns(s: State, check: nat, user: User)
    requires s.owner.None? || s.owner == Some(user)
    ensures var s2, e := LoginUnderWay(s, check, user), TokenArrives(check, Some(user), false);
            Enabled(s2, e) && Step(s2, e) == LoginBound(s, check, user)
  {
    assert s.checks[check := Asking][check := Check.Bound(user)] == s.checks[check := Check.Bound(user)];
  }

  lemma LoginFinishes(s: State, check: nat, user: User)
    requires Inv(s) && check !in s.checks && (s.owner.None? || s.owner == Some(user))
    ensures var s3 := LoginBound(s, check, user);
            && Enabled(s3, FinishCheck(check))
            && Step(s3, FinishCheck(check))
               == StartOrKick(s3.(session := SignedIn(Some(user), true), checks := s.checks))
  {
    assert s.checks[check := Check.Bound(user)] - {check} == s.checks;
  }

  /** The four stretches of an owner's sign-in whose check nothing interrupts. */
  function SignInRun(login: nat, check: nat, user: User): seq<Event> {
    [AdmitLogin(login, user), StoreLogin(login, check), TokenArrives(check, Some(user), false), FinishCheck(check)]
  }

  /**
   * A sign-in of the library's owner, or of anyone on a library without one, binds session, store and library to that
   * user. It starts Drive's engine and the apps', again after a lost credential, and takes back that pause and no other.
   */
  lemma SignInBringsSync(s: State, login: nat, check: nat, user: User)
    requires Inv(s) && login !in s.logins && check !in s.checks && (s.owner.None? || s.owner == Some(user))
    ensures Possible(s, SignInRun(login, check, user))
    ensures var s1, again := After(s, SignInRun(login, check, user)), !s.started || s.pausedForCredential;
            && s1.session == SignedIn(Some(user), true) && s1.owner == Some(user) && s1.stored == Some(user) && s1.hasSource
            && s1.checks == s.checks && s1.logins == s.logins && s1.appInstalled == s.appInstalled
            && s1.started && !s1.pausedForCredential && s1.paused == (s.paused && !s.pausedForCredential)
            && s1.drive == (again || s.drive) && s1.appEngines == if again then s.appInstalled else s.appEngines
  {
    var s2 := LoginUnderWay(s, check, user);
    var s3 := LoginBound(s, check, user);
    LoginAsks(s, login, check, user);
    LoginLearns(s, check, user);
    LoginFinishes(s, check, user);
    var e1, e2, e3, e4 := AdmitLogin(login, user), StoreLogin(login, check), TokenArrives(check, Some(user), false), FinishCheck(check);
    hide Step, Enabled, LoginUnderWay, LoginBound;
    Unroll(s3, e4, []);
    Unroll(s2, e3, [e4]);
    Unroll(Step(s, e1), e2, [e3, e4]);
    Unroll(s, e1, [e2, e3, e4]);
  }

  /** Only the refused sign-in of another than the owner leaves everything as it was. */
  lemma AdmittedExactly(s: State, login: nat, user: User)
    requires Enabled(s, AdmitLogin(login, user))
    ensures var s1 := Step(s, AdmitLogin(login, user));
            && (s1 == s <==> s.owner.Some? && s.owner != Some(user))
            && (s1 != s ==> s1 == s.(logins := s.logins[login := user]))
  {
  }

  /** A check begins exactly under a sign-in that can be asked for a token. */
  lemma ChecksExactlyTheSignedIn(s: State, id: nat)
    requires Inv(s) && Enabled(s, StartCheck(id))
    ensures var s1 := Step(s, StartCheck(id));
            if s.session.SignedIn? then s1 == s.(checks := s.checks[id := Asking]) else s1 == s
  {
  }

  /**
   * The user a check goes by is the token's, or without a token the owner whose session is stored; a check that learns
   * none, whose sign-in has ended, or whose binding throws for a user who may have the library, ends and changes
   * nothing else. One that learns another user than the owner stops a started supervisor at once.
   */
  lemma TokenDecides(s: State, id: nat, token: Option<User>, throws: bool)
    requires Enabled(s, TokenArrives(id, token, throws))
    ensures var s1 := Step(s, TokenArrives(id, token, throws));
            var user := if token.Some? then token else if s.owner == s.stored then s.owner else None;
            var foreign := s.session.SignedIn? && user.Some? && s.owner.Some? && s.owner != user;
            var binds := s.session.SignedIn? && user.Some? && !throws && (s.owner.None? || s.owner == user);
            && (foreign ==> s1 == s.(checks := s.checks[id := Refused], paused := s1.paused, drive := s1.drive, appEngines := s1.appEngines))
            && (foreign && s.started ==> s1.paused && !HasEngines(s1))
            && (foreign && !s.started ==> s1.paused == s.paused && s1.drive == s.drive && s1.appEngines == s.appEngines)
            && (binds ==> s1 == s.(owner := user, checks := s.checks[id := Check.Bound(user.value)]))
            && (!foreign && !binds ==> s1 == s.(checks := s.checks - {id}))
  {
  }

  /** A refused check tells the session, and starts nothing. */
  lemma RefusalEndsElsewhere(s: State, id: nat)
    requires Enabled(s, FinishCheck(id)) && s.checks[id].Refused?
    ensures Step(s, FinishCheck(id)) == s.(session := Elsewhere, checks := s.checks - {id})
  {
  }

  /** Nothing that undoes a pause made by hand happens in the run. */
  ghost predicate NobodyResumes(events: seq<Event>) {
    forall e :: e in events ==> !e.ManualResume? && !e.SignInEnds? && !e.Restart?
  }

  /** A pause made by hand holds, whatever checks, sign-ins and apps come by, until someone resumes or a sign-in ends. */
  lemma {:induction false} HandPauseHolds(s: State, events: seq<Event>)
    requires !s.pausedForCredential && Possible(Step(s, ManualPause), events) && NobodyResumes(events)
    ensures var s1 := After(Step(s, ManualPause), events); s1.paused && !Running(s1)
  {
    PausedStays(Step(s, ManualPause), events);
  }

  lemma {:induction false} PausedStays(s: State, events: seq<Event>)
    requires HeldDown(s) && Possible(s, events) && NobodyResumes(events)
    ensures After(s, events).paused
    decreases |events|
  {
    if events != [] {
      assert events[0] in events;
      PauseStays(s, events[0]);
      hide Step, Enabled;
      PausedStays(Step(s, events[0]), events[1..]);
    }
  }

  predicate HeldDown(s: State) { s.paused && !s.pausedForCredential }

  lemma LearnHolds(s: State, id: nat, token: Option<User>, throws: bool)
    requires HeldDown(s)
    ensures HeldDown(Learn(s, id, token, throws))
  {
  }

  lemma FinishHolds(s: State, id: nat)
    requires HeldDown(s) && id in s.checks && !s.checks[id].Asking?
    ensures HeldDown(Finish(s, id))
  {
  }

  lemma StoreHolds(s: State, login: nat, check: nat)
    requires HeldDown(s) && login in s.logins
    ensures HeldDown(Store(s, login, check))
  {
  }

  lemma PauseStays(s: State, e: Event)
    requires HeldDown(s) && Enabled(s, e) && !e.ManualResume? && !e.SignInEnds? && !e.Restart?
    ensures HeldDown(Step(s, e))
  {
    hide Learn, Finish, Store;
    match e
    case TokenArrives(id, token, throws) => LearnHolds(s, id, token, throws);
    case FinishCheck(id) => FinishHolds(s, id);
    case StoreLogin(login, check) => StoreHolds(s, login, check);
    case _ =>
  }

  // ---- A supervisor that was stopped ----

  /**
   * Sync stopped for a user who is not the owner is a supervisor started, paused and without engines. It is not
   * stopped for good: a paused supervisor runs again without a restart exactly when a bound session finds
   * it also paused for lack of a credential, which any sign-out since the stop has made it, or when someone resumes by
   * hand what a rescan has listed since.
   */
  lemma StoppedStartsAgainExactly(s: State, e: Event)
    requires Inv(s) && s.paused && Enabled(s, e)
    ensures Running(Step(s, e)) <==>
      (e.FinishCheck? && s.checks[e.id].Bound? && s.pausedForCredential) || (e.ManualResume? && HasEngines(s))
  {
  }

  lemma SignOutMarksTheStopped(s: State)
    requires Inv(s) && s.started && s.paused
    ensures var s1 := Step(s, SignInEnds); s1.started && s1.paused && s1.pausedForCredential
  {
  }
}
