/** The session variables of the server and the stretches of code that change them. */
module SessionServer {
  import opened Wrappers
  import opened Session

  class Server {
    var session: SessionState
    var libraryUser: Option<User>
    var stored: Option<User>
    var hasSource: bool
    var supervisorStarted: bool
    var syncPausedForCredential: bool
    var drive: bool
    var appEngines: bool
    var paused: bool
    var appInstalled: bool
    var checks: map<nat, Check>
    var logins: map<nat, User>

    function Now(): State
      reads this
    {
      State(session, libraryUser, stored, hasSource, supervisorStarted, syncPausedForCredential,
            drive, appEngines, paused, appInstalled, checks, logins)
    }

    constructor (owner: Option<User>, stored: Option<User>, appInstalled: bool)
      ensures Now() == Boot(owner, stored, appInstalled)
    {
      session := if stored.Some? then SignedIn(stored, false) else SignedOut;
      libraryUser, this.stored, hasSource := owner, stored, stored.Some?;
      supervisorStarted, syncPausedForCredential, drive, appEngines, paused := false, false, false, false, false;
      this.appInstalled := appInstalled;
      checks, logins := map[], map[];
    }

    /** `supervisor.rescan()`, as far as it goes here: whether any app has an engine. */
    method RescanApps()
      modifies this`appEngines
      ensures Now() == Rescan(old(Now()))
    {
      if !(session.SignedIn? && hasSource) { return; }
      appEngines := appInstalled;
    }

    /** `supervisor.start()` */
    method StartSupervisor()
      modifies this`drive, this`appEngines
      ensures Now() == StartEngines(old(Now()))
    {
      if !(session.SignedIn? && hasSource) { return; }
      drive := true;
      RescanApps();
    }

    /** The end of an app's installation or removal. */
    method ChangeApps(installed: bool)
      modifies this`appInstalled, this`appEngines
      ensures Now() == Step(old(Now()), AppsChanged(installed))
    {
      appInstalled := installed;
      RescanApps();
    }

    method StartOrKickSupervisor()
      modifies this`supervisorStarted, this`syncPausedForCredential, this`drive, this`appEngines, this`paused
      ensures Now() == StartOrKick(old(Now()))
    {
      if !(session.SignedIn? && session.bound) { return; }
      if !supervisorStarted {
        StartSupervisor();
        supervisorStarted := true;
        return;
      }
      if syncPausedForCredential {
        syncPausedForCredential := false;
        StartSupervisor();
        paused := false;
      }
    }

    method PauseSyncWithoutCredential()
      modifies this`syncPausedForCredential, this`paused
      ensures Now() == PauseWithoutCredential(old(Now()))
    {
      if !supervisorStarted || (session.SignedIn? && session.bound) { return; }
      paused := true;
      syncPausedForCredential := true;
    }

    /** `checkSession` up to its first await. */
    method StartCheck(id: nat)
      requires Enabled(Now(), Event.StartCheck(id))
      modifies this`checks
      ensures Now() == Step(old(Now()), Event.StartCheck(id))
    {
      if !session.SignedIn? || !hasSource { return; }
      checks := checks[id := Asking];
    }

    /** From the token's arrival through `bindLibrary`, or through the call that stops the supervisor. */
    method TokenArrives(id: nat, token: Option<User>, throws: bool)
      requires Enabled(Now(), Event.TokenArrives(id, token, throws))
      modifies this
      ensures Now() == Step(old(Now()), Event.TokenArrives(id, token, throws))
    {
      checks := checks - {id};
      if !session.SignedIn? { return; }
      var userId := token;
      if token.None? && libraryUser.Some? && libraryUser == stored { userId := libraryUser; }
      if userId.None? { return; }
      if libraryUser.Some? && libraryUser != userId {
        if supervisorStarted {
          paused := true;
          drive, appEngines := false, false;
        }
        checks := checks[id := Refused];
        assert checks == old(checks)[id := Refused];
        return;
      }
      if throws { return; }
      libraryUser := userId;
      checks := checks[id := Bound(userId.value)];
      assert checks == old(checks)[id := Bound(userId.value)];
    }

    /** The rest of `checkSession`. */
    method FinishCheck(id: nat)
      requires Enabled(Now(), Event.FinishCheck(id))
      modifies this
      ensures Now() == Step(old(Now()), Event.FinishCheck(id))
    {
      session := if checks[id].Bound? then SignedIn(Some(checks[id].user), true) else Elsewhere;
      checks := checks - {id};
      StartOrKickSupervisor();
    }

    /** A sign-in's owner check; false is the refusal that stores nothing. */
    method AdmitLogin(login: nat, user: User) returns (admitted: bool)
      requires Enabled(Now(), Event.AdmitLogin(login, user))
      modifies this`logins
      ensures Now() == Step(old(Now()), Event.AdmitLogin(login, user))
      ensures admitted <==> libraryUser.None? || libraryUser == Some(user)
      ensures logins == if admitted then old(logins)[login := user] else old(logins)
    {
      if libraryUser.Some? && libraryUser.value != user { return false; }
      logins := logins[login := user];
      admitted := true;
    }

    method StoreLogin(login: nat, check: nat)
      requires Enabled(Now(), Event.StoreLogin(login, check))
      modifies this
      ensures Now() == Step(old(Now()), Event.StoreLogin(login, check))
    {
      stored, hasSource := Some(logins[login]), true;
      session := SignedIn(stored, false);
      logins := logins - {login};
      StartCheck(check);
    }

    /** The end of a sign-out, and of a sign-in the pool rejects. */
    method EndSignIn()
      modifies this`session, this`syncPausedForCredential, this`paused
      ensures Now() == Step(old(Now()), SignInEnds)
    {
      session := SignedOut;
      PauseSyncWithoutCredential();
    }
  }
}
