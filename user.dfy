/** User accounts: the login lockout, permission checks, the per-user folder
    name, saved-view deletion and the username chosen for a new Google user.
    Times are seconds supplied by the caller. */
module UserModel {
  import opened Wrappers
  import opened Text

  /** Failures from which every further failure locks the account. */
  const MaxFailedAttempts: int := 5
  /** The lock lasts 30 minutes. */
  const LockSeconds: nat := 30 * 60

  /** The fields `record_login_attempt` updates. */
  datatype LoginState = LoginState(failedAttempts: int, lockedUntil: Option<nat>, lastLogin: Option<nat>,
                                   lastActivity: Option<nat>)

  /** One login attempt: whether it succeeded and when it happened. */
  datatype Attempt = Attempt(success: bool, now: nat)

  /** `record_login_attempt`: success resets the counter and the lock and
      records the login; failure counts, and locks for 30 minutes once the
      count is at least 5. Every attempt records activity. */
  function Step(st: LoginState, a: Attempt): (r: LoginState)
    ensures r.lastActivity == Some(a.now)
    ensures a.success ==> r.failedAttempts == 0 && r.lockedUntil.None? && r.lastLogin == Some(a.now)
    ensures !a.success ==> r.failedAttempts == st.failedAttempts + 1 && r.lastLogin == st.lastLogin
    ensures !a.success ==> r.lockedUntil == if r.failedAttempts >= MaxFailedAttempts
                                            then Some(a.now + LockSeconds) else st.lockedUntil
  {
    if a.success then LoginState(0, None, Some(a.now), Some(a.now))
    else
      var failed := st.failedAttempts + 1;
      LoginState(failed, if failed >= MaxFailedAttempts then Some(a.now + LockSeconds) else st.lockedUntil,
                 st.lastLogin, Some(a.now))
  }

  /** A run of attempts, oldest first. */
  function AfterAttempts(st: LoginState, attempts: seq<Attempt>): LoginState {
    if attempts == [] then st else Step(AfterAttempts(st, attempts[..|attempts| - 1]), attempts[|attempts| - 1])
  }

  /** `is_account_locked`: locked while `now` is before the lock's end. */
  predicate Locked(st: LoginState, now: nat) {
    st.lockedUntil.Some? && now < st.lockedUntil.value
  }

  /** The state of a new account. */
  const Fresh: LoginState := LoginState(0, None, None, None)

  /** When the last `m` attempts all failed, the counter is at least `m`. */
  lemma {:induction false} TrailingFailuresCount(st: LoginState, attempts: seq<Attempt>, m: nat)
    requires st.failedAttempts >= 0 && m <= |attempts|
    requires forall k :: |attempts| - m <= k < |attempts| ==> !attempts[k].success
    ensures AfterAttempts(st, attempts).failedAttempts >= m
  {
    if attempts != [] {
      var init := attempts[..|attempts| - 1];
      if m > 0 {
        TrailingFailuresCount(st, init, m - 1);
      } else {
        NeverNegative(st, init);
      }
    }
  }

  lemma {:induction false} NeverNegative(st: LoginState, attempts: seq<Attempt>)
    requires st.failedAttempts >= 0
    ensures AfterAttempts(st, attempts).failedAttempts >= 0
  {
    if attempts != [] {
      NeverNegative(st, attempts[..|attempts| - 1]);
    }
  }

  /** Five failures in a row lock the account for 30 minutes from the last one. */
  lemma FiveFailuresLock(st: LoginState, attempts: seq<Attempt>)
    requires st.failedAttempts >= 0 && |attempts| >= 5
    requires forall k :: |attempts| - 5 <= k < |attempts| ==> !attempts[k].success
    ensures AfterAttempts(st, attempts).lockedUntil == Some(attempts[|attempts| - 1].now + LockSeconds)
    ensures Locked(AfterAttempts(st, attempts), attempts[|attempts| - 1].now)
  {
    TrailingFailuresCount(st, attempts, 5);
  }

  /** A new account is never locked by fewer than five attempts. */
  lemma {:induction false} FewFailuresNoLock(attempts: seq<Attempt>)
    requires |attempts| < 5
    ensures AfterAttempts(Fresh, attempts).lockedUntil.None?
    ensures AfterAttempts(Fresh, attempts).failedAttempts <= |attempts|
  {
    if attempts != [] {
      FewFailuresNoLock(attempts[..|attempts| - 1]);
    }
  }

  /** A successful attempt unlocks the account at every time. */
  lemma SuccessUnlocks(st: LoginState, now: nat, later: nat)
    ensures !Locked(Step(st, Attempt(true, now)), later)
  {
  }

  /** A saved view entry; only its name matters here. */
  datatype ViewEntry = ViewEntry(name: string, description: Option<string>, filePath: string)

  /** `[v for v in views if v['name'] != name]`. */
  function WithoutName(views: seq<ViewEntry>, name: string): (r: seq<ViewEntry>)
    ensures forall v :: v in r <==> v in views && v.name != name
    ensures |r| <= |views|
  {
    if views == [] then []
    else WithoutName(views[..|views| - 1], name)
         + (if views[|views| - 1].name != name then [views[|views| - 1]] else [])
  }

  /** The filter works piecewise, so the kept views stay in their order. */
  lemma {:induction false} WithoutNameAppend(a: seq<ViewEntry>, b: seq<ViewEntry>, name: string)
    ensures WithoutName(a + b, name) == WithoutName(a, name) + WithoutName(b, name)
  {
    if b != [] {
      assert (a + b)[..|a + b| - 1] == a + b[..|b| - 1];
      WithoutNameAppend(a, b[..|b| - 1], name);
    } else {
      assert a + b == a;
    }
  }

  /** Deleting twice is deleting once. */
  lemma {:induction false} WithoutNameIdempotent(views: seq<ViewEntry>, name: string)
    ensures WithoutName(WithoutName(views, name), name) == WithoutName(views, name)
  {
    if views != [] {
      var init := views[..|views| - 1];
      var last := views[|views| - 1];
      WithoutNameIdempotent(init, name);
      WithoutNameAppend(WithoutName(init, name), if last.name != name then [last] else [], name);
      if last.name != name {
        assert [last][..0] == [];
      }
    }
  }

  /** `self.email.replace('@', '_').replace('.', '_')`. */
  function SafeEmail(email: string): (r: string)
    ensures |r| == |email|
    ensures '@' !in r && '.' !in r
    ensures forall k :: 0 <= k < |email| && email[k] != '@' && email[k] != '.' ==> r[k] == email[k]
  {
    seq(|email|, k requires 0 <= k < |email| => if email[k] == '@' || email[k] == '.' then '_' else email[k])
  }

  /** A folder name is already safe. */
  lemma SafeEmailIdempotent(email: string)
    ensures SafeEmail(SafeEmail(email)) == SafeEmail(email)
  {
  }

  /** `email.split('@')[0]`: the text before the first '@'. */
  function UsernameBase(email: string): (r: string)
    ensures '@' !in r
    ensures |r| <= |email| && r == email[..|r|]
    ensures |r| < |email| ==> email[|r|] == '@'
  {
    if email == [] || email[0] == '@' then []
    else
      var rest := UsernameBase(email[1..]);
      assert email[1..][..|rest|] == email[1..|rest| + 1];
      [email[0]] + rest
  }

  /** The usernames tried in order: base, base1, base2, ... */
  function Candidate(base: string, i: nat): string {
    if i == 0 then base else base + NatToString(i)
  }

  /** Different counters give different candidates. */
  lemma CandidatesDistinct(base: string, i: nat, j: nat)
    requires i != j
    ensures Candidate(base, i) != Candidate(base, j)
  {
    if i != 0 && j != 0 && Candidate(base, i) == Candidate(base, j) {
      assert NatToString(i) == Candidate(base, i)[|base|..];
      assert NatToString(j) == Candidate(base, j)[|base|..];
      NatToStringInjective(i, j);
    }
  }

  class User {
    var email: string
    var username: Option<string>
    var role: string
    /** The permissions column: JSON text, None when unset. */
    var permissions: Option<string>
    var failedLoginAttempts: int
    var accountLockedUntil: Option<nat>
    var lastLogin: Option<nat>
    var lastActivity: Option<nat>
    var savedViews: seq<ViewEntry>

    /** A new account with the given role. */
    constructor (email: string, role: string)
      ensures this.email == email && this.role == role && username.None? && permissions.None?
      ensures State() == Fresh && savedViews == []
    {
      this.email := email;
      this.role := role;
      username := None;
      permissions := None;
      failedLoginAttempts := 0;
      accountLockedUntil := None;
      lastLogin := None;
      lastActivity := None;
      savedViews := [];
    }

    function State(): LoginState
      reads this
    {
      LoginState(failedLoginAttempts, accountLockedUntil, lastLogin, lastActivity)
    }

    /** `record_login_attempt`. */
    method RecordLoginAttempt(success: bool, now: nat)
      modifies this
      ensures State() == Step(old(State()), Attempt(success, now))
      ensures email == old(email) && username == old(username) && role == old(role)
      ensures permissions == old(permissions) && savedViews == old(savedViews)
    {
      if success {
        failedLoginAttempts := 0;
        accountLockedUntil := None;
        lastLogin := Some(now);
      } else {
        failedLoginAttempts := failedLoginAttempts + 1;
        if failedLoginAttempts >= MaxFailedAttempts {
          accountLockedUntil := Some(now + LockSeconds);
        }
      }
      lastActivity := Some(now);
    }

    /** `is_account_locked`: false without a lock, else whether `now` is before it. */
    predicate IsAccountLocked(now: nat): (r: bool)
      reads this
      ensures accountLockedUntil.None? ==> !r
      ensures accountLockedUntil.Some? ==> (r <==> now < accountLockedUntil.value)
    {
      Locked(State(), now)
    }

    /** `has_permission`: admins have every permission; otherwise the decoded
        permissions list (`loads` is `json.loads`) must hold it. */
    predicate HasPermission(permission: string, loads: string -> seq<string>): (r: bool)
      reads this
      ensures role == "admin" ==> r
      ensures role != "admin" && (permissions.None? || permissions.value == "") ==> !r
      ensures role != "admin" && permissions.Some? && permissions.value != "" ==>
                (r <==> permission in loads(permissions.value))
    {
      role == "admin" || (permissions.Some? && permissions.value != "" && permission in loads(permissions.value))
    }

    /** `delete_saved_view`: every view with that name goes, the rest stay in order. */
    method DeleteSavedView(name: string)
      modifies this
      ensures savedViews == WithoutName(old(savedViews), name)
      ensures State() == old(State()) && email == old(email) && role == old(role)
      ensures username == old(username) && permissions == old(permissions)
    {
      savedViews := WithoutName(savedViews, name);
    }
  }

  /** Permission checks: an admin has everything, and a user without a
      permissions text has nothing. */
  lemma PermissionCases(u: User, permission: string, loads: string -> seq<string>)
    ensures u.role == "admin" ==> u.HasPermission(permission, loads)
    ensures u.role != "admin" && (u.permissions.None? || u.permissions.value == "") ==> !u.HasPermission(permission, loads)
  {
  }

  /** The username loop of `create_from_google`: the first of base, base1,
      base2, ... that is not `taken` (the usernames already in the table). */
  method ChooseUsername(email: string, taken: set<string>) returns (username: string)
    ensures username !in taken
    ensures exists k: nat :: username == Candidate(UsernameBase(email), k)
                             && forall j: nat :: j < k ==> Candidate(UsernameBase(email), j) in taken
  {
    var base := UsernameBase(email);
    var counter: nat := 1;
    username := base;
    ghost var tried: set<string> := {};
    while username in taken
      invariant counter >= 1 && username == Candidate(base, counter - 1)
      invariant forall j: nat :: j < counter - 1 ==> Candidate(base, j) in taken
      invariant tried <= taken
      invariant forall i: nat :: i >= counter - 1 ==> Candidate(base, i) !in tried
      decreases taken - tried
    {
      tried := tried + {username};
      forall i: nat | i >= counter ensures Candidate(base, i) !in tried {
        CandidatesDistinct(base, i, counter - 1);
      }
      username := base + NatToString(counter);
      counter := counter + 1;
    }
  }

  /** The new Google user: role viewer, the first free candidate username, and
      the login state and views of a new account. */
  method CreateFromGoogle(email: string, taken: set<string>) returns (u: User)
    ensures fresh(u) && u.email == email && u.role == "viewer"
    ensures u.username.Some? && u.username.value !in taken
    ensures exists k: nat :: u.username.value == Candidate(UsernameBase(email), k)
                             && forall j: nat :: j < k ==> Candidate(UsernameBase(email), j) in taken
    ensures u.State() == Fresh && u.savedViews == [] && u.permissions.None?
  {
    u := new User(email, "viewer");
    var name := ChooseUsername(email, taken);
    u.username := Some(name);
  }
}
