/** The cloud binding and its versioned cookie: who may overwrite the cookie, and when a credential
    scope that was opened earlier still counts. */
module Credentials {
  import opened Wrappers

  type Uuid = nat

  const COOKIE_SETTING_KEY := "cloud115.cookie"

  // ---------------------------------------------------------------- rows

  /** A setting row holds a secret, the mark of a cleared secret, or a public value. */
  datatype Content = Secret(value: string) | Cleared | Public(text: string)

  datatype Setting = Setting(content: Content, version: nat)

  datatype Status = Active | Expired | Unavailable | Detached

  datatype Binding = Binding(id: Uuid, account: string, root: string, status: Status, version: nat)

  /** `bound` holds the ids of every binding there ever was. */
  datatype Db = Db(settings: map<string, Setting>, binding: Option<Binding>, bound: set<Uuid>)

  datatype Problem = BindingExists | StateConflict | HasActiveJobs | DirectoryNotFound | CredentialsExpired | ProtocolError

  /** What a scope took with it when it was opened. */
  datatype Scope = Scope(cookies: string, version: nat, account: string, root: string, status: Status)

  // ---------------------------------------------------------------- versioned secrets

  /** Replace a secret if its version is the expected one, 0 standing for no row; a cleared row
      may be refilled, a public one may not. */
  function CompareAndSet(settings: map<string, Setting>, key: string, expected: nat, value: string): Option<map<string, Setting>> {
    if key !in settings then if expected != 0 then None else Some(settings[key := Setting(Secret(value), 1)])
    else if settings[key].version != expected || settings[key].content.Public? then None
    else Some(settings[key := Setting(Secret(value), settings[key].version + 1)])
  }

  /** Clearing keeps the row and moves its version on. */
  function Clear(settings: map<string, Setting>, key: string, expected: nat): Option<map<string, Setting>> {
    if key !in settings || settings[key].version != expected || !settings[key].content.Secret? then None
    else Some(settings[key := Setting(Cleared, settings[key].version + 1)])
  }

  function Get(settings: map<string, Setting>, key: string): Option<Setting> {
    if key in settings && settings[key].content.Secret? then Some(settings[key]) else None
  }

  // ---------------------------------------------------------------- the binding

  function Bind(db: Db, account: string, cookie: string, root: string, id: Uuid): Result<Db, Problem> {
    if db.binding.Some? && db.binding.value.account != account then Err(BindingExists)
    else
      var expected :=
        if db.binding.Some? then db.binding.value.version
        else if COOKIE_SETTING_KEY in db.settings then db.settings[COOKIE_SETTING_KEY].version else 0;
      match CompareAndSet(db.settings, COOKIE_SETTING_KEY, expected, cookie)
      case None => Err(StateConflict)
      case Some(settings) =>
        var version := settings[COOKIE_SETTING_KEY].version;
        var binding := if db.binding.Some? then db.binding.value.(root := root, status := Active, version := version)
                       else Binding(id, account, root, Active, version);
        Ok(Db(settings, Some(binding), db.bound + {binding.id}))
  }

  function Remove(db: Db, activeJobs: bool): Result<Db, Problem> {
    if activeJobs then Err(HasActiveJobs)
    else if db.binding == None then Ok(db)
    else match Clear(db.settings, COOKIE_SETTING_KEY, db.binding.value.version)
      case None => Err(StateConflict)
      case Some(settings) => Ok(db.(settings := settings, binding := None))
  }

  function ScopeOf(db: Db, binding: Binding, mismatch: Problem): Result<Option<Scope>, Problem> {
    match Get(db.settings, COOKIE_SETTING_KEY)
    case None => Err(mismatch)
    case Some(setting) =>
      if setting.version != binding.version then Err(mismatch)
      else Ok(Some(Scope(setting.content.value, setting.version, binding.account, binding.root, binding.status)))
  }

  /** The scope a probe opens; none when nothing is bound. */
  function OpenScope(db: Db): Result<Option<Scope>, Problem> {
    if db.binding == None then Ok(None) else ScopeOf(db, db.binding.value, StateConflict)
  }

  /** The scope of a cache operation, for one binding that must still be the current one. */
  function OpenCacheScope(db: Db, id: Uuid, account: string, root: string): Result<Option<Scope>, Problem> {
    if db.binding == None then Err(DirectoryNotFound)
    else
      var b := db.binding.value;
      if b.id != id || b.account != account || b.root != root then Err(DirectoryNotFound)
      else match b.status
        case Expired => Err(CredentialsExpired)
        case Detached => Err(DirectoryNotFound)
        case _ => ScopeOf(db, b, ProtocolError)
  }

  /** The binding is still at the version the scope read. */
  predicate Matches(db: Db, scope: Scope) {
    db.binding.Some? && db.binding.value.account == scope.account && db.binding.value.version == scope.version
  }

  /** Close a scope: record the outcome, and the cookie if the remote side renewed it. */
  function Finish(db: Db, scope: Scope, status: Status, snapshot: Option<string>): Db {
    if !Matches(db, scope) then db
    else
      var b := db.binding.value;
      if snapshot.Some? && snapshot.value != scope.cookies then
        match CompareAndSet(db.settings, COOKIE_SETTING_KEY, scope.version, snapshot.value)
        case None => db
        case Some(settings) =>
          db.(settings := settings, binding := Some(b.(version := settings[COOKIE_SETTING_KEY].version, status := status)))
      else db.(binding := Some(b.(status := status)))
  }

  // ---------------------------------------------------------------- runs

  datatype Action =
    | DoBind(account: string, cookie: string, root: string, id: Uuid)
    | DoRemove(activeJobs: bool)
    | DoFinish(scope: Scope, status: Status, snapshot: Option<string>)

  const EMPTY: Db := Db(map[], None, {})

  function Step(db: Db, a: Action): Db {
    match a
    case DoBind(account, cookie, root, id) => (match Bind(db, account, cookie, root, id) case Ok(db') => db' case Err(_) => db)
    case DoRemove(activeJobs) => (match Remove(db, activeJobs) case Ok(db') => db' case Err(_) => db)
    case DoFinish(scope, status, snapshot) => Finish(db, scope, status, snapshot)
  }

  /** A new binding gets an id no binding ever had. */
  predicate Allowed(db: Db, a: Action) {
    a.DoBind? ==> a.id !in db.bound
  }

  ghost predicate AllowedRun(db: Db, actions: seq<Action>)
    decreases |actions|
  {
    actions == [] || (Allowed(db, actions[0]) && AllowedRun(Step(db, actions[0]), actions[1..]))
  }

  function Run(db: Db, actions: seq<Action>): Db
    decreases |actions|
  {
    if actions == [] then db else Run(Step(db, actions[0]), actions[1..])
  }

  // ---------------------------------------------------------------- the invariant

  /** While bound, the row is a secret at the binding's version; unbound, it is absent or cleared. */
  predicate Inv(db: Db) {
    && (db.binding.Some? ==>
          COOKIE_SETTING_KEY in db.settings && db.settings[COOKIE_SETTING_KEY].content.Secret?
          && db.settings[COOKIE_SETTING_KEY].version == db.binding.value.version && db.binding.value.id in db.bound)
    && (db.binding == None && COOKIE_SETTING_KEY in db.settings ==> db.settings[COOKIE_SETTING_KEY].content == Cleared)
  }

  function Row(db: Db): Option<Setting> {
    if COOKIE_SETTING_KEY in db.settings then Some(db.settings[COOKIE_SETTING_KEY]) else None
  }

  function Version(db: Db): nat {
    if Row(db).Some? then Row(db).value.version else 0
  }

  /** Every step keeps the invariant. It either leaves the row alone, and with it the binding's
      identity, or moves the version up. */
  lemma StepKeepsInv(db: Db, a: Action)
    requires Inv(db)
    ensures Inv(Step(db, a))
    ensures Row(Step(db, a)) != Row(db) ==> Version(Step(db, a)) > Version(db)
    ensures Row(Step(db, a)) == Row(db) ==> SameBinding(db, Step(db, a))
    ensures db.bound <= Step(db, a).bound
  {
  }

  predicate SameBinding(db: Db, db': Db) {
    && (db'.binding.Some? <==> db.binding.Some?)
    && (db.binding.Some? ==>
          && db'.binding.value.id == db.binding.value.id && db'.binding.value.account == db.binding.value.account
          && db'.binding.value.root == db.binding.value.root && db'.binding.value.version == db.binding.value.version)
  }

  /** Over any run versions never go down, and a version seen twice is the same row and the same
      binding: no value comes back under an old version, through unbinding and rebinding included. */
  lemma {:induction false} RunKeepsInv(db: Db, actions: seq<Action>)
    requires Inv(db)
    ensures Inv(Run(db, actions)) && Version(db) <= Version(Run(db, actions))
    ensures Version(Run(db, actions)) == Version(db) ==> Row(Run(db, actions)) == Row(db) && SameBinding(db, Run(db, actions))
    decreases |actions|
  {
    hide Inv, Step, Row;
    if actions != [] {
      StepKeepsInv(db, actions[0]);
      RunKeepsInv(Step(db, actions[0]), actions[1..]);
    }
  }

  predicate Gone(db: Db, id: Uuid) {
    id in db.bound && (db.binding.Some? ==> db.binding.value.id != id)
  }

  /** A binding that was removed never comes back: jobs of it cannot open a scope again, not even
      when the same account is bound anew. */
  lemma {:induction false} RemovedBindingsStayGone(db: Db, actions: seq<Action>, id: Uuid, account: string, root: string)
    requires Inv(db) && AllowedRun(db, actions) && Gone(db, id)
    ensures OpenCacheScope(Run(db, actions), id, account, root) == Err(DirectoryNotFound)
    decreases |actions|
  {
    hide Inv;
    if actions != [] {
      StepKeepsInv(db, actions[0]);
      RemovedBindingsStayGone(Step(db, actions[0]), actions[1..], id, account, root);
    }
  }

  lemma EmptyIsSound()
    ensures Inv(EMPTY)
  {
  }

  predicate Opened(db: Db, scope: Scope) {
    || OpenScope(db) == Ok(Some(scope))
    || (db.binding.Some? && OpenCacheScope(db, db.binding.value.id, db.binding.value.account, db.binding.value.root) == Ok(Some(scope)))
  }

  lemma OpenedMeaning(db: Db, scope: Scope)
    requires Inv(db) && Opened(db, scope)
    ensures Row(db) == Some(Setting(Secret(scope.cookies), scope.version)) && Matches(db, scope)
  {
  }

  /** A scope opened at some moment still matches after any run exactly when the row is untouched:
      no login, no refresh by another scope and no unbinding went through in between. */
  lemma ScopeMatchesExactly(db: Db, scope: Scope, actions: seq<Action>)
    requires Inv(db) && Opened(db, scope)
    ensures Matches(Run(db, actions), scope) <==> Row(Run(db, actions)) == Row(db)
    ensures Matches(Run(db, actions), scope) <==> Version(Run(db, actions)) == scope.version
  {
    hide Step, Opened;
    RunKeepsInv(db, actions);
    OpenedMeaning(db, scope);
  }

  /** So closing it never overwrites a cookie other than the one it read; and when the scope is
      stale, closing it changes nothing at all. */
  lemma FinishOverwritesWhatItRead(db: Db, scope: Scope, actions: seq<Action>, status: Status, snapshot: Option<string>)
    requires Inv(db) && Opened(db, scope)
    ensures var current := Run(db, actions);
            var closed := Finish(current, scope, status, snapshot);
            && (Row(closed) != Row(current) ==>
                  && Row(current) == Some(Setting(Secret(scope.cookies), scope.version))
                  && snapshot.Some? && Row(closed) == Some(Setting(Secret(snapshot.value), scope.version + 1)))
            && (closed != current ==> Row(current) == Row(db))
  {
    hide Step, Opened;
    ScopeMatchesExactly(db, scope, actions);
    OpenedMeaning(db, scope);
    RunKeepsInv(db, actions);
  }

  /** Two scopes that read the same version cannot both store a cookie: the second one to close
      changes nothing. */
  lemma OnlyOneRefreshWins(db: Db, first: Scope, second: Scope, actions: seq<Action>, status: Status, snapshot: string,
                           status': Status, snapshot': Option<string>)
    requires Inv(db) && Opened(db, first) && Opened(db, second) && snapshot != first.cookies
    requires Matches(Run(db, actions), first)
    ensures var refreshed := Finish(Run(db, actions), first, status, Some(snapshot));
            Version(refreshed) == first.version + 1 && Finish(refreshed, second, status', snapshot') == refreshed
  {
    hide Step, Opened;
    ScopeMatchesExactly(db, first, actions);
    OpenedMeaning(db, first);
    OpenedMeaning(db, second);
    RunKeepsInv(db, actions);
  }

  /** Binding the known account and unbinding never fail on the stored version, whatever ran
      before. */
  lemma StoredVersionsAgree(actions: seq<Action>, account: string, cookie: string, root: string, id: Uuid)
    ensures var db := Run(EMPTY, actions);
            && (Bind(db, account, cookie, root, id).Err? <==> db.binding.Some? && db.binding.value.account != account)
            && Remove(db, false).Ok?
            && OpenScope(db).Ok?
  {
    hide Step;
    EmptyIsSound();
    RunKeepsInv(EMPTY, actions);
  }

  // ---------------------------------------------------------------- what the operations achieve

  /** Binding opens the account to cache operations with the new cookie, at the next version, whatever
      the binding's status was; a known binding keeps its id. */
  lemma BoundAccountOpens(db: Db, account: string, cookie: string, root: string, id: Uuid)
    requires Inv(db) && Bind(db, account, cookie, root, id).Ok?
    ensures var db' := Step(db, DoBind(account, cookie, root, id));
            && db'.binding.Some? && db'.binding.value.id == (if db.binding.Some? then db.binding.value.id else id)
            && OpenCacheScope(db', db'.binding.value.id, account, root) == Ok(Some(Scope(cookie, Version(db) + 1, account, root, Active)))
            && OpenScope(db') == OpenCacheScope(db', db'.binding.value.id, account, root)
            && (forall key :: key != COOKIE_SETTING_KEY ==>
                  (key in db'.settings <==> key in db.settings) && (key in db.settings && key in db'.settings ==> db'.settings[key] == db.settings[key]))
  {
  }

  /** After unbinding nothing is bound, the cookie cannot be read, and no scope that was open
      matches. */
  lemma UnboundAccountIsClosed(db: Db, id: Uuid, account: string, root: string, scope: Scope)
    requires Inv(db)
    ensures Remove(db, true) == Err(HasActiveJobs) && Remove(db, false).Ok?
    ensures var db' := Step(db, DoRemove(false));
            && OpenScope(db') == Ok(None) && OpenCacheScope(db', id, account, root) == Err(DirectoryNotFound)
            && Get(db'.settings, COOKIE_SETTING_KEY) == None && !Matches(db', scope)
  {
  }

  /** Closing a matching scope records its outcome, and a renewed cookie together with it: what a cache
      operation meets next is the new cookie, or the error of the recorded status. */
  lemma OutcomeIsRecorded(db: Db, scope: Scope, status: Status, snapshot: Option<string>)
    requires Inv(db) && Opened(db, scope)
    ensures var db' := Step(db, DoFinish(scope, status, snapshot));
            var renewed := snapshot.Some? && snapshot.value != scope.cookies;
            var b := db.binding.value;
            && db'.binding == Some(b.(status := status, version := if renewed then scope.version + 1 else scope.version))
            && OpenCacheScope(db', b.id, b.account, b.root) ==
               match status
               case Expired => Err(CredentialsExpired)
               case Detached => Err(DirectoryNotFound)
               case _ => Ok(Some(Scope(if renewed then snapshot.value else scope.cookies, db'.binding.value.version, b.account, b.root, status)))
  {
  }

  /** A cache operation is let in exactly for the current binding while it is active or unavailable, and
      then gets the stored cookie. */
  lemma CacheScopeOpensExactly(db: Db, id: Uuid, account: string, root: string)
    requires Inv(db)
    ensures var r := OpenCacheScope(db, id, account, root);
            && (r.Ok? <==>
                  && db.binding.Some? && db.binding.value.id == id && db.binding.value.account == account && db.binding.value.root == root
                  && (db.binding.value.status == Active || db.binding.value.status == Unavailable))
            && (r.Ok? ==> r.value.Some? && Row(db) == Some(Setting(Secret(r.value.value.cookies), r.value.value.version)))
  {
  }

  // ---------------------------------------------------------------- the service over its tables

  class BindingService {
    var settings: map<string, Setting>
    var binding: Option<Binding>
    ghost var bound: set<Uuid>

    ghost function Contents(): Db
      reads this
    {
      Db(settings, binding, bound)
    }

    ghost predicate Valid()
      reads this
    {
      Inv(Contents())
    }

    constructor ()
      ensures Valid() && Contents() == EMPTY
    {
      settings, binding, bound := map[], None, {};
    }

    method CompareAndSetSecret(key: string, expected: nat, value: string) returns (saved: Option<nat>)
      modifies this`settings
      ensures match CompareAndSet(old(settings), key, expected, value)
              case None => saved == None && settings == old(settings)
              case Some(after) => settings == after && key in settings && saved == Some(settings[key].version)
    {
      if key !in settings {
        if expected != 0 {
          return None;
        }
        settings := settings[key := Setting(Secret(value), 1)];
        return Some(1);
      }
      var setting := settings[key];
      if setting.version != expected || setting.content.Public? {
        return None;
      }
      setting := setting.(content := Secret(value));
      setting := setting.(version := setting.version + 1);
      settings := settings[key := setting];
      return Some(setting.version);
    }

    method DeleteSecret(key: string, expected: nat) returns (ok: bool)
      modifies this`settings
      ensures match Clear(old(settings), key, expected)
              case None => !ok && settings == old(settings)
              case Some(after) => ok && settings == after
    {
      if key !in settings || settings[key].version != expected || !settings[key].content.Secret? {
        return false;
      }
      var setting := settings[key].(content := Cleared);
      setting := setting.(version := setting.version + 1);
      settings := settings[key := setting];
      return true;
    }

    method BindAccount(account: string, cookie: string, root: string, id: Uuid) returns (r: Result<Binding, Problem>)
      requires Valid() && id !in bound
      modifies this
      ensures Valid() && Contents() == Step(old(Contents()), DoBind(account, cookie, root, id))
      ensures r.Ok? ==> binding == Some(r.value) && Version(Contents()) == Version(old(Contents())) + 1
                        && settings[COOKIE_SETTING_KEY].content == Secret(cookie)
      ensures r.Err? <==> old(binding).Some? && old(binding).value.account != account
    {
      StepKeepsInv(Contents(), DoBind(account, cookie, root, id));
      if binding.Some? && binding.value.account != account {
        return Err(BindingExists);
      }
      var expected := 0;
      if binding.Some? {
        expected := binding.value.version;
      } else if COOKIE_SETTING_KEY in settings {
        expected := settings[COOKIE_SETTING_KEY].version;
      }
      var saved := CompareAndSetSecret(COOKIE_SETTING_KEY, expected, cookie);
      if saved == None {
        return Err(StateConflict);
      }
      var bindingRow;
      if binding == None {
        bindingRow := Binding(id, account, root, Active, saved.value);
      } else {
        bindingRow := binding.value.(root := root);
        bindingRow := bindingRow.(status := Active);
        bindingRow := bindingRow.(version := saved.value);
      }
      binding := Some(bindingRow);
      bound := bound + {bindingRow.id};
      return Ok(bindingRow);
    }

    method Unbind(activeJobs: bool) returns (r: Result<bool, Problem>)
      requires Valid()
      modifies this`settings, this`binding
      ensures Valid() && Contents() == Step(old(Contents()), DoRemove(activeJobs))
      ensures r.Err? <==> activeJobs
      ensures r.Ok? ==> binding == None && r.value == old(binding).Some?
    {
      StepKeepsInv(Contents(), DoRemove(activeJobs));
      if activeJobs {
        return Err(HasActiveJobs);
      }
      if binding == None {
        return Ok(false);
      }
      var ok := DeleteSecret(COOKIE_SETTING_KEY, binding.value.version);
      if !ok {
        return Err(StateConflict);
      }
      binding := None;
      return Ok(true);
    }

    method FinishScope(scope: Scope, status: Status, snapshot: Option<string>)
      requires Valid()
      modifies this`settings, this`binding
      ensures Valid() && Contents() == Step(old(Contents()), DoFinish(scope, status, snapshot))
    {
      StepKeepsInv(Contents(), DoFinish(scope, status, snapshot));
      if binding == None || binding.value.account != scope.account || binding.value.version != scope.version {
        return;
      }
      var row := binding.value;
      if snapshot.Some? && snapshot.value != scope.cookies {
        var saved := CompareAndSetSecret(COOKIE_SETTING_KEY, scope.version, snapshot.value);
        if saved == None {
          return;
        }
        row := row.(version := saved.value);
      }
      row := row.(status := status);
      binding := Some(row);
    }
  }
}
