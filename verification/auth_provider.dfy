/**
 * The session store: five fields of state (token, role, user id, user name,
 * team), mirrored in the browser's local storage under five keys so that a
 * reload recovers them.
 */
module AuthProvider {
  import opened Optional
  import opened Text

  /** The local-storage keys the session uses. */
  const SessionKeys: set<string> := {"token", "role", "userId", "userName", "team"}

  datatype Session = Session(
    token: Option<string>,
    role: Option<string>,
    userId: Option<int>,
    username: Option<string>,
    team: Option<string>)

  const NoSession := Session(None, None, None, None, None)

  /** `localStorage.getItem(k)`. */
  function GetItem(m: map<string, string>, k: string): Option<string> {
    if k in m then Some(m[k]) else None
  }

  /** The state a provider starts from; the user id is parsed (a missing or non-numeric id is NaN, here None). */
  function ReadSession(m: map<string, string>): Session {
    Session(
      GetItem(m, "token"),
      GetItem(m, "role"),
      match GetItem(m, "userId") case None => None case Some(v) => ParseInt(v),
      GetItem(m, "userName"),
      GetItem(m, "team"))
  }

  /** The storage after `login`'s five `setItem` calls; the id is stored as its decimal text. */
  function StoreSession(m: map<string, string>, token: string, role: string, id: int, username: string, team: string): map<string, string> {
    m["token" := token]["role" := role]["userId" := DecimalString(id)]["userName" := username]["team" := team]
  }

  /** The storage after `logout`'s five `removeItem` calls. */
  function ClearSession(m: map<string, string>): map<string, string> {
    m - SessionKeys
  }

  /** Login writes the five keys and leaves every other key as it was. */
  lemma StoreSessionExactly(m: map<string, string>, token: string, role: string, id: int, username: string, team: string)
    ensures var m' := StoreSession(m, token, role, id, username, team);
      && m'.Keys == m.Keys + SessionKeys
      && m'["token"] == token && m'["role"] == role && m'["userId"] == DecimalString(id)
      && m'["userName"] == username && m'["team"] == team
      && forall k :: k in m && k !in SessionKeys ==> m'[k] == m[k]
  {
  }

  /** Logout removes the five keys and leaves every other key as it was. */
  lemma ClearSessionExactly(m: map<string, string>)
    ensures ClearSession(m).Keys == m.Keys - SessionKeys
    ensures forall k :: k in ClearSession(m) ==> ClearSession(m)[k] == m[k]
  {
  }

  /** Logging out twice is logging out once. */
  lemma LogoutIdempotent(m: map<string, string>)
    ensures ClearSession(ClearSession(m)) == ClearSession(m)
  {
  }

  /** A provider created after a login recovers the five values; the id comes back through `parseInt`. */
  lemma ReloadAfterLogin(m: map<string, string>, token: string, role: string, id: int, username: string, team: string)
    ensures ReadSession(StoreSession(m, token, role, id, username, team))
      == Session(Some(token), Some(role), Some(id), Some(username), Some(team))
  {
    ParseIntOfDecimalString(id);
  }

  /** A provider created after a logout starts with no session. */
  lemma ReloadAfterLogout(m: map<string, string>)
    ensures ReadSession(ClearSession(m)) == NoSession
  {
  }

  /** The browser's local storage. */
  class LocalStorage {
    var items: map<string, string>

    constructor (items: map<string, string>)
      ensures this.items == items
    {
      this.items := items;
    }
  }

  class AuthProvider {
    const storage: LocalStorage
    var token: Option<string>
    var role: Option<string>
    var userId: Option<int>
    var username: Option<string>
    var team: Option<string>

    function Current(): Session
      reads this
    {
      Session(token, role, userId, username, team)
    }

    /** A provider reads its initial state from storage. */
    constructor (storage: LocalStorage)
      ensures this.storage == storage
      ensures Current() == ReadSession(storage.items)
    {
      this.storage := storage;
      var s := ReadSession(storage.items);
      token := s.token;
      role := s.role;
      userId := s.userId;
      username := s.username;
      team := s.team;
    }

    method Login(newToken: string, newRole: string, newId: int, newUsername: string, newTeam: string)
      modifies this, storage
      ensures storage.items == StoreSession(old(storage.items), newToken, newRole, newId, newUsername, newTeam)
      ensures Current() == Session(Some(newToken), Some(newRole), Some(newId), Some(newUsername), Some(newTeam))
    {
      storage.items := storage.items["token" := newToken];
      storage.items := storage.items["role" := newRole];
      storage.items := storage.items["userId" := DecimalString(newId)];
      storage.items := storage.items["userName" := newUsername];
      storage.items := storage.items["team" := newTeam];
      userId := Some(newId);
      token := Some(newToken);
      role := Some(newRole);
      username := Some(newUsername);
      team := Some(newTeam);
    }

    method Logout()
      modifies this, storage
      ensures storage.items == ClearSession(old(storage.items))
      ensures Current() == NoSession
    {
      // the five removeItem calls, one per session key
      storage.items := storage.items - SessionKeys;
      userId := None;
      token := None;
      role := None;
      username := None;
      team := None;
    }
  }

  /** Log in, then reload the page: the new provider holds the session the old one had. */
  method LoginThenReload(items: map<string, string>, t: string, r: string, id: int, u: string, tm: string)
    returns (before: Session, after: Session)
    ensures before == after == Session(Some(t), Some(r), Some(id), Some(u), Some(tm))
  {
    var storage := new LocalStorage(items);
    var provider := new AuthProvider(storage);
    provider.Login(t, r, id, u, tm);
    before := provider.Current();
    var reloaded := new AuthProvider(storage);
    ReloadAfterLogin(items, t, r, id, u, tm);
    after := reloaded.Current();
  }
}
