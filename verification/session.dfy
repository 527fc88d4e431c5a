/** The session store: a preferences file of string keys, of which the app
    owns four. `sessionFlow` and the single-field flows are projections of
    the store's current contents; `saveSession` and `clearSession` are single
    atomic edits of it. */
module Session {
  import opened Kotlin

  /** The contents of the preferences store. */
  type Prefs = map<string, string>

  const TokenKey := "token"
  const UsernameKey := "username"
  const UserIdKey := "user_id"
  const RoleKey := "role"

  const SessionKeys: set<string> := {TokenKey, UsernameKey, UserIdKey, RoleKey}

  /** What `sessionFlow` emits. */
  datatype SessionData = SessionData(
    token: Option<string>,
    username: Option<string>,
    userId: Option<string>,
    role: Option<string>)

  const NoSession := SessionData(None, None, None, None)

  /** `prefs[key]`: null when the key was never written. */
  function Lookup(prefs: Prefs, key: string): (r: Option<string>)
    ensures r.Some? <==> key in prefs
    ensures r.Some? ==> r.value == prefs[key]
  {
    if key in prefs then Some(prefs[key]) else None
  }

  /** The value `sessionFlow` emits for the store's current contents. */
  function Read(prefs: Prefs): SessionData {
    SessionData(
      Lookup(prefs, TokenKey),
      Lookup(prefs, UsernameKey),
      Lookup(prefs, UserIdKey),
      Lookup(prefs, RoleKey))
  }

  /** The value `getToken` emits. */
  function GetToken(prefs: Prefs): Option<string> {
    Lookup(prefs, TokenKey)
  }

  /** The value `getUsername` emits. */
  function GetUsername(prefs: Prefs): Option<string> {
    Lookup(prefs, UsernameKey)
  }

  /** The value `getUserId` emits. */
  function GetUserId(prefs: Prefs): Option<string> {
    Lookup(prefs, UserIdKey)
  }

  /** `saveSession`: one edit writing the four keys. A following read sees
      exactly the saved tuple, and every other key keeps its value. */
  function Save(prefs: Prefs, token: string, username: string, userId: string, role: string): (r: Prefs)
    ensures Read(r) == SessionData(Some(token), Some(username), Some(userId), Some(role))
    ensures r.Keys == prefs.Keys + SessionKeys
    ensures forall k :: k in prefs && k !in SessionKeys ==> r[k] == prefs[k]
  {
    prefs[TokenKey := token][UsernameKey := username][UserIdKey := userId][RoleKey := role]
  }

  /** `clearSession`: `prefs.clear()` empties the whole store, so every field
      of the session reads as null afterwards. */
  function Clear(prefs: Prefs): (r: Prefs)
    ensures Read(r) == NoSession
    ensures forall k :: Lookup(r, k) == None
  {
    map[]
  }

  /** A session key that was never written reads as null. */
  lemma UnwrittenKeysReadNull(prefs: Prefs)
    ensures TokenKey !in prefs <==> Read(prefs).token == None
    ensures UsernameKey !in prefs <==> Read(prefs).username == None
    ensures UserIdKey !in prefs <==> Read(prefs).userId == None
    ensures RoleKey !in prefs <==> Read(prefs).role == None
    ensures prefs == map[] ==> Read(prefs) == NoSession
  {
  }

  /** The single-field flows always agree with `sessionFlow`. */
  lemma ProjectionsAgree(prefs: Prefs)
    ensures GetToken(prefs) == Read(prefs).token
    ensures GetUsername(prefs) == Read(prefs).username
    ensures GetUserId(prefs) == Read(prefs).userId
  {
  }

  /** Two saves leave only the second tuple: last write wins, and the store
      is the same as after the second save alone. */
  lemma LastWriteWins(prefs: Prefs, t1: string, u1: string, i1: string, r1: string,
                      t2: string, u2: string, i2: string, r2: string)
    ensures Save(Save(prefs, t1, u1, i1, r1), t2, u2, i2, r2) == Save(prefs, t2, u2, i2, r2)
    ensures Read(Save(Save(prefs, t1, u1, i1, r1), t2, u2, i2, r2)) == SessionData(Some(t2), Some(u2), Some(i2), Some(r2))
  {
  }

  /** Saving after a clear, or clearing after a save, depends only on the
      last operation as far as the session is concerned. */
  lemma ClearForgetsSave(prefs: Prefs, t: string, u: string, i: string, r: string)
    ensures Read(Clear(Save(prefs, t, u, i, r))) == NoSession
    ensures Read(Save(Clear(prefs), t, u, i, r)) == Read(Save(prefs, t, u, i, r))
  {
  }
}
