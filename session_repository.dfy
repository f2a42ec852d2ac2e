/** The session store adapter: one Redis hash per session id, holding the
    signed-in member's attributes under one field, or a guest's under another. */
module SessionRepository {
  import opened Wrappers
  import opened HashStore

  const MEMBER_SESSION_KEY: string := "LoginUserInfo"
  const GUEST_SESSION_KEY: string := "LoginAppId"
  /** Declared by the adapter, but no lookup reads it. */
  const USER_TYPE_KEY: string := "UserType"

  /** The attributes of one session, attribute name to value. */
  type SessionRecord = map<string, string>

  /** The session store as the principal lookup reads it: session id to a hash
      whose values are session records. */
  type SessionStore = Hash<SessionRecord>

  /** The same store as the user-type lookup reads it: hash values as strings. */
  type SessionTextStore = Hash<string>

  /** True iff the stores hold the same hash (or none) under `sessionId`. */
  predicate SameSession<V(==)>(s1: Hash<V>, s2: Hash<V>, sessionId: string)
  {
    (sessionId in s1 <==> sessionId in s2) &&
    (sessionId in s1 ==> s1[sessionId] == s2[sessionId])
  }

  /** The member record of the session, or failing that its guest record. */
  function GetPrincipalSession(sessions: SessionStore, sessionId: string): (r: Option<SessionRecord>)
    ensures sessionId in sessions && MEMBER_SESSION_KEY in sessions[sessionId] ==>
              r == Some(sessions[sessionId][MEMBER_SESSION_KEY])
    ensures sessionId in sessions && MEMBER_SESSION_KEY !in sessions[sessionId]
              && GUEST_SESSION_KEY in sessions[sessionId] ==>
              r == Some(sessions[sessionId][GUEST_SESSION_KEY])
    ensures r.None? <==>
              sessionId !in sessions ||
              (MEMBER_SESSION_KEY !in sessions[sessionId] && GUEST_SESSION_KEY !in sessions[sessionId])
  {
    HashGet(sessions, sessionId, MEMBER_SESSION_KEY)
      .Or(HashGet(sessions, sessionId, GUEST_SESSION_KEY))
      .Or(None)
  }

  /** The user type of the session, read with the same member-then-guest field order. */
  function GetUserType(sessions: SessionTextStore, sessionId: string): (r: Option<string>)
    ensures sessionId in sessions && MEMBER_SESSION_KEY in sessions[sessionId] ==>
              r == Some(sessions[sessionId][MEMBER_SESSION_KEY])
    ensures sessionId in sessions && MEMBER_SESSION_KEY !in sessions[sessionId]
              && GUEST_SESSION_KEY in sessions[sessionId] ==>
              r == Some(sessions[sessionId][GUEST_SESSION_KEY])
    ensures r.None? <==>
              sessionId !in sessions ||
              (MEMBER_SESSION_KEY !in sessions[sessionId] && GUEST_SESSION_KEY !in sessions[sessionId])
  {
    HashGet(sessions, sessionId, MEMBER_SESSION_KEY)
      .Or(HashGet(sessions, sessionId, GUEST_SESSION_KEY))
      .Or(None)
  }

  /** Only the hash stored under the session id itself decides the lookup. */
  lemma PrincipalSessionIsLocal(s1: SessionStore, s2: SessionStore, sessionId: string)
    requires SameSession(s1, s2, sessionId)
    ensures GetPrincipalSession(s1, sessionId) == GetPrincipalSession(s2, sessionId)
  {
  }

  /** Writing a hash under another session id leaves the lookup as it was. */
  lemma OtherSessionsIrrelevant(sessions: SessionStore, sessionId: string, other: string, h: map<string, SessionRecord>)
    requires other != sessionId
    ensures GetPrincipalSession(sessions[other := h], sessionId) == GetPrincipalSession(sessions, sessionId)
  {
  }

  /** Once a member record exists, whatever the guest field holds is ignored. */
  lemma MemberShadowsGuest(sessions: SessionStore, sessionId: string, guest: SessionRecord)
    requires sessionId in sessions && MEMBER_SESSION_KEY in sessions[sessionId]
    ensures GetPrincipalSession(sessions[sessionId := sessions[sessionId][GUEST_SESSION_KEY := guest]], sessionId)
            == GetPrincipalSession(sessions, sessionId)
  {
  }

  /** The user-type lookup never consults the `UserType` field. */
  lemma UserTypeKeyIgnored(sessions: SessionTextStore, sessionId: string, v: string)
    requires sessionId in sessions
    ensures GetUserType(sessions[sessionId := sessions[sessionId][USER_TYPE_KEY := v]], sessionId)
            == GetUserType(sessions, sessionId)
  {
  }
}
