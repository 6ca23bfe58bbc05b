/** Cache keys of the user domain. The cachekey package is not part of this model:
    the two layouts below are OpenIM's, and the model relies only on the facts
    proved here (each layout is injective and the two never collide). */
module CacheKey {

  const UserInfoPrefix: string := "USER_INFO:"
  const UserGlobalRecvMsgOptPrefix: string := "USER_GLOBAL_RECV_MSG_OPT_KEY:"

  function UserInfoKey(userID: string): string {
    UserInfoPrefix + userID
  }

  function UserGlobalRecvMsgOptKey(userID: string): string {
    UserGlobalRecvMsgOptPrefix + userID
  }

  /** One user-info key per user ID, in argument order. */
  function UserInfoKeys(userIDs: seq<string>): (keys: seq<string>)
    ensures |keys| == |userIDs|
    ensures forall i :: 0 <= i < |userIDs| ==> keys[i] == UserInfoKey(userIDs[i])
  {
    if userIDs == [] then [] else UserInfoKeys(userIDs[..|userIDs| - 1]) + [UserInfoKey(userIDs[|userIDs| - 1])]
  }

  /** One global-receive-option key per user ID, in argument order. */
  function UserGlobalRecvMsgOptKeys(userIDs: seq<string>): (keys: seq<string>)
    ensures |keys| == |userIDs|
    ensures forall i :: 0 <= i < |userIDs| ==> keys[i] == UserGlobalRecvMsgOptKey(userIDs[i])
  {
    if userIDs == [] then [] else UserGlobalRecvMsgOptKeys(userIDs[..|userIDs| - 1]) + [UserGlobalRecvMsgOptKey(userIDs[|userIDs| - 1])]
  }

  /** Distinct users never share a user-info key. */
  lemma UserInfoKeyInjective(a: string, b: string)
    ensures UserInfoKey(a) == UserInfoKey(b) ==> a == b
  {
    if UserInfoKey(a) == UserInfoKey(b) {
      assert a == UserInfoKey(a)[|UserInfoPrefix|..];
    }
  }

  /** Distinct users never share a global-receive-option key. */
  lemma UserGlobalRecvMsgOptKeyInjective(a: string, b: string)
    ensures UserGlobalRecvMsgOptKey(a) == UserGlobalRecvMsgOptKey(b) ==> a == b
  {
    if UserGlobalRecvMsgOptKey(a) == UserGlobalRecvMsgOptKey(b) {
      assert a == UserGlobalRecvMsgOptKey(a)[|UserGlobalRecvMsgOptPrefix|..];
    }
  }

  /** A user-info key is never a global-receive-option key, so invalidating one
      family never touches the other. */
  lemma KeyFamiliesDisjoint(a: string, b: string)
    ensures UserInfoKey(a) != UserGlobalRecvMsgOptKey(b)
  {
    assert UserInfoKey(a)[5] == 'I';
    assert UserGlobalRecvMsgOptKey(b)[5] == 'G';
  }
}
