/** The user RPC service of internal/rpc/user: registration checks the request
    and converts it into stored users; the designated-users lookup passes the
    storage controller's errors on. */
module RpcUser {
  import opened Errs
  import opened Model
  import opened Sequences
  import Controller

  /** pbuser.UserInfo, reduced to the fields registration reads. */
  datatype UserInfo = UserInfo(userID: string, nickname: string)

  function UserIDs(users: seq<UserInfo>): (ids: seq<string>)
    ensures |ids| == |users| && forall i :: 0 <= i < |users| ==> ids[i] == users[i].userID
  {
    seq(|users|, i requires 0 <= i < |users| => users[i].userID)
  }

  /** The stored user for one request user: only the ID and the nickname are copied. */
  function ToModel(u: UserInfo): UserModel
  {
    UserModel(u.userID, u.nickname)
  }

  function ToModels(users: seq<UserInfo>): (ms: seq<UserModel>)
    ensures |ms| == |users| && forall i :: 0 <= i < |users| ==> ms[i] == ToModel(users[i])
  {
    seq(|users|, i requires 0 <= i < |users| => ToModel(users[i]))
  }

  /** The per-user check, in the order the source makes it. */
  function CheckUserID(id: string): Option<Error>
  {
    if id == "" then Some(ArgsInvalid("userID is empty"))
    else if ':' in id then Some(ArgsInvalid("userID contains ':' is invalid userID"))
    else None
  }

  /** The first per-user check that fails, scanning the users in order. */
  function FirstBadUser(users: seq<UserInfo>): Option<Error>
  {
    if users == [] then None
    else if CheckUserID(users[0].userID).Some? then CheckUserID(users[0].userID)
    else FirstBadUser(users[1..])
  }

  /** The error UserRegister reports for a request, if any: an empty list first,
      then a repeated ID, then the first user whose ID is empty or holds ':'. */
  function Validate(users: seq<UserInfo>): Option<Error>
  {
    if |users| == 0 then Some(ArgsInvalid("users is empty"))
    else if !NoDuplicates(UserIDs(users)) then Some(ArgsInvalid("userID repeated"))
    else FirstBadUser(users)
  }

  /** A request is accepted exactly when it is non-empty, repeats no ID, and every
      ID is non-empty and free of ':'. */
  lemma ValidateAccepts(users: seq<UserInfo>)
    ensures Validate(users).None? <==>
      |users| > 0 && NoDuplicates(UserIDs(users)) &&
      forall i :: 0 <= i < |users| ==> users[i].userID != "" && ':' !in users[i].userID
  {
    FirstBadUserNone(users);
  }

  lemma {:induction false} FirstBadUserNone(users: seq<UserInfo>)
    ensures FirstBadUser(users).None? <==> forall i :: 0 <= i < |users| ==> CheckUserID(users[i].userID).None?
  {
    if users != [] {
      FirstBadUserNone(users[1..]);
      assert forall i :: 1 <= i < |users| ==> users[i] == users[1..][i - 1];
    }
  }

  /** With every user before position i passing, the first failure is found from i on. */
  lemma {:induction false} FirstBadUserSkip(users: seq<UserInfo>, i: nat)
    requires i <= |users|
    requires forall j :: 0 <= j < i ==> CheckUserID(users[j].userID).None?
    ensures FirstBadUser(users) == FirstBadUser(users[i..])
  {
    if i > 0 {
      assert users[1..][i - 1..] == users[i..];
      FirstBadUserSkip(users[1..], i - 1);
    }
  }

  /** UserRegister. `created` is what Create was handed (None when it was not called);
      `counted` says whether the register counter was incremented. */
  method UserRegister(users: seq<UserInfo>, dbCreate: seq<UserModel> -> Option<Error>)
    returns (err: Option<Error>, created: Option<seq<UserModel>>, counted: bool)
    ensures Validate(users).Some? ==> err == Validate(users) && created == None && !counted
    ensures Validate(users).None? ==> created == Some(ToModels(users)) && err == dbCreate(ToModels(users))
    ensures counted <==> created.Some? && err.None?
  {
    created, counted := None, false;
    if |users| == 0 {
      return Some(ArgsInvalid("users is empty")), created, counted;
    }
    if !NoDuplicates(UserIDs(users)) {
      return Some(ArgsInvalid("userID repeated")), created, counted;
    }
    var i := 0;
    while i < |users|
      invariant 0 <= i <= |users|
      invariant forall j :: 0 <= j < i ==> CheckUserID(users[j].userID).None?
    {
      if users[i].userID == "" {
        FirstBadUserSkip(users, i);
        return Some(ArgsInvalid("userID is empty")), created, counted;
      }
      if ':' in users[i].userID {
        FirstBadUserSkip(users, i);
        return Some(ArgsInvalid("userID contains ':' is invalid userID")), created, counted;
      }
      i := i + 1;
    }
    FirstBadUserSkip(users, |users|);
    var models: seq<UserModel> := [];
    i := 0;
    while i < |users|
      invariant 0 <= i <= |users|
      invariant models == ToModels(users[..i])
    {
      models := models + [ToModel(users[i])];
      i := i + 1;
    }
    assert users[..|users|] == users;
    created := Some(models);
    err := Controller.Create(models, dbCreate);
    if err.Some? {
      return err, created, counted;
    }
    counted := true;
  }

  /** GetDesignateUsers: the controller's error, or its users converted for the reply. */
  function GetDesignateUsers(userIDs: seq<string>, cached: Result<seq<UserModel>>): (r: Result<seq<UserInfo>>)
    ensures r.Err? <==> Controller.FindWithError(userIDs, cached).Err?
    ensures r.Err? ==> r.error == Controller.FindWithError(userIDs, cached).error
    ensures r.Ok? ==> |r.value| == |userIDs|
    ensures r.Ok? ==> forall i :: 0 <= i < |userIDs| ==> ToModel(r.value[i]) == cached.value[i]
  {
    var found := Controller.FindWithError(userIDs, cached);
    if found.Err? then Err(found.error)
    else Ok(seq(|found.value|, i requires 0 <= i < |found.value| => UserInfo(found.value[i].userID, found.value[i].nickname)))
  }
}
