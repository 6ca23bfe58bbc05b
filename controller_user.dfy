/** The storage controller of pkg/common/storage/controller: the user lookup that
    turns a partial batch read into an error, and the create that goes straight to
    the database. */
module Controller {
  import opened Errs
  import opened Model
  import ReadThrough

  /** FindWithError over what the cache's GetUsersInfo returned: a cache error is
      passed on, fewer (or more) users than IDs is record-not-found, and otherwise
      the cache's list is returned unchanged. */
  function FindWithError(userIDs: seq<string>, cached: Result<seq<UserModel>>): (r: Result<seq<UserModel>>)
    ensures r.Ok? <==> cached.Ok? && |cached.value| == |userIDs|
    ensures r.Ok? ==> r == cached
    ensures cached.Err? ==> r == cached
    ensures cached.Ok? && |cached.value| != |userIDs| ==> r == Err(RecordNotFound("userID not found"))
  {
    if cached.Err? then cached
    else if |cached.value| != |userIDs| then Err(RecordNotFound("userID not found"))
    else cached
  }

  /** Create hands the users to the database and returns its answer; it queues no
      cache invalidation (it is given no cache to queue on). */
  function Create(users: seq<UserModel>, dbCreate: seq<UserModel> -> Option<Error>): (err: Option<Error>)
    ensures err == dbCreate(users)
  {
    dbCreate(users)
  }

  /** FindWithError over the Redis read path succeeds exactly when every requested
      user was found and no hard error occurred; it then returns the users in the
      order of the IDs. A hard error is passed on; otherwise a missing user gives
      record-not-found. */
  lemma FindWithErrorOverCache(userIDs: seq<string>, rs: seq<Result<UserModel>>)
    requires |rs| == |userIDs|
    ensures FindWithError(userIDs, ReadThrough.Collect(rs)).Ok? <==> forall i :: 0 <= i < |rs| ==> rs[i].Ok?
    ensures FindWithError(userIDs, ReadThrough.Collect(rs)).Ok? ==>
      forall i :: 0 <= i < |rs| ==> FindWithError(userIDs, ReadThrough.Collect(rs)).value[i] == rs[i].value
    ensures ReadThrough.HardFree(rs) && (exists i :: 0 <= i < |rs| && rs[i].Err?) ==>
      FindWithError(userIDs, ReadThrough.Collect(rs)) == Err(RecordNotFound("userID not found"))
    ensures !ReadThrough.HardFree(rs) ==> FindWithError(userIDs, ReadThrough.Collect(rs)) == ReadThrough.Collect(rs)
  {
    ReadThrough.CollectMeaning(rs);
    ReadThrough.FoundAll(rs);
    if !ReadThrough.HardFree(rs) {
      var i :| 0 <= i < |rs| && ReadThrough.IsHard(rs[i]) && ReadThrough.HardFree(rs[..i]) && ReadThrough.Collect(rs) == Err(rs[i].error);
      assert !rs[i].Ok?;
    }
  }
}
