/** The user cache of pkg/common/storage/cache/redis: a handle that embeds a
    batch deleter, reads users through the cache and queues their keys for
    invalidation on a fresh clone. */
module RedisUser {
  import opened Errs
  import opened Model
  import CacheKey
  import BatchHandler
  import ReadThrough

  /** userExpireTime: twelve hours, in seconds. */
  const UserExpireTime: int := 60 * 60 * 12

  /** redis.User. The embedded cache.BatchDeleter is the field `deleter`. */
  class User {
    const deleter: BatchHandler.BatchDeleter
    const userDB: UserDB
    const expireTime: int
    const rcClient: BatchHandler.RocksClient

    /** The struct literal. */
    constructor (deleter: BatchHandler.BatchDeleter, rcClient: BatchHandler.RocksClient, userDB: UserDB, expireTime: int)
      ensures this.deleter == deleter && this.rcClient == rcClient && this.userDB == userDB && this.expireTime == expireTime
    {
      this.deleter := deleter;
      this.rcClient := rcClient;
      this.userDB := userDB;
      this.expireTime := expireTime;
    }

    /** CloneUserCache: the same expiry, database and rockscache client over a clone
        of the batch deleter. */
    method CloneUserCache() returns (c: User)
      ensures fresh(c) && fresh(c.deleter)
      ensures c.expireTime == expireTime && c.userDB == userDB && c.rcClient == rcClient
      ensures c.deleter.client == deleter.client && c.deleter.rocks == deleter.rocks
      ensures c.deleter.pubTopics == deleter.pubTopics && c.deleter.keys == deleter.keys
    {
      var d := deleter.Clone();
      c := new User(d, rcClient, userDB, expireTime);
    }

    /** GetUsersInfo: batchGetCache over the user-info keys, loading misses with
        userDB.Take. Fetch2, Take and the JSON codec are the parameters. */
    method GetUsersInfo(userIDs: seq<string>, fetch: nat -> ReadThrough.FetchOutcome,
                        take: string -> Result<UserModel>, codec: ReadThrough.Codec<UserModel>)
      returns (r: Result<seq<UserModel>>)
      ensures r == ReadThrough.Collect(ReadThrough.PerKey(userIDs, CacheKey.UserInfoKey, expireTime, fetch, take, codec))
    {
      r := ReadThrough.BatchGetCache(expireTime, userIDs, CacheKey.UserInfoKey, fetch, take, codec);
    }

    /** DelUsersInfo: a clone whose pending keys are this handle's followed by one
        user-info key per ID, in argument order; this handle's keys are untouched. */
    method DelUsersInfo(userIDs: seq<string>) returns (c: User)
      ensures fresh(c) && fresh(c.deleter)
      ensures c.deleter.keys == deleter.keys + CacheKey.UserInfoKeys(userIDs)
      ensures deleter.keys == old(deleter.keys)
      ensures c.expireTime == expireTime && c.userDB == userDB && c.rcClient == rcClient
      ensures c.deleter.client == deleter.client && c.deleter.rocks == deleter.rocks
    {
      var keys: seq<string> := [];
      var i := 0;
      while i < |userIDs|
        invariant 0 <= i <= |userIDs|
        invariant keys == CacheKey.UserInfoKeys(userIDs[..i])
      {
        assert userIDs[..i + 1][..i] == userIDs[..i];
        keys := keys + [CacheKey.UserInfoKey(userIDs[i])];
        i := i + 1;
      }
      assert userIDs[..|userIDs|] == userIDs;
      c := CloneUserCache();
      c.deleter.AddKeys(keys);
    }
  }

  /** NewUser: a twelve-hour user cache whose deleter starts empty and publishes to no topic. */
  method NewUser(rdb: BatchHandler.RedisClient, userDB: UserDB, options: BatchHandler.RocksOptions) returns (u: User)
    ensures fresh(u) && fresh(u.deleter)
    ensures u.expireTime == 43200 && u.userDB == userDB
    ensures u.rcClient == BatchHandler.RocksClient(rdb, options)
    ensures u.deleter.client == rdb && u.deleter.keys == [] && u.deleter.pubTopics == []
  {
    var batchHandler := BatchHandler.NewBatchDeleterRedis(rdb, options, []);
    u := new User(batchHandler, BatchHandler.RocksClient(rdb, options), userDB, UserExpireTime);
  }
}
