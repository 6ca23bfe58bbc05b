/** The older user cache of pkg/common/db/cache. Its invalidation list lives in
    a meta cache (defined in a file that is not part of this model) which this
    model takes to be an accumulator of keys whose Copy copies them. */
module DbCacheUser {
  import opened Model
  import opened Sequences
  import CacheKey
  import BatchHandler

  /** userExpireTime: twelve hours, in seconds. */
  const UserExpireTime: int := 60 * 60 * 12
  /** userOlineStatusExpireTime: twenty-four hours, in seconds. */
  const UserOnlineStatusExpireTime: int := 60 * 60 * 24

  /** The expiry constants: the user cache keeps entries for twelve hours, online
      status for twenty-four. */
  lemma ExpiryConstants()
    ensures UserExpireTime == 43200 && UserOnlineStatusExpireTime == 86400
  {
  }

  /** The metaCache a UserCacheRedis embeds: pending keys over a rockscache client. */
  class MetaCache {
    var keys: seq<string>
    const rcClient: BatchHandler.RocksClient

    constructor (rcClient: BatchHandler.RocksClient, keys: seq<string>)
      ensures this.rcClient == rcClient && this.keys == keys
    {
      this.rcClient := rcClient;
      this.keys := keys;
    }

    /** Copy: a new meta cache with the same client and its own copy of the keys. */
    method Copy() returns (c: MetaCache)
      ensures fresh(c)
      ensures c.rcClient == rcClient && c.keys == keys
    {
      c := new MetaCache(rcClient, keys);
    }

    /** AddKeys: appends to the pending keys. */
    method AddKeys(ks: seq<string>)
      modifies this
      ensures keys == old(keys) + ks
    {
      keys := keys + ks;
    }
  }

  /** UserCacheRedis. */
  class UserCacheRedis {
    const meta: MetaCache
    const rdb: BatchHandler.RedisClient
    const userDB: UserDB
    const expireTime: int
    const rcClient: BatchHandler.RocksClient

    /** The struct literal. */
    constructor (rdb: BatchHandler.RedisClient, meta: MetaCache, userDB: UserDB, expireTime: int, rcClient: BatchHandler.RocksClient)
      ensures this.rdb == rdb && this.meta == meta && this.userDB == userDB
      ensures this.expireTime == expireTime && this.rcClient == rcClient
    {
      this.rdb := rdb;
      this.meta := meta;
      this.userDB := userDB;
      this.expireTime := expireTime;
      this.rcClient := rcClient;
    }

    /** NewCache: the same Redis client, database, expiry and rockscache client over
        a copy of the meta cache. */
    method NewCache() returns (c: UserCacheRedis)
      ensures fresh(c) && fresh(c.meta)
      ensures c.rdb == rdb && c.userDB == userDB && c.expireTime == expireTime && c.rcClient == rcClient
      ensures c.meta.keys == meta.keys && c.meta.rcClient == meta.rcClient
    {
      var m := meta.Copy();
      c := new UserCacheRedis(rdb, m, userDB, expireTime, rcClient);
    }

    /** DelUsersInfo: a fresh copy whose pending keys gain one user-info key per ID,
        in order; this handle is not modified. */
    method DelUsersInfo(userIDs: seq<string>) returns (c: UserCacheRedis)
      ensures fresh(c) && fresh(c.meta)
      ensures c.meta.keys == meta.keys + CacheKey.UserInfoKeys(userIDs)
      ensures meta.keys == old(meta.keys)
      ensures c.rdb == rdb && c.userDB == userDB && c.expireTime == expireTime && c.rcClient == rcClient
    {
      var keys: seq<string> := [];
      var i := 0;
      while i < |userIDs|
        invariant 0 <= i <= |userIDs|
        invariant keys == CacheKey.UserInfoKeys(userIDs[..i])
      {
        assert userIDs[..i + 1][..i] == userIDs[..i];
        keys := keys + [CacheKey.UserInfoKey(userIDs[i])];
        i := i + 1;
      }
      assert userIDs[..|userIDs|] == userIDs;
      c := NewCache();
      c.meta.AddKeys(keys);
    }

    /** DelUsersGlobalRecvMsgOpt: as DelUsersInfo, with the global-receive-option keys. */
    method DelUsersGlobalRecvMsgOpt(userIDs: seq<string>) returns (c: UserCacheRedis)
      ensures fresh(c) && fresh(c.meta)
      ensures c.meta.keys == meta.keys + CacheKey.UserGlobalRecvMsgOptKeys(userIDs)
      ensures meta.keys == old(meta.keys)
      ensures c.rdb == rdb && c.userDB == userDB && c.expireTime == expireTime && c.rcClient == rcClient
    {
      var keys: seq<string> := [];
      var i := 0;
      while i < |userIDs|
        invariant 0 <= i <= |userIDs|
        invariant keys == CacheKey.UserGlobalRecvMsgOptKeys(userIDs[..i])
      {
        assert userIDs[..i + 1][..i] == userIDs[..i];
        keys := keys + [CacheKey.UserGlobalRecvMsgOptKey(userIDs[i])];
        i := i + 1;
      }
      assert userIDs[..|userIDs|] == userIDs;
      c := NewCache();
      c.meta.AddKeys(keys);
    }
  }

  /** NewUserCacheRedis: a twelve-hour user cache over a fresh, empty meta cache.
      The local-cache topic is set on a meta cache that is then discarded, so it
      does not reach the returned handle. */
  method NewUserCacheRedis(rdb: BatchHandler.RedisClient, userDB: UserDB, options: BatchHandler.RocksOptions)
    returns (u: UserCacheRedis)
    ensures fresh(u) && fresh(u.meta)
    ensures u.expireTime == 43200 && u.rdb == rdb && u.userDB == userDB
    ensures u.rcClient == BatchHandler.RocksClient(rdb, options) && u.meta.keys == []
  {
    var rcClient := BatchHandler.RocksClient(rdb, options);
    var meta := new MetaCache(rcClient, []);
    u := new UserCacheRedis(rdb, meta, userDB, UserExpireTime, rcClient);
  }

  /** RemoveRepeatedElementsInList: the first occurrence of each element, in order. */
  method RemoveRepeatedElementsInList<T(==)>(slc: seq<T>) returns (result: seq<T>)
    ensures result == Dedup(slc)
  {
    result := [];
    var seen: set<T> := {};
    var i := 0;
    while i < |slc|
      invariant 0 <= i <= |slc|
      invariant result == Dedup(slc[..i])
      invariant forall x :: x in seen <==> x in slc[..i]
    {
      assert slc[..i + 1][..i] == slc[..i];
      if slc[i] !in seen {
        seen := seen + {slc[i]};
        result := result + [slc[i]];
      }
      i := i + 1;
    }
    assert slc[..|slc|] == slc;
  }
}
