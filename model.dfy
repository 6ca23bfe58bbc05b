/** The stored user record. Only the fields this core reads or writes are kept. */
module Model {

  /** model.User: the record stored in the database and cached in Redis. */
  datatype UserModel = UserModel(userID: string, nickname: string)

  /** A database.User handle; only its identity matters to the cache layer. */
  datatype UserDB = UserDB(id: nat)
}
