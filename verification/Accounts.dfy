/** Accounts as every store names them. */
module Accounts {
  datatype Account = Account(realm: string, id: string)
}
