/**
  Values shared by the two API handlers and the cache: optional values, the
  outcome of a call into a service, the account documents the services
  return, and the payloads the cache stores.
 */
module Domain {

  datatype Option<+T> = None | Some(value: T)

  /** A thrown JavaScript error: its `message` (an empty string when the
      thrower gave none) and its optional numeric `statusCode` property. */
  datatype ServiceError = ServiceError(message: string, statusCode: Option<int>)

  /** What an awaited service call or fetch function yields: a value, or the
      error it throws. */
  datatype Outcome<+T> = Ok(value: T) | Fail(error: ServiceError)

  /** An account document as the services return it; `balance` may be
      missing from the stored document. */
  datatype Account = Account(id: string, name: string, balance: Option<int>)

  /** The JSON request body of a create or update; the handler passes it to
      the service without looking into it. */
  datatype AccountForm = AccountForm(fields: map<string, string>)

  /** Whatever `deleteAccountById` resolves to; the handler sends it back as
      it is. */
  datatype DeleteReceipt = DeleteReceipt(message: string)

  /** The values stored in the shared cache: an account list (prefix
      "accounts") or a balance summary `{ totalBalance }` (prefix
      "total-balance"). */
  datatype Payload = AccountList(accounts: seq<Account>) | BalanceSummary(totalBalance: int)

  /** A call a handler makes into the account service directly (fetch
      functions run inside the cache and appear in its operation log). */
  datatype ServiceCall =
    | CreateAccount(userId: string, form: AccountForm)
    | DeleteAccountById(accountId: Option<string>, userId: string)
    | UpdateAccount(accountId: Option<string>, userId: string, form: AccountForm)
}
