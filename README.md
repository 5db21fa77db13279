# Accounts and total-balance handlers over a shared read-through cache

This project models two serverless API handlers of a personal-finance
application and the per-user read-through cache they share.

- The accounts handler (`pages/api/accounts/account.js`) authenticates the
  caller and dispatches on the HTTP method. `GET` lists the user's accounts
  through the cache under the prefix `"accounts"`. `POST`, `DELETE` and `PUT`
  create, delete or update an account. After a successful mutation they drop
  the user's cached aggregates with successive `delCache` calls. Each error
  maps to its own status code. Any other method gets a 405 with an `Allow`
  header.
- The total-balance handler (`pages/api/dashboard/total-balance.js`)
  authenticates the caller and reads `{ totalBalance }` through the cache
  under `"total-balance"`. On a miss the value is computed as a fold over the
  user's accounts, where a missing balance counts as 0.

The cache (`getCache` / `delCache`) is modelled by its contract only, since
its implementation is not part of this model. It is a class `CacheStore`
holding three things:

- a map from `(prefix, key)` pairs to entries `(value, expiresAt)`;
- a clock;
- a log of the operations requests perform on it: `Get`, `Fetch`, `Set`, `Del`.

An entry is live while `now < expiresAt`. A read returns a live entry without
calling the fetch. On a miss it calls the fetch, stores a success with expiry
`now + ttl`, and stores nothing when the fetch fails.

The response object is a class `Res` with a status, headers and the list of
replies sent, one per `json` call. A handler that writes twice therefore
leaves two replies.

Modules, one per component:

- `Domain`: shared values.
- `Cache`: the cache.
- `Http`: request, bodies, `Res`.
- `AccountsApi`: the accounts handler.
- `TotalBalanceApi`: the balance fold and the total-balance handler.
- `Scenarios`: clients that run both handlers on one cache.

Inputs rather than code:

- `authenticate(req)` is an `Option<string>`. Like the `!userId` guard, the
  model treats an empty id as "no user".
- The account-service functions and the `Account.find` query are Dafny
  functions from their arguments to an `Outcome`: a value, or a thrown
  error with its `message` and optional `statusCode`.
- A fetch function is passed as the outcome it would yield. The cache's `Fetch`
  log entry records whether it was invoked.
- The clock is a field that the client advances between requests.

## Model

| member | source | states |
|---|---|---|
| `Cache.ReadThrough` | pages/api/accounts/account.js:23-28 | a read consults only its own entry first; the fetch runs exactly on a miss and its outcome is then the result; a hit returns the stored value and writes nothing; a failure is never stored; after a success the entry is live and holds the returned value; the only write expires `ttl` seconds from now; every other entry is unchanged |
| `Cache.Invalidate` | pages/api/accounts/account.js:42 | `delCache` removes exactly the named entry and leaves every other entry as it was |
| `Cache.InvalidateAll` | pages/api/accounts/account.js:62-70 | successive `delCache` calls for one key remove exactly that key's entries under the listed prefixes; every other entry keeps its value |
| `Cache.DelOps` | pages/api/accounts/account.js:84-88 | successive `delCache` calls log one `Del` per prefix, in call order |
| `Cache.CacheStore.GetCache` | pages/api/dashboard/total-balance.js:17-29 | the stateful `getCache`: result, new entries and logged operations are those of `ReadThrough` on the old state; the clock does not move; a cache fresh for any bound at least the ttl stays fresh |
| `Cache.CacheStore.constructor` | pages/api/accounts/account.js:23-28 | the cache starts out empty, with an empty log, and is then fresh for every ttl |
| `Cache.CacheStore.DelCache` | pages/api/accounts/account.js:42-46 | the stateful `delCache`: the new entries are `Invalidate` of the old ones, and one `Del` is logged; freshness is kept |
| `Cache.CacheStore.Advance` | pages/api/dashboard/total-balance.js:20 | the clock moves forward by the given number of seconds between requests; entries and log are unchanged, and a fresh cache stays fresh |
| `Cache.RepeatedReadHits` | pages/api/accounts/account.js:23-28 | a successful read followed, before expiry, by another read of the same entry returns the same value, does not call the fetch and writes nothing |
| `Cache.InvalidateForcesFetch` | pages/api/accounts/account.js:42-46 | after `delCache` on an entry, the next read of it calls the fetch and returns the fetch's outcome |
| `Cache.FailureNotCached` | pages/api/dashboard/total-balance.js:17-35 | a failed fetch on a miss is returned as the failure, and a later read calls the fetch again |
| `Cache.ExpiryHonoured` | pages/api/dashboard/total-balance.js:20 | on a fresh cache, once ttl seconds have passed since a successful read, the next read of that entry calls the fetch again and returns its outcome |
| `Cache.ReadNoOlderThanTtl` | pages/api/accounts/account.js:26 | on a fresh cache a successful read returns an entry that is live and expires at most ttl seconds from now, so it was written less than ttl seconds ago |
| `Cache.FreshnessKept` | pages/api/accounts/account.js:23-28 | a cache in which no entry expires more than t seconds ahead stays so under reads with any ttl up to t, under one or several `delCache` calls, and as time passes |
| `Cache.PrefixesIndependent` | pages/api/accounts/account.js:42-46 | one owner's entries under two different prefixes are independent under reads and under invalidation |
| `Http.Authenticated` | pages/api/accounts/account.js:14-17 | the `!userId` guard: no user id, or an empty one, is rejected; any non-empty id passes |
| `Http.Res.Status` | pages/api/accounts/account.js:103 | `res.status(code)` sets the status and changes neither the headers nor the replies sent |
| `Http.Res.Json` | pages/api/accounts/account.js:103 | `res.json(body)` appends one reply carrying the current status and the body; status and headers are unchanged |
| `Http.Res.SetHeader` | pages/api/accounts/account.js:102 | `res.setHeader(name, values)` sets that one header; status and replies are unchanged |
| `Http.Res.Send` | pages/api/accounts/account.js:17 | `res.status(code).json(body)` appends exactly one reply with that status and body, and leaves the status set to it |
| `Http.NotAllowed` | pages/api/accounts/account.js:103 | an unserved method is answered with status 405 and the message "Method <m> Not Allowed" |
| `AccountsApi.Drops` | pages/api/accounts/account.js:41-88 | POST, DELETE and PUT each drop "accounts" and "total-balance"; only DELETE also drops "total-expense"; no other method drops anything |
| `AccountsApi.ListFetch` | pages/api/accounts/account.js:27 | the GET fetch caches the user's account list and passes a service failure through unchanged |
| `AccountsApi.ListReply` | pages/api/accounts/account.js:30-35 | a GET read that succeeds is a 200 carrying the accounts; one that fails is a 500 carrying "Server error" and the error's message |
| `AccountsApi.DeleteFailureStatus` | pages/api/accounts/account.js:74 | a failed DELETE is a 404 exactly when the message is "Account not found", and a 500 otherwise |
| `AccountsApi.UpdateFailureReply` | pages/api/accounts/account.js:95-97 | a failed PUT takes the error's own non-zero `statusCode`, else 500; it carries the error's non-empty message, else "Server error" |
| `AccountsApi.Handler` | pages/api/accounts/account.js:11-105 | without a user: a single 401 "Unauthorized", no cache operation, no service call. GET, POST, DELETE and PUT get exactly the effects of their case methods below. Any other method: 405 with Allow = [GET, POST, DELETE, PUT] and the cache untouched. In every branch, no entry of another user changes and exactly one reply is sent |
| `AccountsApi.HandleGet` | pages/api/accounts/account.js:21-36 | GET reads `("accounts", userId)` with ttl 345600 and the user's account list as fetch; the reply is `ListReply` of the read's result |
| `AccountsApi.HandlePost` | pages/api/accounts/account.js:38-54 | POST calls `createAccount(userId, body)`. On success it drops exactly `accounts` and `total-balance` for the user and answers 201 with the new account. On failure it leaves the cache and its log unchanged and answers 400 with the error message |
| `AccountsApi.HandleDelete` | pages/api/accounts/account.js:56-77 | DELETE calls `deleteAccountById(id, userId)`. On success it drops exactly `accounts`, `total-expense` and `total-balance` and answers 200 with the service's result. On failure the cache is untouched and the status is `DeleteFailureStatus` |
| `AccountsApi.HandlePut` | pages/api/accounts/account.js:79-99 | PUT calls `updateAccount(id, userId, body)`. On success it drops exactly `accounts` and `total-balance` and answers 200 with the updated account. On failure the cache is untouched and the reply is `UpdateFailureReply` |
| `TotalBalanceApi.BalanceOf` | pages/api/dashboard/total-balance.js:24 | `a.balance \|\| 0`: a missing balance counts as 0, a present one as itself |
| `TotalBalanceApi.Reduce` | pages/api/dashboard/total-balance.js:23-26 | the `reduce` fold from any accumulator adds the sum of the balances to it |
| `TotalBalanceApi.SumAppend` | pages/api/dashboard/total-balance.js:23-26 | the sum over two lists joined together is the sum of their sums |
| `TotalBalanceApi.SumPermutation` | pages/api/dashboard/total-balance.js:22-26 | the total does not depend on the order in which the query returns the accounts |
| `TotalBalanceApi.TotalBalance` | pages/api/dashboard/total-balance.js:23-27 | the fold computed by the fetch function equals the sum of the balances, a missing balance counting as 0 |
| `TotalBalanceApi.TotalBalanceFacts` | pages/api/dashboard/total-balance.js:23-26 | the total over no accounts is 0; an added account raises the total by its balance, or by nothing when that balance is missing |
| `TotalBalanceApi.BalanceFetch` | pages/api/dashboard/total-balance.js:21-28 | the fetch yields `{ totalBalance: Σ balances }` of the user's accounts and passes a failed query through |
| `TotalBalanceApi.Handler` | pages/api/dashboard/total-balance.js:6-41 | without a user: a single 401 and the cache untouched. GET reads `("total-balance", userId)` with ttl 345600. A successful read is a single 200 carrying the data. A failed read is a 500 followed, by falling through, by a 405, with Allow = [GET]. Any other method: 405 with Allow = [GET]. Only the user's total-balance entry can change |
| `TotalBalanceApi.HandlerWithBreak` | pages/api/dashboard/total-balance.js:31-35 | the same handler with the GET case closed after its catch: exactly one reply per request, and a failed read is a plain 500 with headers unchanged |
| `TotalBalanceApi.FailedReadAnswersTwice` | pages/api/dashboard/total-balance.js:32-39 | a GET whose account query fails gets the replies [500, 405] from the handler as written, and [500] from the corrected one |
| `Scenarios.MutationForcesBalanceMiss` | pages/api/accounts/account.js:43-46 | after a successful POST, DELETE or PUT has invalidated its prefixes, the user's next total-balance read, at any time, calls the fetch and returns its outcome |
| `Scenarios.MutateThenReadBalance` | pages/api/dashboard/total-balance.js:17-29 | a successful accounts mutation followed by a total-balance GET of the same user logs the drops and then a miss with a `Fetch`; the GET answers with the sum of the balances the query returns now, whatever the cache held before |
| `Scenarios.BalanceAfterCreate` | pages/api/accounts/account.js:38-54 | on a fresh cache: a total-balance read gives Σ of the accounts; after a successful POST of a new account, the next read within the ttl gives that total plus the new account's balance, not the stale value |

## Findings

| source | as written | input that shows it | evidently intended | confidence | as-written member | corrected member |
|---|---|---|---|---|---|---|
| pages/api/dashboard/total-balance.js:32-39 | the GET case's `catch` has no `break`, so after writing 500 the handler falls into `default`, sets `Allow: GET` and writes 405 to an already answered request | a GET by an authenticated user with no live total-balance entry, whose `Account.find` query fails | one 500 reply and no Allow header, as in the accounts handler's GET case | high (not executed) | `TotalBalanceApi.Handler`, `TotalBalanceApi.FailedReadAnswersTwice` | `TotalBalanceApi.HandlerWithBreak` |

The two handlers agree on every path except the failed GET. The scenarios
exercise only successful GETs, so they hold for both.

## Cache failures

`lib/useCache` is not part of this model, and the modelled cache never
fails. The intended behaviour of a failing cache is:

- a failed invalidation does not block the mutation's success reply;
- a store error makes `getCache` fall back to the fetch function (it fails
  open).

The handlers do not guarantee the first by themselves. Each `delCache` is
awaited inside the same `try` as the mutation, so a `delCache` that threw
would produce the branch's error reply (400, 404/500 or the PUT mapping)
after the mutation had already happened.

## Left out

- `connectDB()`: not modelled. It is awaited before authentication, outside
  any `try`. It is treated as always succeeding.
- `authenticate` internals (tokens, cookies): only its optional user id is
  modelled.
- The account service, `Account.find` and the database: opaque functions
  that yield a value or a thrown error. The model does not represent the
  database state they change; a client supplies the query results before and
  after a mutation.
- `lib/useCache` itself: its string key format, backing store, store-level
  failures and failures of `delCache` are not part of this model. The key is
  the pair `(prefix, key)`, and the cache never fails.
- `Cache.CacheStore.GetCache`: since `lib/useCache` is not part of this
  model, the order of the logged operations (`Get`, then `Fetch` and `Set` on
  a miss) and the rule that a failed fetch leaves no `Set` are the intended
  read-through behaviour, not a transcription of its code.
- `Cache.ExpiryHonoured`, `Cache.ReadNoOlderThanTtl`: stated for a fresh
  cache (no entry expiring more than ttl seconds ahead). The cache starts
  empty and every method keeps freshness, so this holds for every cache the
  handlers use with their common ttl of four days.
- `console.error` in the total-balance handler: logging is not modelled.
- JSON serialisation, the `statusCode`/`message` defaults when a thrown value
  is not an `Error`, and the runtime's reaction to a second write on an
  answered response ("headers already sent"). The model records both writes.
- Request-parallel execution and `async` scheduling: the model runs one
  request at a time.
- Balances are exact integers, not JavaScript floating-point numbers. A
  `falsy` balance is a missing one, since a zero balance adds 0 either way.
- The React/antd/recharts components (transaction and savings modals, the
  category spending chart) are presentation code, outside this model.
