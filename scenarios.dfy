/**
  The two handlers share one cache.  These clients run them one request at a
  time and show what the invalidation rules buy: once an account has been
  created, deleted or updated, the next total-balance read recomputes the
  total from the current balances instead of serving the old one.
 */
module Scenarios {
  import opened Domain
  import opened Cache
  import opened Http
  import AccountsApi
  import TotalBalanceApi

  /** The accounts request is a mutation, and the service call it makes
      succeeds. */
  predicate MutationSucceeds(userId: string, req: Request, backend: AccountsApi.Backend) {
    || (req.httpMethod == "POST" && backend.createAccount(userId, req.body).Ok?)
    || (req.httpMethod == "DELETE" && backend.deleteAccountById(req.id, userId).Ok?)
    || (req.httpMethod == "PUT" && backend.updateAccount(req.id, userId, req.body).Ok?)
  }

  /** After any successful mutation, at any later time, the user's
      total-balance read misses and yields what the fetch yields. */
  lemma MutationForcesBalanceMiss(s: Store<Payload>, later: int, userId: string, httpMethod: string, f: Outcome<Payload>)
    requires httpMethod in ["POST", "DELETE", "PUT"]
    ensures var k := CacheKey("total-balance", userId);
      var r := ReadThrough(InvalidateAll(s, userId, AccountsApi.Drops(httpMethod)), later, k, TotalBalanceApi.BalanceTtl, f);
      Fetch(k) in r.ops && r.result == f
  {
  }

  /** A successful mutation by a user, then (after `elapsed` seconds) a
      total-balance GET by the same user: the GET invokes the fetch function,
      so its answer is the sum of the balances the query now returns, whatever
      the cache held before. */
  method MutateThenReadBalance(cache: CacheStore<Payload>, userId: string, req: Request, backend: AccountsApi.Backend,
                               elapsed: nat, find: string -> Outcome<seq<Account>>, res1: Res, res2: Res)
    requires userId != ""
    requires MutationSucceeds(userId, req, backend)
    requires res1 != res2
    modifies cache, res1, res2
    ensures var k := CacheKey("total-balance", userId);
      cache.ops == old(cache.ops) + DelOps(userId, AccountsApi.Drops(req.httpMethod))
                   + [Get(k), Fetch(k)] + (if find(userId).Ok? then [Set(k)] else [])
    ensures find(userId).Ok? ==>
      res2.sent == old(res2.sent) + [Reply(200, Data(BalanceSummary(TotalBalanceApi.Sum(find(userId).value))))]
  {
    var _ := AccountsApi.Handler(cache, Some(userId), req, backend, res1);
    cache.Advance(elapsed);
    TotalBalanceApi.Handler(cache, Some(userId), Request("GET", None, req.body), find, res2);
  }

  /** The create-then-read scenario on a cache that starts out empty: the
      first total-balance read computes the total of `accounts`; the user
      then creates `created`; the next read, even within the four-day ttl,
      answers with the total raised by the new account's balance. */
  method BalanceAfterCreate(clock: int, userId: string, form: AccountForm, accounts: seq<Account>, created: Account)
    returns (first: Reply, second: Reply)
    requires userId != ""
    ensures first == Reply(200, Data(BalanceSummary(TotalBalanceApi.Sum(accounts))))
    ensures second == Reply(200, Data(BalanceSummary(TotalBalanceApi.Sum(accounts) + TotalBalanceApi.BalanceOf(created))))
  {
    var cache := new CacheStore<Payload>(clock);
    var backend := AccountsApi.Backend(
      (u: string) => Ok(accounts),
      (u: string, f: AccountForm) => Ok(created),
      (id: Option<string>, u: string) => Fail(ServiceError("Account not found", None)),
      (id: Option<string>, u: string, f: AccountForm) => Fail(ServiceError("", None)));
    var before := (u: string) => Ok(accounts);
    var after := (u: string) => Ok(accounts + [created]);

    var res1 := new Res();
    TotalBalanceApi.Handler(cache, Some(userId), Request("GET", None, form), before, res1);
    assert !Live<Payload>(map[], clock, CacheKey("total-balance", userId));
    first := res1.sent[0];

    cache.Advance(1);
    var res2 := new Res();
    var res3 := new Res();
    MutateThenReadBalance(cache, userId, Request("POST", None, form), backend, 1, after, res2, res3);
    second := res3.sent[0];
    TotalBalanceApi.TotalBalanceFacts(accounts, created);
  }
}
