/**
  The accounts endpoint (pages/api/accounts/account.js): after the
  authentication gate it lists a user's accounts through the cache (GET) or
  creates, deletes or updates one (POST, DELETE, PUT) and then drops the
  cached aggregates that the change makes stale.
 */
module AccountsApi {
  import opened Domain
  import opened Cache
  import opened Http

  /** Four days, in seconds. */
  const AccountsTtl: int := 60 * 60 * 24 * 4

  const AllowedMethods: seq<string> := ["GET", "POST", "DELETE", "PUT"]

  /** The prefixes each successful mutation invalidates, in the order of its
      `delCache` calls. */
  const CreateDrops: seq<string> := ["accounts", "total-balance"]
  const DeleteDrops: seq<string> := ["accounts", "total-expense", "total-balance"]
  const UpdateDrops: seq<string> := ["accounts", "total-balance"]

  /** The account service functions the handler calls. */
  datatype Backend = Backend(
    fetchAccountsByUserId: string -> Outcome<seq<Account>>,
    createAccount: (string, AccountForm) -> Outcome<Account>,
    deleteAccountById: (Option<string>, string) -> Outcome<DeleteReceipt>,
    updateAccount: (Option<string>, string, AccountForm) -> Outcome<Account>)

  /** The prefixes a successful request with this method invalidates. */
  function Drops(httpMethod: string): (ps: seq<string>)
    ensures httpMethod in ["POST", "DELETE", "PUT"] ==> "accounts" in ps && "total-balance" in ps
    ensures "total-expense" in ps <==> httpMethod == "DELETE"
    ensures httpMethod !in ["POST", "DELETE", "PUT"] ==> ps == []
  {
    if httpMethod == "POST" then CreateDrops
    else if httpMethod == "DELETE" then DeleteDrops
    else if httpMethod == "PUT" then UpdateDrops
    else []
  }

  /** The GET fetch function: the user's accounts, cached as an account list;
      a failure passes through unchanged. */
  function ListFetch(o: Outcome<seq<Account>>): (r: Outcome<Payload>)
    ensures r.Ok? <==> o.Ok?
    ensures r.Ok? ==> r.value == AccountList(o.value)
    ensures r.Fail? ==> r.error == o.error
  {
    match o
    case Ok(accounts) => Ok(AccountList(accounts))
    case Fail(e) => Fail(e)
  }

  /** The reply to a GET, from what the cache read yields. */
  function ListReply(r: Outcome<Payload>): (reply: Reply)
    ensures reply.status == 200 <==> r.Ok?
    ensures reply.status == 500 <==> r.Fail?
    ensures r.Ok? ==> reply.body == AccountsFetched("Accounts fetched successfully.", r.value)
    ensures r.Fail? ==> reply.body == ErrorDetail("Server error", r.error.message)
  {
    match r
    case Ok(accounts) => Reply(200, AccountsFetched("Accounts fetched successfully.", accounts))
    case Fail(e) => Reply(500, ErrorDetail("Server error", e.message))
  }

  /** The status of a failed DELETE: "Account not found" is a 404, anything
      else a 500. */
  function DeleteFailureStatus(e: ServiceError): (status: int)
    ensures status == 404 <==> e.message == "Account not found"
    ensures status == 404 || status == 500
  {
    if e.message == "Account not found" then 404 else 500
  }

  /** The reply to a failed PUT: the error's own non-zero `statusCode`, else
      500; its non-empty message, else "Server error". */
  function UpdateFailureReply(e: ServiceError): (reply: Reply)
    ensures e.statusCode.Some? && e.statusCode.value != 0 ==> reply.status == e.statusCode.value
    ensures e.statusCode.None? || e.statusCode.value == 0 ==> reply.status == 500
    ensures e.message != "" ==> reply.body == Message(e.message)
    ensures e.message == "" ==> reply.body == Message("Server error")
  {
    var status := if e.statusCode.Some? && e.statusCode.value != 0 then e.statusCode.value else 500;
    var message := if e.message != "" then e.message else "Server error";
    Reply(status, Message(message))
  }

  /** `handler(req, res)`.  `auth` is what `authenticate(req)` returns; the
      returned `calls` are the service calls made directly by the handler. */
  method Handler(cache: CacheStore<Payload>, auth: Option<string>, req: Request, backend: Backend, res: Res)
    returns (calls: seq<ServiceCall>)
    modifies cache, res
    ensures cache.now == old(cache.now)
    ensures forall t :: AccountsTtl <= t && FreshStore(old(cache.store), cache.now, t) ==> FreshStore(cache.store, cache.now, t)
    ensures |res.sent| == |old(res.sent)| + 1 && res.statusCode == res.sent[|res.sent| - 1].status
    // no entry that belongs to anyone but the authenticated user changes
    ensures forall k: CacheKey :: !Authenticated(auth) || k.key != auth.value ==> Agree(old(cache.store), cache.store, k)
    // the authentication gate: nothing happens but a 401
    ensures !Authenticated(auth) ==>
      && cache.store == old(cache.store) && cache.ops == old(cache.ops) && calls == []
      && res.sent == old(res.sent) + [Reply(401, Message("Unauthorized"))]
      && res.headers == old(res.headers)
    // GET: a read through ("accounts", userId)
    ensures Authenticated(auth) && req.httpMethod == "GET" ==>
      var rt := ReadThrough(old(cache.store), cache.now, CacheKey("accounts", auth.value), AccountsTtl,
                            ListFetch(backend.fetchAccountsByUserId(auth.value)));
      && cache.store == rt.store && cache.ops == old(cache.ops) + rt.ops && calls == []
      && res.sent == old(res.sent) + [ListReply(rt.result)]
      && res.headers == old(res.headers)
    // POST: create, then drop the user's "accounts" and "total-balance" only on success
    ensures Authenticated(auth) && req.httpMethod == "POST" ==>
      var created := backend.createAccount(auth.value, req.body);
      && calls == [CreateAccount(auth.value, req.body)]
      && res.headers == old(res.headers)
      && (created.Ok? ==>
            && cache.store == InvalidateAll(old(cache.store), auth.value, CreateDrops)
            && cache.ops == old(cache.ops) + DelOps(auth.value, CreateDrops)
            && res.sent == old(res.sent) + [Reply(201, AccountSaved("Account created successfully.", created.value))])
      && (created.Fail? ==>
            && cache.store == old(cache.store) && cache.ops == old(cache.ops)
            && res.sent == old(res.sent) + [Reply(400, Message(created.error.message))])
    // DELETE: delete, then drop "accounts", "total-expense" and "total-balance" only on success
    ensures Authenticated(auth) && req.httpMethod == "DELETE" ==>
      var deleted := backend.deleteAccountById(req.id, auth.value);
      && calls == [DeleteAccountById(req.id, auth.value)]
      && res.headers == old(res.headers)
      && (deleted.Ok? ==>
            && cache.store == InvalidateAll(old(cache.store), auth.value, DeleteDrops)
            && cache.ops == old(cache.ops) + DelOps(auth.value, DeleteDrops)
            && res.sent == old(res.sent) + [Reply(200, Deleted(deleted.value))])
      && (deleted.Fail? ==>
            && cache.store == old(cache.store) && cache.ops == old(cache.ops)
            && res.sent == old(res.sent) + [Reply(DeleteFailureStatus(deleted.error), Message(deleted.error.message))])
    // PUT: update, then drop "accounts" and "total-balance" only on success
    ensures Authenticated(auth) && req.httpMethod == "PUT" ==>
      var updated := backend.updateAccount(req.id, auth.value, req.body);
      && calls == [UpdateAccount(req.id, auth.value, req.body)]
      && res.headers == old(res.headers)
      && (updated.Ok? ==>
            && cache.store == InvalidateAll(old(cache.store), auth.value, UpdateDrops)
            && cache.ops == old(cache.ops) + DelOps(auth.value, UpdateDrops)
            && res.sent == old(res.sent) + [Reply(200, AccountSaved("Account updated successfully.", updated.value))])
      && (updated.Fail? ==>
            && cache.store == old(cache.store) && cache.ops == old(cache.ops)
            && res.sent == old(res.sent) + [UpdateFailureReply(updated.error)])
    // any other method: 405 with the Allow header, the cache untouched
    ensures Authenticated(auth) && req.httpMethod !in AllowedMethods ==>
      && cache.store == old(cache.store) && cache.ops == old(cache.ops) && calls == []
      && res.headers == old(res.headers)["Allow" := AllowedMethods]
      && res.sent == old(res.sent) + [NotAllowed(req.httpMethod)]
  {
    calls := [];
    if !Authenticated(auth) {
      res.Send(401, Message("Unauthorized"));
      return;
    }
    var userId := auth.value;
    if req.httpMethod == "GET" {
      HandleGet(cache, userId, backend, res);
    } else if req.httpMethod == "POST" {
      calls := HandlePost(cache, userId, req, backend, res);
    } else if req.httpMethod == "DELETE" {
      calls := HandleDelete(cache, userId, req, backend, res);
    } else if req.httpMethod == "PUT" {
      calls := HandlePut(cache, userId, req, backend, res);
    } else {
      res.SetHeader("Allow", AllowedMethods);
      res.Send(405, Message("Method " + req.httpMethod + " Not Allowed"));
    }
  }

  /** `case "GET"`: the user's account list, read through the cache. */
  method HandleGet(cache: CacheStore<Payload>, userId: string, backend: Backend, res: Res)
    modifies cache, res
    ensures var rt := ReadThrough(old(cache.store), old(cache.now), CacheKey("accounts", userId), AccountsTtl,
                                  ListFetch(backend.fetchAccountsByUserId(userId)));
      && cache.store == rt.store && cache.ops == old(cache.ops) + rt.ops
      && res.sent == old(res.sent) + [ListReply(rt.result)]
    ensures cache.now == old(cache.now) && res.headers == old(res.headers)
    ensures res.statusCode == res.sent[|res.sent| - 1].status
  {
    var accounts := cache.GetCache(userId, "accounts", AccountsTtl, ListFetch(backend.fetchAccountsByUserId(userId)));
    match accounts
    case Ok(list) =>
      res.Send(200, AccountsFetched("Accounts fetched successfully.", list));
    case Fail(e) =>
      res.Send(500, ErrorDetail("Server error", e.message));
  }

  /** `case "POST"`: create the account; on success drop the user's
      "accounts" and "total-balance" entries. */
  method HandlePost(cache: CacheStore<Payload>, userId: string, req: Request, backend: Backend, res: Res)
    returns (calls: seq<ServiceCall>)
    modifies cache, res
    ensures calls == [CreateAccount(userId, req.body)]
    ensures var created := backend.createAccount(userId, req.body);
      && (created.Ok? ==>
            && cache.store == InvalidateAll(old(cache.store), userId, CreateDrops)
            && cache.ops == old(cache.ops) + DelOps(userId, CreateDrops)
            && res.sent == old(res.sent) + [Reply(201, AccountSaved("Account created successfully.", created.value))])
      && (created.Fail? ==>
            && cache.store == old(cache.store) && cache.ops == old(cache.ops)
            && res.sent == old(res.sent) + [Reply(400, Message(created.error.message))])
    ensures cache.now == old(cache.now) && res.headers == old(res.headers)
    ensures |res.sent| == |old(res.sent)| + 1 && res.statusCode == res.sent[|res.sent| - 1].status
  {
    calls := [CreateAccount(userId, req.body)];
    var created := backend.createAccount(userId, req.body);
    match created
    case Ok(account) =>
      ghost var s0 := cache.store;
      cache.DelCache(userId, "accounts");
      cache.DelCache(userId, "total-balance");
      InvalidateAllTwo(s0, userId, "accounts", "total-balance");
      res.Send(201, AccountSaved("Account created successfully.", account));
    case Fail(e) =>
      res.Send(400, Message(e.message));
  }

  /** `case "DELETE"`: delete the account; on success drop the user's
      "accounts", "total-expense" and "total-balance" entries. */
  method HandleDelete(cache: CacheStore<Payload>, userId: string, req: Request, backend: Backend, res: Res)
    returns (calls: seq<ServiceCall>)
    modifies cache, res
    ensures calls == [DeleteAccountById(req.id, userId)]
    ensures var deleted := backend.deleteAccountById(req.id, userId);
      && (deleted.Ok? ==>
            && cache.store == InvalidateAll(old(cache.store), userId, DeleteDrops)
            && cache.ops == old(cache.ops) + DelOps(userId, DeleteDrops)
            && res.sent == old(res.sent) + [Reply(200, Deleted(deleted.value))])
      && (deleted.Fail? ==>
            && cache.store == old(cache.store) && cache.ops == old(cache.ops)
            && res.sent == old(res.sent) + [Reply(DeleteFailureStatus(deleted.error), Message(deleted.error.message))])
    ensures cache.now == old(cache.now) && res.headers == old(res.headers)
    ensures |res.sent| == |old(res.sent)| + 1 && res.statusCode == res.sent[|res.sent| - 1].status
  {
    calls := [DeleteAccountById(req.id, userId)];
    var deleted := backend.deleteAccountById(req.id, userId);
    match deleted
    case Ok(result) =>
      ghost var s0 := cache.store;
      cache.DelCache(userId, "accounts");
      ghost var s1 := cache.store;
      cache.DelCache(userId, "total-expense");
      cache.DelCache(userId, "total-balance");
      InvalidateAllTwo(s1, userId, "total-expense", "total-balance");
      InvalidateAllCons(s0, userId, "accounts", ["total-expense", "total-balance"]);
      res.Send(200, Deleted(result));
    case Fail(e) =>
      var status := if e.message == "Account not found" then 404 else 500;
      res.Send(status, Message(e.message));
  }

  /** `case "PUT"`: update the account; on success drop the user's
      "accounts" and "total-balance" entries. */
  method HandlePut(cache: CacheStore<Payload>, userId: string, req: Request, backend: Backend, res: Res)
    returns (calls: seq<ServiceCall>)
    modifies cache, res
    ensures calls == [UpdateAccount(req.id, userId, req.body)]
    ensures var updated := backend.updateAccount(req.id, userId, req.body);
      && (updated.Ok? ==>
            && cache.store == InvalidateAll(old(cache.store), userId, UpdateDrops)
            && cache.ops == old(cache.ops) + DelOps(userId, UpdateDrops)
            && res.sent == old(res.sent) + [Reply(200, AccountSaved("Account updated successfully.", updated.value))])
      && (updated.Fail? ==>
            && cache.store == old(cache.store) && cache.ops == old(cache.ops)
            && res.sent == old(res.sent) + [UpdateFailureReply(updated.error)])
    ensures cache.now == old(cache.now) && res.headers == old(res.headers)
    ensures |res.sent| == |old(res.sent)| + 1 && res.statusCode == res.sent[|res.sent| - 1].status
  {
    calls := [UpdateAccount(req.id, userId, req.body)];
    var updated := backend.updateAccount(req.id, userId, req.body);
    match updated
    case Ok(account) =>
      ghost var s0 := cache.store;
      cache.DelCache(userId, "accounts");
      cache.DelCache(userId, "total-balance");
      InvalidateAllTwo(s0, userId, "accounts", "total-balance");
      res.Send(200, AccountSaved("Account updated successfully.", account));
    case Fail(e) =>
      var status := if e.statusCode.Some? && e.statusCode.value != 0 then e.statusCode.value else 500;
      res.Send(status, Message(if e.message != "" then e.message else "Server error"));
  }
}
