/**
  The total-balance endpoint (pages/api/dashboard/total-balance.js): after
  the authentication gate a GET reads the user's balance summary through the
  cache, computing it on a miss as the sum of the user's account balances.
 */
module TotalBalanceApi {
  import opened Domain
  import opened Cache
  import opened Http

  /** Four days, in seconds. */
  const BalanceTtl: int := 60 * 60 * 24 * 4

  const AllowedMethods: seq<string> := ["GET"]

  /** `a.balance || 0`: a missing balance counts as zero, a present one as
      itself. */
  function BalanceOf(a: Account): (b: int)
    ensures a.balance.None? ==> b == 0
    ensures a.balance.Some? ==> b == a.balance.value
  {
    if a.balance.Some? then a.balance.value else 0
  }

  /** The sum of the balances, as a reference for the fold. */
  function Sum(accounts: seq<Account>): int
    decreases |accounts|
  {
    if accounts == [] then 0 else BalanceOf(accounts[0]) + Sum(accounts[1..])
  }

  /** `accounts.reduce((sum, a) => sum + (a.balance || 0), sum)`: a left fold
      from the accumulator `sum`, which adds the sum of the balances to it. */
  function Reduce(sum: int, accounts: seq<Account>): (r: int)
    ensures r == sum + Sum(accounts)
    decreases |accounts|
  {
    if accounts == [] then sum else Reduce(sum + BalanceOf(accounts[0]), accounts[1..])
  }

  /** The sum over two lists one after the other is the sum of their sums. */
  lemma {:induction false} SumAppend(a: seq<Account>, b: seq<Account>)
    ensures Sum(a + b) == Sum(a) + Sum(b)
    decreases |a|
  {
    if a == [] {
      assert a + b == b;
    } else {
      assert (a + b)[1..] == a[1..] + b;
      SumAppend(a[1..], b);
    }
  }

  /** Taking one account out of the list takes its balance out of the sum. */
  lemma SumRemove(b: seq<Account>, i: nat)
    requires i < |b|
    ensures Sum(b) == BalanceOf(b[i]) + Sum(b[..i] + b[i + 1..])
  {
    assert b == b[..i] + b[i..];
    SumAppend(b[..i], b[i..]);
    assert b[i..][1..] == b[i + 1..];
    assert Sum(b[i..]) == BalanceOf(b[i]) + Sum(b[i + 1..]);
    SumAppend(b[..i], b[i + 1..]);
  }

  lemma MultisetRemove(b: seq<Account>, i: nat)
    requires i < |b|
    ensures multiset(b[..i] + b[i + 1..]) == multiset(b) - multiset{b[i]}
  {
    assert b == b[..i] + [b[i]] + b[i + 1..];
  }

  /** The sum does not depend on the order in which the database returns the
      accounts. */
  lemma {:induction false} SumPermutation(a: seq<Account>, b: seq<Account>)
    requires multiset(a) == multiset(b)
    ensures Sum(a) == Sum(b)
    decreases |a|
  {
    if a == [] {
      assert |b| == |multiset(b)| == 0;
    } else {
      assert a[0] in multiset(b);
      var i :| 0 <= i < |b| && b[i] == a[0];
      assert a == [a[0]] + a[1..];
      assert multiset(a[1..]) == multiset(a) - multiset{a[0]};
      MultisetRemove(b, i);
      SumPermutation(a[1..], b[..i] + b[i + 1..]);
      SumRemove(b, i);
    }
  }

  /** `totalBalance` as the fetch function computes it. */
  function TotalBalance(accounts: seq<Account>): (total: int)
    ensures total == Sum(accounts)
  {
    Reduce(0, accounts)
  }

  /** The total over no accounts is zero, and an account added to the list
      raises the total by its balance, or by nothing when its balance is
      missing. */
  lemma TotalBalanceFacts(accounts: seq<Account>, added: Account)
    ensures TotalBalance([]) == 0
    ensures TotalBalance(accounts + [added]) == TotalBalance(accounts) + BalanceOf(added)
    ensures added.balance.None? ==> TotalBalance(accounts + [added]) == TotalBalance(accounts)
  {
    SumAppend(accounts, [added]);
  }

  /** The fetch function: query the user's accounts and fold their balances
      into `{ totalBalance }`; a failed query passes its error through. */
  function BalanceFetch(found: Outcome<seq<Account>>): (r: Outcome<Payload>)
    ensures found.Ok? ==> r == Ok(BalanceSummary(Sum(found.value)))
    ensures found.Fail? ==> r == Fail(found.error)
  {
    match found
    case Ok(accounts) => Ok(BalanceSummary(TotalBalance(accounts)))
    case Fail(e) => Fail(e)
  }

  /** `handler(req, res)`.  `auth` is what `authenticate(req)` returns and
      `find` is the account query `Account.find({ userId })`. */
  method Handler(cache: CacheStore<Payload>, auth: Option<string>, req: Request,
                 find: string -> Outcome<seq<Account>>, res: Res)
    modifies cache, res
    ensures cache.now == old(cache.now)
    ensures forall t :: BalanceTtl <= t && FreshStore(old(cache.store), cache.now, t) ==> FreshStore(cache.store, cache.now, t)
    ensures |res.sent| > |old(res.sent)| && res.statusCode == res.sent[|res.sent| - 1].status
    // the only entry that can change is the user's "total-balance"
    ensures forall k: CacheKey :: !Authenticated(auth) || k != CacheKey("total-balance", auth.value) ==>
      Agree(old(cache.store), cache.store, k)
    // the authentication gate: nothing happens but a 401
    ensures !Authenticated(auth) ==>
      && cache.store == old(cache.store) && cache.ops == old(cache.ops)
      && res.sent == old(res.sent) + [Reply(401, Message("Unauthorized"))]
      && res.headers == old(res.headers)
    // GET: a read through ("total-balance", userId); a failure is answered
    // with a 500 and then, falling through to the default branch, a 405
    ensures Authenticated(auth) && req.httpMethod == "GET" ==>
      var rt := ReadThrough(old(cache.store), cache.now, CacheKey("total-balance", auth.value), BalanceTtl,
                            BalanceFetch(find(auth.value)));
      && cache.store == rt.store && cache.ops == old(cache.ops) + rt.ops
      && (rt.result.Ok? ==>
            && res.sent == old(res.sent) + [Reply(200, Data(rt.result.value))]
            && res.headers == old(res.headers))
      && (rt.result.Fail? ==>
            && res.sent == old(res.sent) + [Reply(500, ErrorDetail("Server error", rt.result.error.message)), NotAllowed("GET")]
            && res.headers == old(res.headers)["Allow" := AllowedMethods])
    // any other method: 405 with the Allow header, the cache untouched
    ensures Authenticated(auth) && req.httpMethod != "GET" ==>
      && cache.store == old(cache.store) && cache.ops == old(cache.ops)
      && res.sent == old(res.sent) + [NotAllowed(req.httpMethod)]
      && res.headers == old(res.headers)["Allow" := AllowedMethods]
  {
    if !Authenticated(auth) {
      res.Send(401, Message("Unauthorized"));
      return;
    }
    var userId := auth.value;
    if req.httpMethod == "GET" {
      var data := cache.GetCache(userId, "total-balance", BalanceTtl, BalanceFetch(find(userId)));
      match data
      case Ok(summary) =>
        res.Send(200, Data(summary));
        return;
      case Fail(e) =>
        res.Send(500, ErrorDetail("Server error", e.message));
      // no `break`: control falls through into the default branch
    }
    res.SetHeader("Allow", AllowedMethods);
    res.Send(405, Message("Method " + req.httpMethod + " Not Allowed"));
  }

  /** The handler as its GET case evidently intends, with a `break` (or a
      `return`) after the catch: every request gets exactly one reply, and a
      failed read is a plain 500 with no Allow header. */
  method HandlerWithBreak(cache: CacheStore<Payload>, auth: Option<string>, req: Request,
                          find: string -> Outcome<seq<Account>>, res: Res)
    modifies cache, res
    ensures cache.now == old(cache.now)
    ensures forall t :: BalanceTtl <= t && FreshStore(old(cache.store), cache.now, t) ==> FreshStore(cache.store, cache.now, t)
    ensures |res.sent| == |old(res.sent)| + 1 && res.statusCode == res.sent[|res.sent| - 1].status
    ensures forall k: CacheKey :: !Authenticated(auth) || k != CacheKey("total-balance", auth.value) ==>
      Agree(old(cache.store), cache.store, k)
    ensures !Authenticated(auth) ==>
      && cache.store == old(cache.store) && cache.ops == old(cache.ops)
      && res.sent == old(res.sent) + [Reply(401, Message("Unauthorized"))]
      && res.headers == old(res.headers)
    ensures Authenticated(auth) && req.httpMethod == "GET" ==>
      var rt := ReadThrough(old(cache.store), cache.now, CacheKey("total-balance", auth.value), BalanceTtl,
                            BalanceFetch(find(auth.value)));
      && cache.store == rt.store && cache.ops == old(cache.ops) + rt.ops
      && res.headers == old(res.headers)
      && res.sent == old(res.sent) + [if rt.result.Ok? then Reply(200, Data(rt.result.value))
                                      else Reply(500, ErrorDetail("Server error", rt.result.error.message))]
    ensures Authenticated(auth) && req.httpMethod != "GET" ==>
      && cache.store == old(cache.store) && cache.ops == old(cache.ops)
      && res.sent == old(res.sent) + [NotAllowed(req.httpMethod)]
      && res.headers == old(res.headers)["Allow" := AllowedMethods]
  {
    if !Authenticated(auth) {
      res.Send(401, Message("Unauthorized"));
      return;
    }
    var userId := auth.value;
    if req.httpMethod == "GET" {
      var data := cache.GetCache(userId, "total-balance", BalanceTtl, BalanceFetch(find(userId)));
      match data
      case Ok(summary) =>
        res.Send(200, Data(summary));
      case Fail(e) =>
        res.Send(500, ErrorDetail("Server error", e.message));
    } else {
      res.SetHeader("Allow", AllowedMethods);
      res.Send(405, Message("Method " + req.httpMethod + " Not Allowed"));
    }
  }

  /** The input that shows the missing `break`: a GET whose account query
      fails, on a cache with no live total-balance entry, is answered twice,
      first with 500 and then with 405.  The corrected handler answers once. */
  method FailedReadAnswersTwice(userId: string, e: ServiceError)
    returns (asWritten: seq<Reply>, corrected: seq<Reply>)
    requires userId != ""
    ensures asWritten == [Reply(500, ErrorDetail("Server error", e.message)), Reply(405, Message("Method GET Not Allowed"))]
    ensures corrected == [Reply(500, ErrorDetail("Server error", e.message))]
  {
    var failing := (u: string) => Fail(e);
    var req := Request("GET", None, AccountForm(map[]));

    var cache := new CacheStore<Payload>(0);
    var res := new Res();
    Handler(cache, Some(userId), req, failing, res);
    assert "Method " + "GET" + " Not Allowed" == "Method GET Not Allowed";
    asWritten := res.sent;

    var cache' := new CacheStore<Payload>(0);
    var res' := new Res();
    HandlerWithBreak(cache', Some(userId), req, failing, res');
    corrected := res'.sent;
  }
}
