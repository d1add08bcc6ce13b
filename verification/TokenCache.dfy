/** The IMDSv2 token cache: a token is reused until 30 seconds before the client believes it expires. Times are in
    nanoseconds on one monotone clock. */
module TokenCache {
  import opened Wrappers

  const SECOND: int := 1_000_000_000
  const TOKEN_TTL: int := 6 * 3600 * SECOND
  const REFRESH_SLOP: int := 30 * SECOND
  const CLIENT_TIMEOUT: int := 5 * SECOND

  /** A token request: the server grants a token for the requested TTL at some moment, and the client, done reading,
      looks at its clock; or it fails. */
  datatype Exchange = Granted(body: string, at: int, done: int) | Failed

  datatype Cache = Cache(token: string, expiry: int)
  {
    predicate Usable(now: int) {
      token != "" && now < expiry - REFRESH_SLOP
    }
  }

  /** getToken on values; the exchange counts only when the cached token will not do. */
  function Called(cache: Cache, now: int, x: Exchange): (Cache, Option<string>) {
    if cache.Usable(now) then (cache, Some(cache.token))
    else
      match x
      case Granted(body, _, done) => (Cache(body, done + TOKEN_TTL), Some(body))
      case Failed => (cache, None)
  }

  /** A token is used until 30 seconds before it has been held for six hours. A call that cannot use it hands out what the
      server granted, and nothing if it granted nothing. */
  lemma HandedOut(k: Cache, now: int, x: Exchange)
    ensures k.token != "" && now + 30_000_000_000 < k.expiry ==> Called(k, now, x) == (k, Some(k.token))
    ensures !(k.token != "" && now + 30_000_000_000 < k.expiry) ==>
              && Called(k, now, x).1 == (if x.Granted? then Some(x.body) else None)
              && Called(k, now, x).0 == (if x.Granted? then Cache(x.body, x.done + 21_600_000_000_000) else k)
  {
  }

  class Client {
    var token: string
    var tokenExpiry: int

    constructor ()
      ensures token == ""
    {
      token, tokenExpiry := "", 0;
    }

    method GetToken(now: int, x: Exchange) returns (r: Option<string>)
      modifies this
      ensures (Cache(token, tokenExpiry), r) == Called(old(Cache(token, tokenExpiry)), now, x)
      ensures r.Some? ==>
                && r.value == token
                && r.value == if old(Cache(token, tokenExpiry).Usable(now)) then old(token) else x.body
      ensures r.None? <==> !old(Cache(token, tokenExpiry).Usable(now)) && x.Failed?
    {
      if token != "" && now < tokenExpiry - REFRESH_SLOP {
        return Some(token);
      }
      if x.Failed? {
        return None;
      }
      token := x.body;
      tokenExpiry := x.done + TOKEN_TTL;
      return Some(token);
    }
  }

  /** One call of getToken: when it looks at the clock, and how a token request would go. */
  datatype Call = Call(now: int, x: Exchange)

  /** The cache after some calls, starting from any cache. */
  function After(c0: Cache, calls: seq<Call>): Cache {
    if calls == [] then c0
    else Called(After(c0, calls[..|calls| - 1]), calls[|calls| - 1].now, calls[|calls| - 1].x).0
  }

  /** Call i goes to the server and gets a token. */
  predicate Fetches(c0: Cache, calls: seq<Call>, i: nat)
    requires i < |calls|
  {
    !After(c0, calls[..i]).Usable(calls[i].now) && calls[i].x.Granted?
  }

  /** Exchanges stay within the client timeout, and the clock does not run backwards across calls. */
  ghost predicate Timely(calls: seq<Call>) {
    && (forall i :: 0 <= i < |calls| && calls[i].x.Granted? ==>
          calls[i].now <= calls[i].x.at <= calls[i].x.done <= calls[i].now + CLIENT_TIMEOUT)
    && (forall i, k :: 0 <= i < k < |calls| ==>
          calls[i].now <= calls[k].now && (calls[i].x.Granted? ==> calls[i].x.done <= calls[k].now))
  }

  /** A cached token came from a fetch, and nothing was fetched since. */
  lemma {:induction false} Provenance(c0: Cache, calls: seq<Call>) returns (k: nat)
    requires c0.token == "" && After(c0, calls).token != ""
    ensures k < |calls| && Fetches(c0, calls, k)
    ensures After(c0, calls) == Cache(calls[k].x.body, calls[k].x.done + TOKEN_TTL)
    ensures forall i :: k < i < |calls| ==> !Fetches(c0, calls, i)
  {
    var n := |calls| - 1;
    var front := calls[..n];
    if Fetches(c0, calls, n) {
      k := n;
    } else {
      k := Provenance(c0, front);
      forall i | 0 <= i < n
        ensures Fetches(c0, front, i) == Fetches(c0, calls, i)
      {
        assert front[..i] == calls[..i];
      }
    }
  }

  /** When call i hands out its token: at once, or when the exchange is done. */
  function HandOver(c0: Cache, calls: seq<Call>, i: nat): int
    requires i < |calls| && Called(After(c0, calls[..i]), calls[i].now, calls[i].x).1.Some?
  {
    if Fetches(c0, calls, i) then calls[i].x.done else calls[i].now
  }

  /** Every token that getToken hands out, cached or just fetched, is the one some exchange up to then granted, and has more
      than 25 seconds of server-side life left, so it outlives the request it is used in, which the client abandons after
      5 seconds. */
  lemma TokenOutlivesItsUse(c0: Cache, calls: seq<Call>, i: nat) returns (k: nat)
    requires c0.token == "" && Timely(calls) && i < |calls|
    requires Called(After(c0, calls[..i]), calls[i].now, calls[i].x).1.Some?
    ensures k <= i && Fetches(c0, calls, k) && (k == i <==> Fetches(c0, calls, i))
    ensures Called(After(c0, calls[..i]), calls[i].now, calls[i].x).1 == Some(calls[k].x.body)
    ensures calls[k].x.at + 21_600_000_000_000 - HandOver(c0, calls, i) > 25_000_000_000
    ensures HandOver(c0, calls, i) + CLIENT_TIMEOUT < calls[k].x.at + TOKEN_TTL
  {
    if Fetches(c0, calls, i) {
      k := i;
    } else {
      k := Provenance(c0, calls[..i]);
      assert calls[..i][..k] == calls[..k];
    }
  }

  /** After a fetch of a non-empty token the next fetch waits until 30 seconds before its expiry. */
  lemma {:induction false} FetchesAreSpaced(c0: Cache, calls: seq<Call>, i: nat, k: nat)
    requires Timely(calls) && i < k < |calls| && Fetches(c0, calls, i) && Fetches(c0, calls, k)
    requires calls[i].x.body != ""
    ensures calls[k].now - calls[i].x.done >= TOKEN_TTL - REFRESH_SLOP == 21_570_000_000_000
    decreases k
  {
    if m :| i < m < k && Fetches(c0, calls, m) {
      FetchesAreSpaced(c0, calls, i, m);
    } else {
      HeldSince(c0, calls, i, k);
    }
  }

  lemma {:induction false} HeldSince(c0: Cache, calls: seq<Call>, i: nat, k: nat)
    requires i < k <= |calls| && Fetches(c0, calls, i)
    requires forall m :: i < m < k ==> !Fetches(c0, calls, m)
    ensures After(c0, calls[..k]) == Cache(calls[i].x.body, calls[i].x.done + TOKEN_TTL)
    decreases k
  {
    assert calls[..k][..k - 1] == calls[..k - 1];
    if k - 1 > i {
      HeldSince(c0, calls, i, k - 1);
      assert !Fetches(c0, calls, k - 1);
    }
  }

  /** Exactly when a call after a fetch is the next to ask the server: when the fetched token was empty, which a server may
      answer with status 200, or close to its expiry. */
  lemma NextFetchIff(c0: Cache, calls: seq<Call>, i: nat, k: nat)
    requires i < k < |calls| && Fetches(c0, calls, i) && calls[k].x.Granted?
    requires forall m :: i < m < k ==> !Fetches(c0, calls, m)
    ensures Fetches(c0, calls, k) <==>
            calls[i].x.body == "" || calls[k].now >= calls[i].x.done + TOKEN_TTL - REFRESH_SLOP
  {
    HeldSince(c0, calls, i, k);
  }
}
