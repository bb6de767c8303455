/**
 * The session ledger: persisted `metaLogin` records, one lineage per issued token, and
 * the term query the JWT filter runs over them (`getMetaLogins`, `createMetaLogin`).
 *
 * Records are never deleted; a session is invalidated by giving it a non-zero `failTime`.
 * The store keeps records in insertion order and the query returns the newest matches
 * first, one page of `PageSize` at most.
 */
module SessionLedger {
  import opened Wrappers
  import opened ClientAgent

  /** A `metaLogin` record. `failTime == 0` means the session is live. */
  datatype MetaLogin = MetaLogin(
    id: string,
    appid: string,
    userId: string,
    userName: string,
    clientId: ClientClass,
    loginTime: int,
    failTime: int,
    active: bool)

  predicate IsLive(r: MetaLogin) {
    r.failTime == 0
  }

  /** `r` and `r'` are the same record, save perhaps for their `failTime`. */
  predicate SameButFailTime(r: MetaLogin, r': MetaLogin) {
    r.(failTime := 0) == r'.(failTime := 0)
  }

  /**
   * The terms `getMetaLogins` puts in its query: always `active` and `userId`; `clientId`
   * only for a non-null agent; `loginTime` only when positive.
   */
  datatype Query = Query(appid: string, userId: string, clientId: Option<ClientClass>, loginTime: int)

  predicate Matches(r: MetaLogin, q: Query) {
    && r.appid == q.appid
    && r.active
    && r.userId == q.userId
    && (q.clientId.Some? ==> r.clientId == q.clientId.value)
    && (q.loginTime > 0 ==> r.loginTime == q.loginTime)
  }

  /** The query that scopes a session lineage: one app, one user, one client class. */
  function ClientQuery(appid: string, userId: string, agent: ClientClass): Query {
    Query(appid, userId, Some(agent), 0)
  }

  /** The query that checks a token: any client class, the token's not-before time. */
  function TokenQuery(appid: string, userId: string, notBefore: int): Query {
    Query(appid, userId, None, notBefore)
  }

  /** The page size of `new Pager(1, 10)`. */
  const PageSize: nat := 10

  /** The positions below `n` of the records matching `q`, newest first. */
  function MatchesBelow(rs: seq<MetaLogin>, q: Query, n: nat): (m: seq<nat>)
    requires n <= |rs|
    ensures forall k :: 0 <= k < |m| ==> m[k] < n && Matches(rs[m[k]], q)
    ensures forall k, l :: 0 <= k < l < |m| ==> m[k] > m[l]
    ensures forall i :: 0 <= i < n && Matches(rs[i], q) ==> i in m
    decreases n
  {
    if n == 0 then []
    else if Matches(rs[n - 1], q) then [n - 1] + MatchesBelow(rs, q, n - 1)
    else MatchesBelow(rs, q, n - 1)
  }

  /**
   * `findTerms(…, new Pager(1, 10))`: the first page of matches, newest first. A page
   * shorter than `PageSize` holds every match; a full one holds every match newer than
   * its last entry.
   */
  function Page(rs: seq<MetaLogin>, q: Query): (page: seq<nat>)
    ensures |page| <= PageSize
    ensures forall k :: 0 <= k < |page| ==> page[k] < |rs| && Matches(rs[page[k]], q)
    ensures forall k, l :: 0 <= k < l < |page| ==> page[k] > page[l]
    ensures |page| < PageSize ==> forall i :: 0 <= i < |rs| && Matches(rs[i], q) ==> i in page
    ensures |page| > 0 ==> forall i :: page[|page| - 1] < i < |rs| && Matches(rs[i], q) ==> i in page
  {
    var all := MatchesBelow(rs, q, |rs|);
    FirstPageOf(rs, q, all);
    if |all| <= PageSize then all else all[..PageSize]
  }

  /** The first `PageSize` entries of all the matches, newest first, form the first page. */
  lemma FirstPageOf(rs: seq<MetaLogin>, q: Query, all: seq<nat>)
    requires forall k :: 0 <= k < |all| ==> all[k] < |rs| && Matches(rs[all[k]], q)
    requires forall k, l :: 0 <= k < l < |all| ==> all[k] > all[l]
    requires forall i :: 0 <= i < |rs| && Matches(rs[i], q) ==> i in all
    ensures var page := if |all| <= PageSize then all else all[..PageSize];
      && (|page| < PageSize ==> forall i :: 0 <= i < |rs| && Matches(rs[i], q) ==> i in page)
      && (|page| > 0 ==> forall i :: page[|page| - 1] < i < |rs| && Matches(rs[i], q) ==> i in page)
  {
    if |all| > PageSize {
      var page := all[..PageSize];
      forall i | page[PageSize - 1] < i < |rs| && Matches(rs[i], q)
        ensures i in page
      {
        NewerThanCutIsKept(all, PageSize, i);
      }
    }
  }

  /** In a strictly decreasing sequence, an entry above the `n`-th lies among the first `n`. */
  lemma NewerThanCutIsKept(all: seq<nat>, n: nat, i: nat)
    requires 0 < n <= |all| && forall k, l :: 0 <= k < l < |all| ==> all[k] > all[l]
    requires i in all && i > all[n - 1]
    ensures i in all[..n]
  {
    var k :| 0 <= k < |all| && all[k] == i;
    assert k < n;
    assert all[..n][k] == i;
  }

  /** Sets `failTime` to `now` on the live records at the positions in `page`. */
  function Invalidate(rs: seq<MetaLogin>, page: seq<nat>, now: int): (rs': seq<MetaLogin>)
    requires now > 0
    ensures |rs'| == |rs|
    ensures forall i :: 0 <= i < |rs| ==> SameButFailTime(rs[i], rs'[i])
    ensures forall i :: 0 <= i < |rs| && i !in page ==> rs'[i] == rs[i]
    ensures forall i :: 0 <= i < |rs| && !IsLive(rs[i]) ==> rs'[i] == rs[i]
    ensures forall i :: 0 <= i < |rs| && i in page ==> !IsLive(rs'[i])
    ensures forall i :: 0 <= i < |rs| && i in page && IsLive(rs[i]) ==> rs'[i].failTime == now
  {
    seq(|rs|, i requires 0 <= i < |rs| =>
      if i in page && IsLive(rs[i]) then rs[i].(failTime := now) else rs[i])
  }

  /**
   * What both a new login and a revocation do to the ledger: every live record on the
   * first page of the (app, user, client) query is invalidated.
   */
  function InvalidateClient(rs: seq<MetaLogin>, appid: string, userId: string, agent: ClientClass, now: int): (rs': seq<MetaLogin>)
    requires now > 0
    ensures |rs'| == |rs|
    ensures forall i :: 0 <= i < |rs| && !Matches(rs[i], ClientQuery(appid, userId, agent)) ==> rs'[i] == rs[i]
    ensures forall i :: 0 <= i < |rs| ==>
      rs'[i] == rs[i] || (Matches(rs[i], ClientQuery(appid, userId, agent)) && IsLive(rs[i]) && rs'[i] == rs[i].(failTime := now))
    ensures forall i :: 0 <= i < |rs| && i in Page(rs, ClientQuery(appid, userId, agent)) ==> !IsLive(rs'[i])
  {
    Invalidate(rs, Page(rs, ClientQuery(appid, userId, agent)), now)
  }

  /** The record `createMetaLogin` stores for a token whose not-before time is `loginTime`. */
  function NewMetaLogin(id: string, appid: string, userId: string, userName: string, agent: ClientClass, loginTime: int): MetaLogin {
    MetaLogin(id, appid, userId, userName, agent, loginTime, 0, true)
  }

  /** The ledger after a new login with session bookkeeping (`getJWToken`). */
  function Issue(rs: seq<MetaLogin>, id: string, appid: string, userId: string, userName: string, agent: ClientClass, now: int): (rs': seq<MetaLogin>)
    requires now > 0
    ensures |rs'| == |rs| + 1
    ensures rs'[|rs|] == NewMetaLogin(id, appid, userId, userName, agent, now)
    ensures forall i :: 0 <= i < |rs| ==>
      rs'[i] == rs[i] || (Matches(rs[i], ClientQuery(appid, userId, agent)) && IsLive(rs[i]) && rs'[i] == rs[i].(failTime := now))
    ensures forall i :: 0 <= i < |rs| && i in Page(rs, ClientQuery(appid, userId, agent)) ==> !IsLive(rs'[i])
  {
    InvalidateClient(rs, appid, userId, agent, now) + [NewMetaLogin(id, appid, userId, userName, agent, now)]
  }

  /** `validateToken`: some record on the first page of the token query is live. */
  predicate Validate(rs: seq<MetaLogin>, appid: string, userId: string, notBefore: int) {
    var page := Page(rs, TokenQuery(appid, userId, notBefore));
    exists k :: 0 <= k < |page| && IsLive(rs[page[k]])
  }

  // ---------------------------------------------------------------------------
  // The page
  // ---------------------------------------------------------------------------

  /** The newest record matching a query heads its page. */
  lemma NewestMatchHeadsPage(rs: seq<MetaLogin>, q: Query, i: nat)
    requires i < |rs| && Matches(rs[i], q)
    requires forall j :: i < j < |rs| ==> !Matches(rs[j], q)
    ensures |Page(rs, q)| > 0 && Page(rs, q)[0] == i
  {
    var all := MatchesBelow(rs, q, |rs|);
    assert i in all;
    assert all[0] <= i by {
      assert Matches(rs[all[0]], q);
    }
    forall k | 0 <= k < |all|
      ensures all[0] >= all[k]
    {
    }
  }

  /** When all matches fit on one page, the page holds every one of them. */
  lemma SmallQueryFitsPage(rs: seq<MetaLogin>, q: Query, i: nat)
    requires |MatchesBelow(rs, q, |rs|)| <= PageSize
    requires i < |rs| && Matches(rs[i], q)
    ensures i in Page(rs, q)
  {
  }

  /** Changing only `failTime`s does not change what a query finds. */
  lemma {:induction false} MatchesBelowIgnoresFailTime(rs: seq<MetaLogin>, rs': seq<MetaLogin>, q: Query, n: nat)
    requires |rs| == |rs'| && n <= |rs|
    requires forall i :: 0 <= i < |rs| ==> SameButFailTime(rs[i], rs'[i])
    ensures MatchesBelow(rs, q, n) == MatchesBelow(rs', q, n)
  {
    if n > 0 {
      MatchesBelowIgnoresFailTime(rs, rs', q, n - 1);
      assert Matches(rs[n - 1], q) == Matches(rs'[n - 1], q) by {
        assert SameButFailTime(rs[n - 1], rs'[n - 1]);
      }
    }
  }

  // ---------------------------------------------------------------------------
  // Single live session per (app, user, client)
  // ---------------------------------------------------------------------------

  /** Two active records of the same session lineage key. */
  predicate SameKey(r: MetaLogin, r': MetaLogin) {
    r.active && r'.active && r.appid == r'.appid && r.userId == r'.userId && r.clientId == r'.clientId
  }

  /** At most one record of each (app, user, client) key is live. */
  predicate AtMostOneLive(rs: seq<MetaLogin>) {
    forall i, j :: 0 <= i < j < |rs| && SameKey(rs[i], rs[j]) ==> !(IsLive(rs[i]) && IsLive(rs[j]))
  }

  /**
   * The ledger invariant kept by serial logins and revocations: a record that has a
   * newer record of the same key is dead, so the only record of a key that can be live
   * is its newest, which is always on the first page of the key's query.
   */
  predicate LiveIsNewest(rs: seq<MetaLogin>) {
    forall i, j :: 0 <= i < j < |rs| && SameKey(rs[i], rs[j]) ==> !IsLive(rs[i])
  }

  lemma LiveIsNewestGivesAtMostOneLive(rs: seq<MetaLogin>)
    requires LiveIsNewest(rs)
    ensures AtMostOneLive(rs)
  {
  }

  /** The empty ledger satisfies the invariant. */
  lemma EmptyLiveIsNewest()
    ensures LiveIsNewest([])
  {
  }

  /** Under the invariant, invalidating a key leaves no live record of that key. */
  lemma InvalidateClientKillsKey(rs: seq<MetaLogin>, appid: string, userId: string, agent: ClientClass, now: int)
    requires now > 0 && LiveIsNewest(rs)
    ensures var rs' := InvalidateClient(rs, appid, userId, agent, now);
      forall i :: 0 <= i < |rs| && Matches(rs[i], ClientQuery(appid, userId, agent)) ==> !IsLive(rs'[i])
  {
    var q := ClientQuery(appid, userId, agent);
    var page := Page(rs, q);
    var rs' := InvalidateClient(rs, appid, userId, agent, now);
    forall i | 0 <= i < |rs| && Matches(rs[i], q)
      ensures !IsLive(rs'[i])
    {
      if IsLive(rs[i]) {
        assert forall j :: i < j < |rs| ==> !Matches(rs[j], q);
        NewestMatchHeadsPage(rs, q, i);
        assert i in page;
      }
    }
  }

  /** Invalidation only kills sessions, so it keeps the invariant. */
  lemma InvalidateClientKeepsInvariant(rs: seq<MetaLogin>, appid: string, userId: string, agent: ClientClass, now: int)
    requires now > 0 && LiveIsNewest(rs)
    ensures LiveIsNewest(InvalidateClient(rs, appid, userId, agent, now))
  {
    var rs' := InvalidateClient(rs, appid, userId, agent, now);
    forall i, j | 0 <= i < j < |rs'| && SameKey(rs'[i], rs'[j])
      ensures !IsLive(rs'[i])
    {
      assert SameButFailTime(rs[i], rs'[i]) && SameButFailTime(rs[j], rs'[j]);
      assert SameKey(rs[i], rs[j]);
    }
  }

  /** A serial login keeps the invariant: single live session over any run of logins. */
  lemma IssueKeepsInvariant(rs: seq<MetaLogin>, id: string, appid: string, userId: string, userName: string, agent: ClientClass, now: int)
    requires now > 0 && LiveIsNewest(rs)
    ensures LiveIsNewest(Issue(rs, id, appid, userId, userName, agent, now))
  {
    var q := ClientQuery(appid, userId, agent);
    var mid := InvalidateClient(rs, appid, userId, agent, now);
    var rs' := Issue(rs, id, appid, userId, userName, agent, now);
    InvalidateClientKeepsInvariant(rs, appid, userId, agent, now);
    InvalidateClientKillsKey(rs, appid, userId, agent, now);
    forall i, j | 0 <= i < j < |rs'| && SameKey(rs'[i], rs'[j])
      ensures !IsLive(rs'[i])
    {
      if j == |rs| {
        assert rs'[i] == mid[i] && SameButFailTime(rs[i], mid[i]);
        assert Matches(rs[i], q);
      } else {
        assert rs'[i] == mid[i] && rs'[j] == mid[j];
      }
    }
  }

  /**
   * Under the invariant, right after a login the new record is the one and only live
   * record of its (app, user, client) key.
   */
  lemma IssueLeavesOneLive(rs: seq<MetaLogin>, id: string, appid: string, userId: string, userName: string, agent: ClientClass, now: int)
    requires now > 0 && LiveIsNewest(rs)
    ensures var rs' := Issue(rs, id, appid, userId, userName, agent, now);
      && IsLive(rs'[|rs|]) && Matches(rs'[|rs|], ClientQuery(appid, userId, agent))
      && forall i :: 0 <= i < |rs'| && Matches(rs'[i], ClientQuery(appid, userId, agent)) && IsLive(rs'[i]) ==> i == |rs|
  {
    var q := ClientQuery(appid, userId, agent);
    var mid := InvalidateClient(rs, appid, userId, agent, now);
    var rs' := Issue(rs, id, appid, userId, userName, agent, now);
    InvalidateClientKillsKey(rs, appid, userId, agent, now);
    forall i | 0 <= i < |rs| && Matches(rs'[i], q)
      ensures !IsLive(rs'[i])
    {
      assert rs'[i] == mid[i] && SameButFailTime(rs[i], mid[i]);
      assert Matches(rs[i], q);
    }
  }

  /**
   * The same conclusion without the invariant, as far as the 10-record page reaches:
   * when the key has no more than `PageSize` active records, a login leaves exactly one
   * of them live, the new one.
   */
  lemma IssueLeavesOneLiveWithinPage(rs: seq<MetaLogin>, id: string, appid: string, userId: string, userName: string, agent: ClientClass, now: int)
    requires now > 0
    requires |MatchesBelow(rs, ClientQuery(appid, userId, agent), |rs|)| <= PageSize
    ensures var rs' := Issue(rs, id, appid, userId, userName, agent, now);
      forall i :: 0 <= i < |rs'| && Matches(rs'[i], ClientQuery(appid, userId, agent)) && IsLive(rs'[i]) ==> i == |rs|
  {
    var q := ClientQuery(appid, userId, agent);
    var mid := InvalidateClient(rs, appid, userId, agent, now);
    var rs' := Issue(rs, id, appid, userId, userName, agent, now);
    forall i | 0 <= i < |rs| && Matches(rs'[i], q)
      ensures !IsLive(rs'[i])
    {
      assert rs'[i] == mid[i] && SameButFailTime(rs[i], mid[i]);
      SmallQueryFitsPage(rs, q, i);
    }
  }

  // ---------------------------------------------------------------------------
  // Token validation against the ledger
  // ---------------------------------------------------------------------------

  /** A token is only accepted when a live record for its (app, user, not-before) exists. */
  lemma ValidateSound(rs: seq<MetaLogin>, appid: string, userId: string, notBefore: int)
    requires Validate(rs, appid, userId, notBefore)
    ensures exists i :: 0 <= i < |rs| && Matches(rs[i], TokenQuery(appid, userId, notBefore)) && IsLive(rs[i])
  {
    var page := Page(rs, TokenQuery(appid, userId, notBefore));
    var k :| 0 <= k < |page| && IsLive(rs[page[k]]);
    assert Matches(rs[page[k]], TokenQuery(appid, userId, notBefore));
  }

  /** When the token's records fit on one page, a live one is always found. */
  lemma ValidateCompleteWithinPage(rs: seq<MetaLogin>, appid: string, userId: string, notBefore: int, i: nat)
    requires |MatchesBelow(rs, TokenQuery(appid, userId, notBefore), |rs|)| <= PageSize
    requires i < |rs| && Matches(rs[i], TokenQuery(appid, userId, notBefore)) && IsLive(rs[i])
    ensures Validate(rs, appid, userId, notBefore)
  {
    var page := Page(rs, TokenQuery(appid, userId, notBefore));
    SmallQueryFitsPage(rs, TokenQuery(appid, userId, notBefore), i);
    var k :| 0 <= k < |page| && page[k] == i;
  }

  /** With no live record for the token, it is rejected. */
  lemma NoLiveRecordRejects(rs: seq<MetaLogin>, appid: string, userId: string, notBefore: int)
    requires forall i :: 0 <= i < |rs| && Matches(rs[i], TokenQuery(appid, userId, notBefore)) ==> !IsLive(rs[i])
    ensures !Validate(rs, appid, userId, notBefore)
  {
  }

  /** The token minted at a login is accepted right after it (issue-then-validate). */
  lemma IssueThenValidate(rs: seq<MetaLogin>, id: string, appid: string, userId: string, userName: string, agent: ClientClass, now: int)
    requires now > 0
    ensures Validate(Issue(rs, id, appid, userId, userName, agent, now), appid, userId, now)
  {
    var rs' := Issue(rs, id, appid, userId, userName, agent, now);
    NewestMatchHeadsPage(rs', TokenQuery(appid, userId, now), |rs|);
    assert IsLive(rs'[Page(rs', TokenQuery(appid, userId, now))[0]]);
  }

  /**
   * Revocation takes effect: after invalidating a client class, a token is rejected when
   * every record carrying its not-before time belongs to that client class.
   */
  lemma InvalidateThenValidateFails(rs: seq<MetaLogin>, appid: string, userId: string, agent: ClientClass, now: int, notBefore: int)
    requires now > 0 && LiveIsNewest(rs)
    requires forall i :: 0 <= i < |rs| && Matches(rs[i], TokenQuery(appid, userId, notBefore)) ==> rs[i].clientId == agent
    ensures !Validate(InvalidateClient(rs, appid, userId, agent, now), appid, userId, notBefore)
  {
    var rs' := InvalidateClient(rs, appid, userId, agent, now);
    InvalidateClientKillsKey(rs, appid, userId, agent, now);
    forall i | 0 <= i < |rs'| && Matches(rs'[i], TokenQuery(appid, userId, notBefore))
      ensures !IsLive(rs'[i])
    {
      assert SameButFailTime(rs[i], rs'[i]);
      assert Matches(rs[i], TokenQuery(appid, userId, notBefore));
      assert Matches(rs[i], ClientQuery(appid, userId, agent));
    }
    NoLiveRecordRejects(rs', appid, userId, notBefore);
  }

  /**
   * A new login supersedes the earlier token of the same client class: a token with an
   * older not-before time whose records all belong to that class is rejected afterwards.
   */
  lemma IssueThenOldTokenFails(rs: seq<MetaLogin>, id: string, appid: string, userId: string, userName: string, agent: ClientClass, now: int, notBefore: int)
    requires now > 0 && LiveIsNewest(rs)
    requires 0 < notBefore != now
    requires forall i :: 0 <= i < |rs| && Matches(rs[i], TokenQuery(appid, userId, notBefore)) ==> rs[i].clientId == agent
    ensures !Validate(Issue(rs, id, appid, userId, userName, agent, now), appid, userId, notBefore)
  {
    var mid := InvalidateClient(rs, appid, userId, agent, now);
    var rs' := Issue(rs, id, appid, userId, userName, agent, now);
    InvalidateThenValidateFails(rs, appid, userId, agent, now, notBefore);
    InvalidateClientKillsKey(rs, appid, userId, agent, now);
    forall i | 0 <= i < |rs'| && Matches(rs'[i], TokenQuery(appid, userId, notBefore))
      ensures !IsLive(rs'[i])
    {
      assert i < |rs|;
      assert rs'[i] == mid[i] && SameButFailTime(rs[i], mid[i]);
      assert Matches(rs[i], ClientQuery(appid, userId, agent));
    }
    NoLiveRecordRejects(rs', appid, userId, notBefore);
  }

  /**
   * Revocation is scoped by client class: a token that has a live record of another
   * class is still accepted afterwards, as long as its records fit on one page.
   */
  lemma InvalidateSparesOtherClients(rs: seq<MetaLogin>, appid: string, userId: string, agent: ClientClass, now: int, notBefore: int, i: nat)
    requires now > 0
    requires |MatchesBelow(rs, TokenQuery(appid, userId, notBefore), |rs|)| <= PageSize
    requires i < |rs| && Matches(rs[i], TokenQuery(appid, userId, notBefore)) && IsLive(rs[i])
    requires rs[i].clientId != agent
    ensures Validate(InvalidateClient(rs, appid, userId, agent, now), appid, userId, notBefore)
  {
    var rs' := InvalidateClient(rs, appid, userId, agent, now);
    MatchesBelowIgnoresFailTime(rs, rs', TokenQuery(appid, userId, notBefore), |rs|);
    assert rs'[i] == rs[i];
    ValidateCompleteWithinPage(rs', appid, userId, notBefore, i);
  }

  // ---------------------------------------------------------------------------
  // The persisted store
  // ---------------------------------------------------------------------------

  /** The object store's `metaLogin` records, updated in place. */
  class Ledger {
    var records: seq<MetaLogin>

    constructor (initial: seq<MetaLogin>)
      ensures records == initial
    {
      records := initial;
    }

    /** `findTerms` over `metaLogin` with a page of ten. */
    method FindTerms(q: Query) returns (page: seq<nat>)
      ensures page == Page(records, q)
    {
      page := Page(records, q);
    }

    /**
     * Keeps the live records among `page`, sets their `failTime` to `now` and writes
     * them back (`updateAll`).
     */
    method InvalidateLive(page: seq<nat>, now: int)
      requires now > 0
      modifies this
      ensures records == Invalidate(old(records), page, now)
    {
      var k := 0;
      while k < |page|
        invariant 0 <= k <= |page|
        invariant |records| == |old(records)|
        invariant forall i :: 0 <= i < |records| ==>
          records[i] == if i in page[..k] && IsLive(old(records)[i]) then old(records)[i].(failTime := now) else old(records)[i]
      {
        var i := page[k];
        if i < |records| && IsLive(records[i]) {
          records := records[i := records[i].(failTime := now)];
        }
        assert page[..k + 1] == page[..k] + [i];
        k := k + 1;
      }
      assert page[..|page|] == page;
    }

    /** `createMetaLogin`: persists one new record. */
    method Create(r: MetaLogin)
      modifies this
      ensures records == old(records) + [r]
    {
      records := records + [r];
    }
  }
}
