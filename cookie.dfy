/**
  Cookie sessions: a read-through cache of sessions in front of the Mongo
  collection, updates that rewrite a session's cookie list and upsert it,
  and the filter that keeps a session's unexpired cookies.

  The collection is the map `store` from session id to session; a session
  the cache hands out is shared, so an update made through it is an update
  of the cached entry. Times are integers (nanoseconds); `now` and store
  failures are parameters.
*/
module Cookies {
  import opened Wrappers

  datatype Cookie = Cookie(
    name: string,
    value: string,
    domain: string,
    path: string,
    expires: int,
    secure: bool,
    httpOnly: bool,
    createTime: int,
    lastUsed: int)

  datatype Session = Session(
    id: string,
    userId: string,
    cookies: seq<Cookie>,
    createdAt: int,
    updatedAt: int,
    expiresAt: int)

  datatype CookieError = NotFound(id: string) | StoreFailed

  /** The cookies still valid at `now` (expiring strictly later), in order. */
  function Unexpired(cookies: seq<Cookie>, now: int): (r: seq<Cookie>)
    ensures |r| <= |cookies|
    ensures forall i :: 0 <= i < |r| ==> r[i].expires > now
  {
    if |cookies| == 0 then []
    else Unexpired(cookies[..|cookies| - 1], now)
         + (if cookies[|cookies| - 1].expires > now then [cookies[|cookies| - 1]] else [])
  }

  /** A cookie is kept exactly when it is in the list and expires after `now`. */
  lemma {:induction false} UnexpiredMembers(cookies: seq<Cookie>, now: int, c: Cookie)
    ensures c in Unexpired(cookies, now) <==> c in cookies && c.expires > now
  {
    if |cookies| > 0 {
      UnexpiredMembers(cookies[..|cookies| - 1], now, c);
      assert cookies == cookies[..|cookies| - 1] + [cookies[|cookies| - 1]];
    }
  }

  /** Filtering at `now` and then at a later time is filtering at the later
      time: a cookie valid later was valid at `now`. */
  lemma {:induction false} UnexpiredLater(cookies: seq<Cookie>, now: int, later: int)
    requires now <= later
    ensures Unexpired(Unexpired(cookies, now), later) == Unexpired(cookies, later)
  {
    if |cookies| > 0 {
      var init := cookies[..|cookies| - 1];
      var last := cookies[|cookies| - 1];
      UnexpiredLater(init, now, later);
      var kept := Unexpired(init, now);
      var tail := if last.expires > later then [last] else [];
      assert Unexpired(cookies, later) == Unexpired(init, later) + tail;
      if last.expires > now {
        assert Unexpired(cookies, now) == kept + [last];
        assert (kept + [last])[..|kept|] == kept;
        assert Unexpired(kept + [last], later) == Unexpired(kept, later) + tail;
      } else {
        assert Unexpired(cookies, now) == kept;
      }
    }
  }

  class CookieControl {
    /** The in-memory cache of sessions. */
    var sessions: map<string, Session>
    /** The Mongo collection, by `_id`. */
    var store: map<string, Session>

    constructor (store: map<string, Session>)
      ensures sessions == map[] && this.store == store
    {
      sessions := map[];
      this.store := store;
    }

    /** `SaveSession`: stamp the session and upsert it under its id; the
        stamp is made even when the upsert fails. */
    method SaveSession(session: Session, now: int, fails: bool) returns (saved: Session, err: Option<CookieError>)
      modifies this`store
      ensures saved == session.(updatedAt := now)
      ensures fails ==> err == Some(StoreFailed) && store == old(store)
      ensures !fails ==> err.None? && store == old(store)[session.id := saved]
    {
      saved := session.(updatedAt := now);
      if fails {
        return saved, Some(StoreFailed);
      }
      store := store[session.id := saved];
      return saved, None;
    }

    /** `GetSession`: a cached session is returned without consulting the
        store; a miss reads the store and caches what it finds; a failed or
        empty read is an error and leaves the cache alone. */
    method GetSession(id: string, findFails: bool) returns (r: Result<Session, CookieError>)
      modifies this`sessions
      ensures id in old(sessions) ==> r == Ok(old(sessions)[id]) && sessions == old(sessions)
      ensures id !in old(sessions) && findFails ==> r == Err(StoreFailed) && sessions == old(sessions)
      ensures id !in old(sessions) && !findFails && id !in store ==> r == Err(NotFound(id)) && sessions == old(sessions)
      ensures id !in old(sessions) && !findFails && id in store ==>
                r == Ok(store[id]) && sessions == old(sessions)[id := store[id]]
      ensures r.Ok? ==> id in sessions && sessions[id] == r.value
    {
      if id in sessions {
        return Ok(sessions[id]);
      }
      if findFails {
        return Err(StoreFailed);
      }
      if id !in store {
        return Err(NotFound(id));
      }
      var found := store[id];
      sessions := sessions[id := found];
      return Ok(found);
    }

    /** `UpdateCookies`: look the session up, replace its cookie list (in the
        cached session itself) and save it. A failed lookup saves nothing. */
    method UpdateCookies(id: string, cookies: seq<Cookie>, now: int, findFails: bool, saveFails: bool) returns (err: Option<CookieError>)
      modifies this`sessions, this`store
      ensures id !in old(sessions) && (findFails || id !in old(store)) ==>
                err.Some? && sessions == old(sessions) && store == old(store)
      ensures id in old(sessions) || (!findFails && id in old(store)) ==>
                var before := if id in old(sessions) then old(sessions)[id] else old(store)[id];
                var after := before.(cookies := cookies, updatedAt := now);
                && sessions == old(sessions)[id := after]
                && (saveFails ==> err == Some(StoreFailed) && store == old(store))
                && (!saveFails ==> err.None? && store == old(store)[before.id := after])
    {
      var got := GetSession(id, findFails);
      if got.Err? {
        return Some(got.error);
      }
      var session := got.value.(cookies := cookies, updatedAt := now);
      sessions := sessions[id := session];
      var saved;
      saved, err := SaveSession(session, now, saveFails);
      sessions := sessions[id := saved];
    }

    /** `GetValidCookies`: the session's cookies that expire after `now`. */
    method GetValidCookies(id: string, now: int, findFails: bool) returns (r: Result<seq<Cookie>, CookieError>)
      modifies this`sessions
      ensures id !in old(sessions) && (findFails || id !in store) ==> r.Err? && sessions == old(sessions)
      ensures id in old(sessions) ==> r == Ok(Unexpired(old(sessions)[id].cookies, now))
      ensures id !in old(sessions) && !findFails && id in store ==> r == Ok(Unexpired(store[id].cookies, now))
      ensures sessions == (if id in old(sessions) then old(sessions)
                           else if !findFails && id in store then old(sessions)[id := store[id]]
                           else old(sessions))
    {
      var got := GetSession(id, findFails);
      if got.Err? {
        return Err(got.error);
      }
      var cookies := got.value.cookies;
      var valid: seq<Cookie> := [];
      for i := 0 to |cookies|
        invariant valid == Unexpired(cookies[..i], now)
      {
        assert cookies[..i + 1][..i] == cookies[..i];
        if cookies[i].expires > now {
          valid := valid + [cookies[i]];
        }
      }
      assert cookies[..|cookies|] == cookies;
      return Ok(valid);
    }
  }
}
