/**
 * The canned cookie helper behind the "cookies in use" bubble.
 *
 * `CannedBrowsingDataCookieHelper` keeps a map from a first-party origin
 * to a hash set of cookies.  Cookies are compared by their identity (the
 * hash set's equality); inserting a cookie first erases the one with the
 * same identity, so a set holds at most one cookie per identity and the
 * newest one wins.  Every added cookie goes into the single set of the
 * "chrome://cookieset" origin.  A cookie set is therefore modelled as a
 * map from identity to cookie.
 *
 * The cookie store behind the helper (the base class's deletion from the
 * cookie monster), threads and the parsing of a cookie line are outside
 * the model.
 */
module CookieHelper {
  import opened Wrappers

  type Origin = string

  /** What the cookie hash set compares: the cookie's name, domain and path. */
  datatype CookieIdentity = CookieIdentity(name: string, domain: string, path: string)

  datatype Cookie = Cookie(identity: CookieIdentity, value: string, secure: bool, httpOnly: bool)

  /** A cookie hash set: at most one cookie per identity. */
  type CookieSet = map<CookieIdentity, Cookie>

  const GlobalCookieSetUrl: Origin := "chrome://cookieset"

  /** `DeleteMatchingCookie`: erases the cookie's identity and says whether anything was erased. */
  function DeleteMatchingCookie(cookie: Cookie, s: CookieSet): (r: (CookieSet, bool))
    ensures r.1 <==> cookie.identity in s
    ensures r.0.Keys == s.Keys - {cookie.identity}
    ensures |r.0| == if r.1 then |s| - 1 else |s|
  {
    (s - {cookie.identity}, cookie.identity in s)
  }

  /** Erase, then insert: the set after `AddCookie` stores the cookie. */
  function InsertCookie(s: CookieSet, cookie: Cookie): (r: CookieSet)
    ensures r == s[cookie.identity := cookie]
  {
    DeleteMatchingCookie(cookie, s).0[cookie.identity := cookie]
  }

  // ---------------------------------------------------------------------
  // Counting
  // ---------------------------------------------------------------------

  /** One of the origins, chosen once and for all. */
  ghost function PickOrigin(origins: set<Origin>): (o: Origin)
    requires origins != {}
    ensures o in origins
  {
    var o :| o in origins; o
  }

  /** The total size of the sets of the given origins. */
  ghost function SumSizes(m: map<Origin, CookieSet>, origins: set<Origin>): nat
    requires origins <= m.Keys
    decreases origins
  {
    if origins == {} then 0
    else
      var o := PickOrigin(origins);
      |m[o]| + SumSizes(m, origins - {o})
  }

  /** The sum can be split at any origin, not just the chosen one. */
  lemma {:induction false} SumSizesRemove(m: map<Origin, CookieSet>, origins: set<Origin>, o: Origin)
    requires origins <= m.Keys && o in origins
    ensures SumSizes(m, origins) == |m[o]| + SumSizes(m, origins - {o})
    decreases origins
  {
    var p := PickOrigin(origins);
    if p != o {
      SumSizesRemove(m, origins - {p}, o);
      SumSizesRemove(m, origins - {o}, p);
      assert origins - {p} - {o} == origins - {o} - {p};
    }
  }

  /** The sizes of the given origins' sets are all zero exactly when their sum is. */
  lemma {:induction false} SumSizesZero(m: map<Origin, CookieSet>, origins: set<Origin>)
    requires origins <= m.Keys
    ensures SumSizes(m, origins) == 0 <==> forall o :: o in origins ==> m[o] == map[]
    decreases origins
  {
    if origins != {} {
      var o := PickOrigin(origins);
      SumSizesZero(m, origins - {o});
    }
  }

  /** Sums over maps that agree on the given origins' set sizes are equal. */
  lemma {:induction false} SumSizesSame(m: map<Origin, CookieSet>, n: map<Origin, CookieSet>, origins: set<Origin>)
    requires origins <= m.Keys && origins <= n.Keys
    requires forall o :: o in origins ==> |m[o]| == |n[o]|
    ensures SumSizes(m, origins) == SumSizes(n, origins)
    decreases origins
  {
    if origins != {} {
      var o := PickOrigin(origins);
      SumSizesSame(m, n, origins - {o});
    }
  }

  /** The number of cookies `GetCookieCount` reports: the sum of all set sizes. */
  ghost function CookieCount(m: map<Origin, CookieSet>): nat
  {
    SumSizes(m, m.Keys)
  }

  /** The global set, or an empty one before the first cookie is added. */
  function GlobalSet(m: map<Origin, CookieSet>): CookieSet
  {
    if GlobalCookieSetUrl in m then m[GlobalCookieSetUrl] else map[]
  }

  /** The state after `AddCookie`: the cookie is stored in the global set, which is created if missing. */
  function WithCookie(m: map<Origin, CookieSet>, cookie: Cookie): map<Origin, CookieSet>
  {
    m[GlobalCookieSetUrl := InsertCookie(GlobalSet(m), cookie)]
  }

  /** Adding the same cookie twice is the same as adding it once. */
  lemma WithCookieIdempotent(m: map<Origin, CookieSet>, cookie: Cookie)
    ensures WithCookie(WithCookie(m, cookie), cookie) == WithCookie(m, cookie)
  {
    var once := WithCookie(m, cookie);
    var g := InsertCookie(GlobalSet(m), cookie);
    assert GlobalSet(once) == g;
    assert InsertCookie(g, cookie) == g;
    StoreSameSet(once, GlobalCookieSetUrl);
  }

  /** Storing an origin's own set again changes nothing. */
  lemma StoreSameSet(m: map<Origin, CookieSet>, o: Origin)
    requires o in m
    ensures m[o := m[o]] == m
  {
  }

  /** Adding a cookie raises the count by one exactly when its identity is new to the global set. */
  lemma WithCookieCount(m: map<Origin, CookieSet>, cookie: Cookie)
    ensures CookieCount(WithCookie(m, cookie)) == CookieCount(m) + (if cookie.identity in GlobalSet(m) then 0 else 1)
  {
    var global := InsertCookie(GlobalSet(m), cookie);
    assert |global| == |GlobalSet(m)| + (if cookie.identity in GlobalSet(m) then 0 else 1);
    SumSizesUpdate(m, GlobalCookieSetUrl, global);
  }

  /** Replacing one origin's set changes the count by the difference in size. */
  lemma SumSizesUpdate(m: map<Origin, CookieSet>, o: Origin, s: CookieSet)
    ensures CookieCount(m[o := s]) + (if o in m then |m[o]| else 0) == CookieCount(m) + |s|
  {
    var after := m[o := s];
    var rest := m.Keys - {o};
    assert CookieCount(after) == |s| + SumSizes(after, rest) by {
      SumSizesRemove(after, after.Keys, o);
      assert after.Keys - {o} == rest;
    }
    assert SumSizes(after, rest) == SumSizes(m, rest) by {
      SumSizesElsewhere(m, o, s, rest);
    }
    if o in m {
      assert CookieCount(m) == |m[o]| + SumSizes(m, rest) by {
        SumSizesRemove(m, m.Keys, o);
      }
    } else {
      assert rest == m.Keys;
    }
  }

  /** The sets of other origins add up as before after one origin's set is replaced. */
  lemma {:induction false} SumSizesElsewhere(m: map<Origin, CookieSet>, o: Origin, s: CookieSet, origins: set<Origin>)
    requires origins <= m.Keys && o !in origins
    ensures SumSizes(m[o := s], origins) == SumSizes(m, origins)
    decreases origins
  {
    if origins != {} {
      var p := PickOrigin(origins);
      SumSizesElsewhere(m, o, s, origins - {p});
    }
  }

  /** The state after `AddReadCookies`: the cookies added one after another. */
  function WithCookies(m: map<Origin, CookieSet>, cookies: seq<Cookie>): map<Origin, CookieSet>
  {
    if cookies == [] then m else WithCookie(WithCookies(m, cookies[..|cookies| - 1]), cookies[|cookies| - 1])
  }

  /** After adding a list, the global set holds, for each identity in the list, the last cookie with it. */
  lemma {:induction false} WithCookiesLastWins(m: map<Origin, CookieSet>, cookies: seq<Cookie>, i: nat)
    requires i < |cookies|
    requires forall j :: i < j < |cookies| ==> cookies[j].identity != cookies[i].identity
    ensures cookies[i].identity in GlobalSet(WithCookies(m, cookies))
    ensures GlobalSet(WithCookies(m, cookies))[cookies[i].identity] == cookies[i]
  {
    var n := |cookies| - 1;
    var prefix := cookies[..n];
    var id := cookies[i].identity;
    var before := WithCookies(m, prefix);
    assert WithCookies(m, cookies) == WithCookie(before, cookies[n]);
    GlobalSetWithCookie(before, cookies[n], id);
    if i < n {
      assert forall j :: i < j < n ==> prefix[j] == cookies[j];
      assert prefix[i] == cookies[i];
      WithCookiesLastWins(m, prefix, i);
      assert GlobalSet(WithCookie(before, cookies[n]))[id] == GlobalSet(before)[id];
    }
  }

  /** `AddCookie` changes the global set only at the cookie's identity. */
  lemma GlobalSetWithCookie(m: map<Origin, CookieSet>, cookie: Cookie, id: CookieIdentity)
    ensures id in GlobalSet(WithCookie(m, cookie)) <==> id == cookie.identity || id in GlobalSet(m)
    ensures id in GlobalSet(WithCookie(m, cookie)) ==>
              GlobalSet(WithCookie(m, cookie))[id] == if id == cookie.identity then cookie else GlobalSet(m)[id]
  {
  }

  /** The state after `DeleteCookie`: the cookie's identity is erased from every set. */
  function WithoutCookie(m: map<Origin, CookieSet>, cookie: Cookie): (r: map<Origin, CookieSet>)
    ensures r.Keys == m.Keys
    ensures forall o :: o in r ==> cookie.identity !in r[o]
  {
    map o | o in m :: DeleteMatchingCookie(cookie, m[o]).0
  }

  /** The sets of `m` with the cookie erased from those of the origins in `done`. */
  function PartlyErased(m: map<Origin, CookieSet>, cookie: Cookie, done: set<Origin>): map<Origin, CookieSet>
  {
    map o | o in m :: if o in done then DeleteMatchingCookie(cookie, m[o]).0 else m[o]
  }

  lemma PartlyErasedStep(m: map<Origin, CookieSet>, cookie: Cookie, done: set<Origin>, o: Origin)
    requires o in m && o !in done
    ensures o in PartlyErased(m, cookie, done) && PartlyErased(m, cookie, done)[o] == m[o]
    ensures PartlyErased(m, cookie, done + {o}) ==
            PartlyErased(m, cookie, done)[o := DeleteMatchingCookie(cookie, m[o]).0]
  {
  }

  lemma PartlyErasedAll(m: map<Origin, CookieSet>, cookie: Cookie)
    ensures PartlyErased(m, cookie, m.Keys) == WithoutCookie(m, cookie)
  {
  }

  /** Deleting a cookie that was just added removes it from the global set again, leaving the other sets alone. */
  lemma DeleteAfterAdd(m: map<Origin, CookieSet>, cookie: Cookie)
    requires GlobalCookieSetUrl in m && cookie.identity !in m[GlobalCookieSetUrl]
    ensures WithoutCookie(WithCookie(m, cookie), cookie)[GlobalCookieSetUrl] == m[GlobalCookieSetUrl]
  {
    var g := GlobalCookieSetUrl;
    assert WithoutCookie(WithCookie(m, cookie), cookie)[g] == (m[g][cookie.identity := cookie]) - {cookie.identity};
  }

  class CannedCookieHelper {
    /** `origin_cookie_set_map_`. */
    var originCookieSets: map<Origin, CookieSet>

    constructor ()
      ensures originCookieSets == map[]
    {
      originCookieSets := map[];
    }

    /** The set of an origin, created empty on first use and returned unchanged later. */
    method GetCookiesFor(firstPartyOrigin: Origin) returns (cookies: CookieSet)
      modifies this
      ensures firstPartyOrigin in old(originCookieSets) ==>
                cookies == old(originCookieSets)[firstPartyOrigin] && originCookieSets == old(originCookieSets)
      ensures firstPartyOrigin !in old(originCookieSets) ==>
                cookies == map[] && originCookieSets == old(originCookieSets)[firstPartyOrigin := map[]]
      ensures firstPartyOrigin in originCookieSets && originCookieSets[firstPartyOrigin] == cookies
    {
      if firstPartyOrigin !in originCookieSets {
        originCookieSets := originCookieSets[firstPartyOrigin := map[]];
        return map[];
      }
      return originCookieSets[firstPartyOrigin];
    }

    /** Stores the cookie in the global set, replacing the one with its identity. */
    method AddCookie(frameUrl: Origin, cookie: Cookie)
      modifies this
      ensures originCookieSets == WithCookie(old(originCookieSets), cookie)
    {
      var cookieSet := GetCookiesFor(GlobalCookieSetUrl);
      cookieSet := DeleteMatchingCookie(cookie, cookieSet).0;
      originCookieSets := originCookieSets[GlobalCookieSetUrl := cookieSet[cookie.identity := cookie]];
    }

    /** Adds every cookie of a read, in order. */
    method AddReadCookies(frameUrl: Origin, url: Origin, cookies: seq<Cookie>)
      modifies this
      ensures originCookieSets == WithCookies(old(originCookieSets), cookies)
    {
      for i := 0 to |cookies|
        invariant originCookieSets == WithCookies(old(originCookieSets), cookies[..i])
      {
        assert cookies[..i + 1][..i] == cookies[..i];
        AddCookie(frameUrl, cookies[i]);
      }
      assert cookies[..|cookies|] == cookies;
    }

    /** Adds a changed cookie when its cookie line parsed. */
    method AddChangedCookie(frameUrl: Origin, url: Origin, parsed: Option<Cookie>)
      modifies this
      ensures parsed.None? ==> originCookieSets == old(originCookieSets)
      ensures parsed.Some? ==> originCookieSets == WithCookie(old(originCookieSets), parsed.value)
    {
      if parsed.Some? {
        AddCookie(frameUrl, parsed.value);
      }
    }

    method Reset()
      modifies this
      ensures originCookieSets == map[]
    {
      originCookieSets := map[];
    }

    /** `empty()`: every set is empty, which is the same as a count of zero. */
    method Empty() returns (isEmpty: bool)
      ensures isEmpty <==> forall o :: o in originCookieSets ==> originCookieSets[o] == map[]
      ensures isEmpty <==> CookieCount(originCookieSets) == 0
    {
      var remaining := originCookieSets.Keys;
      while remaining != {}
        invariant remaining <= originCookieSets.Keys
        invariant forall o :: o in originCookieSets && o !in remaining ==> originCookieSets[o] == map[]
        decreases remaining
      {
        var o :| o in remaining;
        if originCookieSets[o] != map[] {
          SumSizesZero(originCookieSets, originCookieSets.Keys);
          return false;
        }
        remaining := remaining - {o};
      }
      SumSizesZero(originCookieSets, originCookieSets.Keys);
      return true;
    }

    /** `GetCookieCount`: adds up the sizes of all sets. */
    method GetCookieCount() returns (count: nat)
      ensures count == CookieCount(originCookieSets)
    {
      count := 0;
      var remaining := originCookieSets.Keys;
      while remaining != {}
        invariant remaining <= originCookieSets.Keys
        invariant count + SumSizes(originCookieSets, remaining) == CookieCount(originCookieSets)
        decreases remaining
      {
        var o :| o in remaining;
        SumSizesRemove(originCookieSets, remaining, o);
        count := count + |originCookieSets[o]|;
        remaining := remaining - {o};
      }
    }

    /** The canned `StartFetching`: the list handed to the callback holds the cookies of all sets. */
    method StartFetching() returns (cookieList: seq<Cookie>)
      ensures forall c :: c in cookieList <==> exists o :: o in originCookieSets && c in originCookieSets[o].Values
      ensures |cookieList| == CookieCount(originCookieSets)
    {
      cookieList := [];
      var remaining := originCookieSets.Keys;
      while remaining != {}
        invariant remaining <= originCookieSets.Keys
        invariant |cookieList| + SumSizes(originCookieSets, remaining) == CookieCount(originCookieSets)
        invariant forall c :: c in cookieList <==>
                    exists o :: o in originCookieSets && o !in remaining && c in originCookieSets[o].Values
        decreases remaining
      {
        var o :| o in remaining;
        SumSizesRemove(originCookieSets, remaining, o);
        var cookies := CookiesOf(originCookieSets[o]);
        cookieList := cookies + cookieList;
        remaining := remaining - {o};
      }
    }

    /** Erases the cookie's identity from every set. */
    method DeleteCookie(cookie: Cookie)
      modifies this
      ensures originCookieSets == WithoutCookie(old(originCookieSets), cookie)
    {
      var remaining := originCookieSets.Keys;
      ghost var before := originCookieSets;
      while remaining != {}
        invariant remaining <= before.Keys
        invariant originCookieSets == PartlyErased(before, cookie, before.Keys - remaining)
        decreases remaining
      {
        var o :| o in remaining;
        PartlyErasedStep(before, cookie, before.Keys - remaining, o);
        assert before.Keys - (remaining - {o}) == (before.Keys - remaining) + {o};
        var erased := DeleteMatchingCookie(cookie, originCookieSets[o]);
        originCookieSets := originCookieSets[o := erased.0];
        remaining := remaining - {o};
      }
      assert before.Keys - remaining == before.Keys;
      PartlyErasedAll(before, cookie);
    }

    /** A new helper whose sets equal this one's, built set by set. */
    method Clone() returns (clone: CannedCookieHelper)
      ensures fresh(clone)
      ensures clone.originCookieSets == originCookieSets
    {
      clone := new CannedCookieHelper();
      var remaining := originCookieSets.Keys;
      while remaining != {}
        invariant remaining <= originCookieSets.Keys
        invariant clone.originCookieSets == map o | o in originCookieSets && o !in remaining :: originCookieSets[o]
        decreases remaining
      {
        var o :| o in remaining;
        assert o !in clone.originCookieSets;
        var cookies := clone.GetCookiesFor(o);
        assert cookies + originCookieSets[o] == originCookieSets[o];
        clone.originCookieSets := clone.originCookieSets[o := cookies + originCookieSets[o]];
        remaining := remaining - {o};
      }
    }
  }

  /** The cookies of one set, in some order, each once. */
  method CookiesOf(s: CookieSet) returns (cookies: seq<Cookie>)
    ensures |cookies| == |s|
    ensures forall c :: c in cookies <==> c in s.Values
  {
    cookies := [];
    var remaining := s.Keys;
    while remaining != {}
      invariant remaining <= s.Keys
      invariant |cookies| + |remaining| == |s|
      invariant forall c :: c in cookies <==> exists id :: id in s && id !in remaining && s[id] == c
      decreases remaining
    {
      var id :| id in remaining;
      cookies := cookies + [s[id]];
      remaining := remaining - {id};
    }
  }
}
