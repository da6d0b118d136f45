/**
 * How the two halves of visitor identity fit together: the cookie the browser provisions
 * (frontend/components/common/VisitorIdProvider.tsx) and the id the backend reads from the
 * `Cookie` header (backend/src/utils/visitor.ts).
 */
module VisitorIdentity {
  import opened Wrappers
  import opened Text
  import opened VisitTracking
  import opened VisitorCookie

  /** On a first visit the browser's only cookie is the new id, and the backend reads exactly that id. */
  lemma ProvisionedIdReachesBackend(id: string, ip: string)
    requires id != [] && ';' !in id
    ensures GetVisitorId(Some(AddToJar("", CookieName, id)), ip) == id
  {
    assert AddToJar("", CookieName, id) == VisitorCookieKey + (id + []);
    VisitorIdFromCookie(id, [], ip);
  }

  /**
   * `my_snuggle_visitor_id=a; snuggle_visitor_id=b`: a first cookie whose name merely ends in
   * `snuggle_visitor_id`, followed by the real visitor cookie.
   */
  const SuffixedHeader := "my_" + VisitorCookieKey + "a; " + VisitorCookieKey + "b"

  /** The backend's pattern is not anchored to a cookie boundary: it reads the first cookie's value. */
  lemma BackendReadsSuffixedName()
    ensures GetVisitorId(Some(SuffixedHeader), "ip") == "a"
  {
    var header, key := SuffixedHeader, VisitorCookieKey;
    assert |header| == 45 && header[3..22] == key && header[22] == 'a' && header[23] == ';';
    assert MatchAt(header, key, 3, false);
    assert forall k: nat :: k < 3 ==> header[k] != key[0];
    assert FirstMatch(header, key, 0, false) == Some(3);
    assert ValueRun(header, 23) == [];
    assert ValueRun(header, 22) == "a";
  }

  /** No cookie boundary comes before position 25 of the header except its start. */
  lemma NoEarlyBoundaryMatch()
    ensures forall k: nat :: k < 25 ==> !MatchAt(SuffixedHeader, VisitorCookieKey, k, true)
  {
    var header, key := SuffixedHeader, VisitorCookieKey;
    assert header[0] != key[0];
    assert forall i :: 0 <= i < 24 ==> header[i] != ' ';
  }

  /** The browser's pattern is anchored: it reads the real visitor cookie, so the two ends disagree. */
  lemma BrowserReadsBoundaryName()
    ensures GetCookie(Some(SuffixedHeader), CookieName) == Some("b")
    ensures GetCookie(Some(SuffixedHeader), CookieName) != Some(GetVisitorId(Some(SuffixedHeader), "ip"))
  {
    var header, key := SuffixedHeader, VisitorCookieKey;
    assert CookieName + "=" == key;
    assert |header| == 45 && header[25..44] == key && header[44] == 'b' && header[24] == ' ';
    assert MatchAt(header, key, 25, true);
    NoEarlyBoundaryMatch();
    assert FirstMatch(header, key, 0, true) == Some(25);
    assert ValueRun(header, 45) == [];
    assert ValueRun(header, 44) == "b";
    BackendReadsSuffixedName();
  }
}
