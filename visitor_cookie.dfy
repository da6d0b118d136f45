/**
 * The client half of visitor identity (frontend/components/common/VisitorIdProvider.tsx):
 * reading a cookie, the `Set-Cookie`-style string written to `document.cookie`, and the
 * effect that provisions a visitor id when the browser has none.
 */
module VisitorCookie {
  import opened Wrappers
  import opened Text
  import opened Decimal

  const CookieName := "snuggle_visitor_id"
  /** One year, in seconds. */
  const CookieMaxAge: nat := 60 * 60 * 24 * 365

  /**
   * `getCookie(name)`: no document gives null; otherwise the match of `(^| )name=([^;]+)`
   * against `document.cookie`, i.e. the `;`-free value after the leftmost `name=` that opens the
   * string or follows a space.
   */
  function GetCookie(document: Option<string>, name: string): (r: Option<string>)
    ensures document.None? ==> r.None?
    ensures r.Some? ==> r.value != [] && ';' !in r.value
    ensures document.Some? ==> (r.Some? <==> exists k: nat :: MatchAt(document.value, name + "=", k, true))
    ensures r.Some? ==>
      document.Some? && FirstMatch(document.value, name + "=", 0, true).Some? &&
      r.value == ValueRun(document.value, FirstMatch(document.value, name + "=", 0, true).value + |name| + 1)
  {
    if document.None? then None
    else match FirstMatch(document.value, name + "=", 0, true)
      case Some(k) => Some(ValueRun(document.value, k + |name + "="|))
      case None => None
  }

  /** The SameSite attribute: relaxed to `Lax` only when the page is served from `localhost`. */
  function SameSite(hostname: Option<string>): (r: string)
    ensures r == "Lax" <==> hostname == Some("localhost")
    ensures r != "Lax" ==> r == "None; Secure"
  {
    if hostname == Some("localhost") then "Lax" else "None; Secure"
  }

  /** The string `setCookie` assigns to `document.cookie`. */
  function SetCookieString(name: string, value: string, maxAge: nat, hostname: Option<string>): string {
    name + "=" + value + "; max-age=" + NatToString(maxAge) + "; path=/; SameSite=" + SameSite(hostname)
  }

  /** `name=value` followed by the end of the text or a `;` is read back as `value`. */
  lemma GetCookieRoundTrip(name: string, value: string, rest: string)
    requires value != [] && ';' !in value
    requires rest == [] || rest[0] == ';'
    ensures GetCookie(Some(name + "=" + value + rest), name) == Some(value)
  {
    var key := name + "=";
    var s := key + (value + rest);
    assert name + "=" + value + rest == s;
    assert s[..|key|] == key;
    assert s[|key|] == value[0];
    assert MatchAt(s, key, 0, true);
    assert FirstMatch(s, key, 0, true) == Some(0);
    ValueRunShift(key, value + rest);
    ValueRunOfSemicolonFree(value, rest);
    assert ValueRun(s, |key|) == value;
    assert GetCookie(Some(s), name) == Some(ValueRun(s, 0 + |key|));
  }

  /** The cookie string setCookie writes starts with `name=value;`, so getCookie reads the value back from it. */
  lemma SetCookieStringRoundTrip(name: string, value: string, maxAge: nat, hostname: Option<string>)
    requires value != [] && ';' !in value
    ensures GetCookie(Some(SetCookieString(name, value, maxAge, hostname)), name) == Some(value)
  {
    var rest := "; max-age=" + NatToString(maxAge) + "; path=/; SameSite=" + SameSite(hostname);
    assert SetCookieString(name, value, maxAge, hostname) == name + "=" + value + rest;
    GetCookieRoundTrip(name, value, rest);
  }

  /** What `document.cookie` reads as once the browser has stored a new `name=value`. */
  function AddToJar(jar: string, name: string, value: string): string {
    if jar == "" then name + "=" + value else jar + "; " + name + "=" + value
  }

  /** After one provisioning, the visitor cookie is found: a second run writes nothing. */
  lemma ProvisionedCookieIsFound(jar: string, id: string)
    requires id != [] && ';' !in id
    ensures GetCookie(Some(AddToJar(jar, CookieName, id)), CookieName).Some?
  {
    var key := CookieName + "=";
    var s := AddToJar(jar, CookieName, id);
    var k: nat := if jar == "" then 0 else |jar| + 2;
    if jar == "" {
      assert s == key + id;
    } else {
      assert s == (jar + "; ") + key + id;
      assert s[k - 1] == ' ';
    }
    assert s[k..k + |key|] == key;
    assert s[k + |key|] == id[0];
    assert MatchAt(s, key, k, true);
  }

  /** The browser's `document` as far as the provider uses it. */
  class Document {
    /** What reading `document.cookie` returns: `k1=v1; k2=v2`. */
    var cookie: string
    /** The strings assigned to `document.cookie`, oldest first. */
    var assignments: seq<string>

    constructor (cookie: string)
      ensures this.cookie == cookie && assignments == []
    {
      this.cookie := cookie;
      assignments := [];
    }

    /** `setCookie(name, value, maxAge)` on a page whose host is `hostname` (None without `window`). */
    method SetCookie(name: string, value: string, maxAge: nat, hostname: Option<string>)
      modifies this
      ensures assignments == old(assignments) + [SetCookieString(name, value, maxAge, hostname)]
      ensures cookie == AddToJar(old(cookie), name, value)
    {
      assignments := assignments + [SetCookieString(name, value, maxAge, hostname)];
      cookie := AddToJar(cookie, name, value);
    }

    /**
     * The provider's mount effect: with no visitor cookie, store `newId` (a fresh random UUID) for
     * a year; with one, write nothing.
     */
    method ProvisionVisitorId(newId: string, hostname: Option<string>)
      modifies this
      ensures GetCookie(Some(old(cookie)), CookieName).Some? ==>
        assignments == old(assignments) && cookie == old(cookie)
      ensures GetCookie(Some(old(cookie)), CookieName).None? ==>
        assignments == old(assignments) + [SetCookieString(CookieName, newId, CookieMaxAge, hostname)] &&
        cookie == AddToJar(old(cookie), CookieName, newId)
    {
      var existingId := GetCookie(Some(cookie), CookieName);
      if existingId.None? || existingId.value == "" {
        SetCookie(CookieName, newId, CookieMaxAge, hostname);
      }
    }
  }
}
