/**
 * The backend's visit counter (backend/src/utils/visitor.ts): who the visitor is, and the
 * once-per-day dedup in the cache that feeds the per-blog pending counter.
 *
 * The cache is two maps: log keys (`visit:log:<blog>:<visitor>:<day>`, value and TTL) and
 * pending counters (`visit:pending:<blog>`). The two namespaces never share a key
 * (LogAndPendingKeysDiffer). The current day is a parameter, and which cache call throws, if
 * any, is a parameter too, since the try/catch turns every such failure into a logged no-op.
 */
module VisitTracking {
  import opened Wrappers
  import opened Text

  const VisitKeyPrefix := "visit:log"
  const PendingKeyPrefix := "visit:pending"
  /** Lifetime of a log key, in seconds (24 hours). */
  const VisitTtlSeconds := 86400
  /** The text `snuggle_visitor_id=([^;]+)` looks for before the captured id. */
  const VisitorCookieKey := "snuggle_visitor_id="

  // ----- Identity -----

  /**
   * `getVisitorId(cookies, ip)`: with a (non-empty) cookie header holding a match of
   * `snuggle_visitor_id=([^;]+)`, the captured run after the leftmost match; otherwise `ip`.
   */
  function GetVisitorId(cookies: Option<string>, ip: string): (id: string)
    ensures cookies.None? || FirstMatch(cookies.value, VisitorCookieKey, 0, false).None? ==> id == ip
    ensures cookies.Some? && FirstMatch(cookies.value, VisitorCookieKey, 0, false).Some? ==>
      id != [] && ';' !in id &&
      id == ValueRun(cookies.value, FirstMatch(cookies.value, VisitorCookieKey, 0, false).value + |VisitorCookieKey|)
    ensures ip != [] ==> id != []
  {
    if cookies.Some? && cookies.value != [] then
      match FirstMatch(cookies.value, VisitorCookieKey, 0, false)
      case Some(k) => ValueRun(cookies.value, k + |VisitorCookieKey|)
      case None => ip
    else ip
  }

  /** A cookie header that opens with the visitor cookie yields its token. */
  lemma VisitorIdFromCookie(token: string, rest: string, ip: string)
    requires token != [] && ';' !in token
    requires rest == [] || rest[0] == ';'
    ensures GetVisitorId(Some(VisitorCookieKey + (token + rest)), ip) == token
  {
    var s := VisitorCookieKey + (token + rest);
    assert s[..|VisitorCookieKey|] == VisitorCookieKey;
    assert s[|VisitorCookieKey|] == token[0];
    assert MatchAt(s, VisitorCookieKey, 0, false);
    assert FirstMatch(s, VisitorCookieKey, 0, false) == Some(0);
    ValueRunShift(VisitorCookieKey, token + rest);
    ValueRunOfSemicolonFree(token, rest);
    assert ValueRun(s, |VisitorCookieKey|) == token;
    assert GetVisitorId(Some(s), ip) == ValueRun(s, 0 + |VisitorCookieKey|);
  }

  // ----- The cache -----

  /** `visit:log:<blogId>:<visitorId>:<today>`. */
  function LogKey(blogId: string, visitorId: string, today: string): string {
    VisitKeyPrefix + ":" + blogId + ":" + visitorId + ":" + today
  }

  /** `visit:pending:<blogId>`. */
  function PendingKey(blogId: string): string {
    PendingKeyPrefix + ":" + blogId
  }

  /** A cached string value and the expiry (in seconds) it was written with. */
  datatype Entry = Entry(value: string, ttlSeconds: nat)

  datatype CacheState = CacheState(logs: map<string, Entry>, pending: map<string, int>)

  /** Which cache call rejects, if any. */
  datatype Fault = NoFault | GetFails | SetFails | IncrFails

  /** The counter for `blogId`; `INCR` treats a missing key as 0. */
  function PendingCount(pending: map<string, int>, blogId: string): int {
    if PendingKey(blogId) in pending then pending[PendingKey(blogId)] else 0
  }

  /** `hasVisited` is truthy: the key exists and its value is not the empty string. */
  predicate HasVisited(logs: map<string, Entry>, key: string) {
    key in logs && logs[key].value != ""
  }

  /** Every log entry is what TrackVisitor writes: the sentinel `"1"` with a 24-hour TTL. */
  predicate WellFormed(s: CacheState) {
    forall k :: k in s.logs ==> s.logs[k] == Entry("1", VisitTtlSeconds)
  }

  /**
   * The effect of one `trackVisitor(blogId, visitorId)` on day `today`. A visitor not yet seen
   * today gets the log key (value `"1"`, TTL 86400), then the blog's counter goes up by one; a
   * visitor already seen changes nothing. A rejected call ends the attempt where it stands.
   */
  function Track(s: CacheState, blogId: string, visitorId: string, today: string, fault: Fault): (r: CacheState)
    // first visit of the day, no failure: logged, and counted exactly once
    ensures fault == NoFault && !HasVisited(s.logs, LogKey(blogId, visitorId, today)) ==>
      r.logs == s.logs[LogKey(blogId, visitorId, today) := Entry("1", VisitTtlSeconds)] &&
      PendingCount(r.pending, blogId) == PendingCount(s.pending, blogId) + 1
    // already seen today: nothing at all changes
    ensures HasVisited(s.logs, LogKey(blogId, visitorId, today)) ==> r == s
    // no other log key and no other blog's counter is touched
    ensures forall k :: k != LogKey(blogId, visitorId, today) ==> (k in r.logs <==> k in s.logs)
    ensures forall k :: k != LogKey(blogId, visitorId, today) && k in s.logs ==> r.logs[k] == s.logs[k]
    ensures forall b :: b != blogId ==> PendingCount(r.pending, b) == PendingCount(s.pending, b)
    ensures forall k :: k != PendingKey(blogId) ==> (k in r.pending <==> k in s.pending)
    ensures forall k :: k != PendingKey(blogId) && k in s.pending ==> r.pending[k] == s.pending[k]
    // write order: the counter only moves once the key is in place, so a failure undercounts
    ensures PendingCount(r.pending, blogId) != PendingCount(s.pending, blogId) ==>
      PendingCount(r.pending, blogId) == PendingCount(s.pending, blogId) + 1 &&
      !HasVisited(s.logs, LogKey(blogId, visitorId, today)) && HasVisited(r.logs, LogKey(blogId, visitorId, today))
    ensures fault == IncrFails ==> r.pending == s.pending
    ensures fault == IncrFails && !HasVisited(s.logs, LogKey(blogId, visitorId, today)) ==>
      r.logs == s.logs[LogKey(blogId, visitorId, today) := Entry("1", VisitTtlSeconds)]
    ensures fault == GetFails || fault == SetFails ==> r == s
    ensures WellFormed(s) ==> WellFormed(r)
  {
    var key := LogKey(blogId, visitorId, today);
    if fault == GetFails || HasVisited(s.logs, key) || fault == SetFails then s
    else
      var logged := s.(logs := s.logs[key := Entry("1", VisitTtlSeconds)]);
      if fault == IncrFails then logged
      else
        PendingKeysDiffer(blogId);
        logged.(pending := s.pending[PendingKey(blogId) := PendingCount(s.pending, blogId) + 1])
  }

  /** Distinct blogs have distinct counters. */
  lemma PendingKeysDiffer(blogId: string)
    ensures forall b :: b != blogId ==> PendingKey(b) != PendingKey(blogId)
  {
    forall b | b != blogId ensures PendingKey(b) != PendingKey(blogId) {
      if PendingKey(b) == PendingKey(blogId) {
        PendingKeyInjective(b, blogId);
      }
    }
  }

  lemma PendingKeyInjective(b1: string, b2: string)
    requires PendingKey(b1) == PendingKey(b2)
    ensures b1 == b2
  {
    var n := |PendingKeyPrefix + ":"|;
    assert PendingKey(b1) == (PendingKeyPrefix + ":") + b1;
    assert PendingKey(b2) == (PendingKeyPrefix + ":") + b2;
    assert b1 == PendingKey(b1)[n..];
    assert b2 == PendingKey(b2)[n..];
  }

  /** The two namespaces share no key, so the log store and the counters can be separate maps. */
  lemma LogAndPendingKeysDiffer(blogId: string, visitorId: string, today: string, other: string)
    ensures LogKey(blogId, visitorId, today) != PendingKey(other)
  {
    assert LogKey(blogId, visitorId, today)[6] == 'l';
    assert PendingKey(other)[6] == 'p';
  }

  /** Another day is another key: the same visitor of the same blog is counted afresh. */
  lemma LogKeyDiffersByDay(blogId: string, visitorId: string, day1: string, day2: string)
    requires day1 != day2
    ensures LogKey(blogId, visitorId, day1) != LogKey(blogId, visitorId, day2)
  {
    var p := VisitKeyPrefix + ":" + blogId + ":" + visitorId + ":";
    assert LogKey(blogId, visitorId, day1) == p + day1;
    assert LogKey(blogId, visitorId, day2) == p + day2;
    assert (p + day1)[|p|..] == day1;
    assert (p + day2)[|p|..] == day2;
  }

  /** Two visitors of the same blog on the same day have different keys. */
  lemma LogKeyDiffersByVisitor(blogId: string, visitor1: string, visitor2: string, today: string)
    requires visitor1 != visitor2
    ensures LogKey(blogId, visitor1, today) != LogKey(blogId, visitor2, today)
  {
    var p := VisitKeyPrefix + ":" + blogId + ":";
    var q := ":" + today;
    assert LogKey(blogId, visitor1, today) == p + visitor1 + q;
    assert LogKey(blogId, visitor2, today) == p + visitor2 + q;
    assert (p + visitor1 + q)[|p|..|p| + |visitor1|] == visitor1;
    assert (p + visitor2 + q)[|p|..|p| + |visitor2|] == visitor2;
    assert |p + visitor1 + q| - |visitor1| == |p + visitor2 + q| - |visitor2|;
  }

  /** `n` fault-free calls of trackVisitor with the same arguments. */
  function TrackTimes(s: CacheState, blogId: string, visitorId: string, today: string, n: nat): CacheState
    decreases n
  {
    if n == 0 then s else TrackTimes(Track(s, blogId, visitorId, today, NoFault), blogId, visitorId, today, n - 1)
  }

  /** Once a visitor is logged for the day, further calls are no-ops. */
  lemma {:induction false} TrackTimesIdle(s: CacheState, blogId: string, visitorId: string, today: string, n: nat)
    requires HasVisited(s.logs, LogKey(blogId, visitorId, today))
    ensures TrackTimes(s, blogId, visitorId, today, n) == s
  {
    if n > 0 {
      TrackTimesIdle(s, blogId, visitorId, today, n - 1);
    }
  }

  /** Any number (at least one) of same-day visits raises the blog's counter by at most one in total. */
  lemma RepeatedVisitsCountOnce(s: CacheState, blogId: string, visitorId: string, today: string, n: nat)
    requires n >= 1
    ensures PendingCount(TrackTimes(s, blogId, visitorId, today, n).pending, blogId)
         == PendingCount(s.pending, blogId) + (if HasVisited(s.logs, LogKey(blogId, visitorId, today)) then 0 else 1)
    ensures HasVisited(TrackTimes(s, blogId, visitorId, today, n).logs, LogKey(blogId, visitorId, today))
  {
    var first := Track(s, blogId, visitorId, today, NoFault);
    assert HasVisited(first.logs, LogKey(blogId, visitorId, today));
    TrackTimesIdle(first, blogId, visitorId, today, n - 1);
  }

  /** The same visitor on two different days is counted on each. */
  lemma NewDayCountsAgain(s: CacheState, blogId: string, visitorId: string, day1: string, day2: string)
    requires day1 != day2
    requires !HasVisited(s.logs, LogKey(blogId, visitorId, day1))
    requires !HasVisited(s.logs, LogKey(blogId, visitorId, day2))
    ensures PendingCount(Track(Track(s, blogId, visitorId, day1, NoFault), blogId, visitorId, day2, NoFault).pending, blogId)
         == PendingCount(s.pending, blogId) + 2
  {
    LogKeyDiffersByDay(blogId, visitorId, day1, day2);
  }

  /** Two different visitors of one blog on one day add two. */
  lemma TwoVisitorsCountTwice(s: CacheState, blogId: string, visitor1: string, visitor2: string, today: string)
    requires visitor1 != visitor2
    requires !HasVisited(s.logs, LogKey(blogId, visitor1, today))
    requires !HasVisited(s.logs, LogKey(blogId, visitor2, today))
    ensures PendingCount(Track(Track(s, blogId, visitor1, today, NoFault), blogId, visitor2, today, NoFault).pending, blogId)
         == PendingCount(s.pending, blogId) + 2
  {
    LogKeyDiffersByVisitor(blogId, visitor1, visitor2, today);
  }

  /**
   * `SET key "1" EX 86400 NX`: an atomic claim, which reports whether it created the key. It
   * only looks at presence, not at the stored value.
   */
  function Claim(logs: map<string, Entry>, key: string): (bool, map<string, Entry>) {
    if key in logs then (false, logs) else (true, logs[key := Entry("1", VisitTtlSeconds)])
  }

  /** A variant built on one atomic claim: count only when the claim created the key. */
  function TrackWithClaim(s: CacheState, blogId: string, visitorId: string, today: string): CacheState {
    var (created, logs) := Claim(s.logs, LogKey(blogId, visitorId, today));
    if created then CacheState(logs, s.pending[PendingKey(blogId) := PendingCount(s.pending, blogId) + 1])
    else s.(logs := logs)
  }

  /** On a cache holding only entries trackVisitor wrote, get-then-set is the same as one claim. */
  lemma SequentialTrackIsClaim(s: CacheState, blogId: string, visitorId: string, today: string)
    requires WellFormed(s)
    ensures Track(s, blogId, visitorId, today, NoFault) == TrackWithClaim(s, blogId, visitorId, today)
  {
  }

  /** The Redis instance, as far as trackVisitor uses it: string keys with a TTL, and counters. */
  class VisitCache {
    var logs: map<string, Entry>
    var pending: map<string, int>

    function State(): CacheState
      reads this
    {
      CacheState(logs, pending)
    }

    constructor ()
      ensures State() == CacheState(map[], map[])
      ensures WellFormed(State())
    {
      logs := map[];
      pending := map[];
    }

    /** `GET key`. */
    method Get(key: string) returns (value: Option<string>)
      ensures value.Some? <==> key in logs
      ensures value.Some? ==> value.value == logs[key].value
    {
      value := if key in logs then Some(logs[key].value) else None;
    }

    /** `SET key value EX seconds`. */
    method SetEx(key: string, value: string, seconds: nat)
      modifies this
      ensures logs == old(logs)[key := Entry(value, seconds)]
      ensures pending == old(pending)
    {
      logs := logs[key := Entry(value, seconds)];
    }

    /** `INCR key`: a missing counter starts from 0. */
    method Incr(key: string) returns (n: int)
      modifies this
      ensures n == (if key in old(pending) then old(pending)[key] else 0) + 1
      ensures pending == old(pending)[key := n]
      ensures logs == old(logs)
    {
      n := (if key in pending then pending[key] else 0) + 1;
      pending := pending[key := n];
    }

    /**
     * `trackVisitor(blogId, visitorId)` on day `today`, where `fault` names the cache call that
     * rejects (caught and logged, never rethrown).
     */
    method TrackVisitor(blogId: string, visitorId: string, today: string, fault: Fault)
      modifies this
      ensures State() == Track(old(State()), blogId, visitorId, today, fault)
    {
      var logKey := LogKey(blogId, visitorId, today);
      if fault == GetFails {
        return;
      }
      var hasVisited := Get(logKey);
      if hasVisited.None? || hasVisited.value == "" {
        if fault == SetFails {
          return;
        }
        SetEx(logKey, "1", VisitTtlSeconds);
        if fault == IncrFails {
          return;
        }
        var _ := Incr(PendingKey(blogId));
      }
    }
  }
}
