/** The catalogue queries of services/monastery.ts, as functions of the
    catalogue they read (the source reads a constant mock array). The
    simulated latency is nothing, and `Date.now()` is the parameter `now`.
    Case folding is ASCII-only. */
module Catalogue {
  import opened Wrappers
  import opened Types
  import Decimal

  // ---------------------------------------------------------------------
  // Lookup by id: the first catalogue entry whose id equals the one asked
  // for, or null when there is none.

  /** The position of the first monastery with this id, or `|ms|` if none. */
  function FirstIndex(ms: seq<Monastery>, id: string): (k: nat)
    ensures k <= |ms|
    ensures forall j :: 0 <= j < k ==> ms[j].id != id
    ensures k < |ms| ==> ms[k].id == id
  {
    if |ms| == 0 then 0
    else if ms[0].id == id then 0
    else 1 + FirstIndex(ms[1..], id)
  }

  function GetMonasteryById(ms: seq<Monastery>, id: string): (r: Option<Monastery>)
    ensures r.None? <==> forall j :: 0 <= j < |ms| ==> ms[j].id != id
    ensures forall k :: 0 <= k < |ms| && ms[k].id == id && (forall j :: 0 <= j < k ==> ms[j].id != id)
                        ==> r == Some(ms[k])
  {
    var k := FirstIndex(ms, id);
    if k < |ms| then Some(ms[k]) else None
  }

  /** The attractions of the first monastery with this id, or an empty list
      when there is none. The source falls back to the empty list only when
      the lookup fails, since an empty JavaScript array is truthy, so a known
      monastery yields its own list, empty or not. */
  function GetNearbyAttractions(ms: seq<Monastery>, id: string): (r: seq<Attraction>)
    ensures (forall j :: 0 <= j < |ms| ==> ms[j].id != id) ==> r == []
    ensures forall k :: 0 <= k < |ms| && ms[k].id == id && (forall j :: 0 <= j < k ==> ms[j].id != id)
                        ==> r == ms[k].nearbyAttractions
  {
    match GetMonasteryById(ms, id)
    case Some(m) => m.nearbyAttractions
    case None => []
  }

  // ---------------------------------------------------------------------
  // ASCII case folding and `String.prototype.includes`

  function LowerChar(c: char): char {
    if 'A' <= c <= 'Z' then (c as int + 32) as char else c
  }

  function UpperChar(c: char): char {
    if 'a' <= c <= 'z' then (c as int - 32) as char else c
  }

  function ToLower(s: string): (r: string)
    ensures |r| == |s|
    ensures forall i :: 0 <= i < |s| ==> r[i] == LowerChar(s[i])
  {
    if s == [] then [] else [LowerChar(s[0])] + ToLower(s[1..])
  }

  function ToUpper(s: string): (r: string)
    ensures |r| == |s|
    ensures forall i :: 0 <= i < |s| ==> r[i] == UpperChar(s[i])
  {
    if s == [] then [] else [UpperChar(s[0])] + ToUpper(s[1..])
  }

  lemma LowerIdempotent(s: string)
    ensures ToLower(ToLower(s)) == ToLower(s)
  {
  }

  lemma LowerOfUpper(s: string)
    ensures ToLower(ToUpper(s)) == ToLower(s)
  {
  }

  lemma LowerConcat(s: string, t: string)
    ensures ToLower(s + t) == ToLower(s) + ToLower(t)
  {
  }

  predicate OccursAt(s: string, t: string, i: int) {
    0 <= i && i + |t| <= |s| && s[i..i + |t|] == t
  }

  lemma OccursShift(s: string, t: string, i: int)
    requires |s| > 0 && i >= 0
    ensures OccursAt(s[1..], t, i) <==> OccursAt(s, t, i + 1)
  {
    if 0 <= i && i + |t| <= |s| - 1 {
      assert s[1..][i..i + |t|] == s[i + 1..i + 1 + |t|];
    }
  }

  /** JavaScript's string containment test: `t` occurs somewhere in `s`. */
  function Includes(s: string, t: string): (b: bool)
    ensures b <==> exists i :: OccursAt(s, t, i)
    decreases |s|
  {
    if |t| <= |s| && s[..|t|] == t then
      assert OccursAt(s, t, 0);
      true
    else if |s| == 0 then
      assert forall i :: !OccursAt(s, t, i);
      false
    else
      IncludesStep(s, t);
      Includes(s[1..], t)
  }

  /** When `t` is not a prefix of non-empty `s`, it occurs in `s` exactly
      when it occurs in `s[1..]`. */
  lemma IncludesStep(s: string, t: string)
    requires |s| > 0 && !(|t| <= |s| && s[..|t|] == t)
    ensures (exists i :: OccursAt(s, t, i)) <==> (exists i :: OccursAt(s[1..], t, i))
  {
    if i :| OccursAt(s, t, i) {
      assert i != 0;
      OccursShift(s, t, i - 1);
    }
    if i :| OccursAt(s[1..], t, i) {
      OccursShift(s, t, i);
    }
  }

  /** A longer needle occurs only where its prefix does. */
  lemma OccursPrefix(s: string, t: string, u: string, i: int)
    requires OccursAt(s, t + u, i)
    ensures OccursAt(s, t, i)
  {
    assert s[i..i + |t|] == s[i..i + |t + u|][..|t|];
    assert (t + u)[..|t|] == t;
  }

  // ---------------------------------------------------------------------
  // Search: keep, in catalogue order, the entries whose lowercased name or
  // lowercased description contains the lowercased query.

  predicate Matches(m: Monastery, query: string) {
    Includes(ToLower(m.name), ToLower(query)) || Includes(ToLower(m.description), ToLower(query))
  }

  /** `a` is `b` with some elements dropped and the rest kept in order. */
  predicate IsSubsequence(a: seq<Monastery>, b: seq<Monastery>)
    decreases |b|
  {
    if a == [] then true
    else if b == [] then false
    else (a[0] == b[0] && IsSubsequence(a[1..], b[1..])) || IsSubsequence(a, b[1..])
  }

  function SearchMonasteries(ms: seq<Monastery>, query: string): (r: seq<Monastery>)
    ensures IsSubsequence(r, ms)
    ensures forall i :: 0 <= i < |r| ==> Matches(r[i], query)
    ensures forall m :: multiset(r)[m] == if Matches(m, query) then multiset(ms)[m] else 0
  {
    if ms == [] then []
    else
      var rest := SearchMonasteries(ms[1..], query);
      assert ms == [ms[0]] + ms[1..];
      if Matches(ms[0], query) then
        assert ([ms[0]] + rest)[1..] == rest;
        [ms[0]] + rest
      else rest
  }

  /** A monastery of the catalogue is found exactly when its lowercased name
      or description contains the lowercased query. */
  lemma SearchFinds(ms: seq<Monastery>, query: string, m: Monastery)
    requires m in ms
    ensures m in SearchMonasteries(ms, query) <==> Matches(m, query)
  {
    var r := SearchMonasteries(ms, query);
    assert multiset(ms)[m] > 0;
    assert m in r <==> multiset(r)[m] > 0;
  }

  /** The empty query matches everything, so it returns the whole catalogue. */
  lemma {:induction false} SearchEmptyQuery(ms: seq<Monastery>)
    ensures SearchMonasteries(ms, "") == ms
  {
    if ms != [] {
      assert OccursAt(ToLower(ms[0].name), "", 0);
      assert Matches(ms[0], "");
      SearchEmptyQuery(ms[1..]);
    }
  }

  /** Queries that fold to the same lower case give the same result. */
  lemma {:induction false} SearchIgnoresCase(ms: seq<Monastery>, q1: string, q2: string)
    requires ToLower(q1) == ToLower(q2)
    ensures SearchMonasteries(ms, q1) == SearchMonasteries(ms, q2)
  {
    if ms != [] {
      SearchIgnoresCase(ms[1..], q1, q2);
    }
  }

  lemma SearchUpperOrLowerQuery(ms: seq<Monastery>, q: string)
    ensures SearchMonasteries(ms, ToUpper(q)) == SearchMonasteries(ms, q)
    ensures SearchMonasteries(ms, ToLower(q)) == SearchMonasteries(ms, q)
  {
    LowerOfUpper(q);
    LowerIdempotent(q);
    SearchIgnoresCase(ms, ToUpper(q), q);
    SearchIgnoresCase(ms, ToLower(q), q);
  }

  lemma MatchesNarrow(m: Monastery, q: string, more: string)
    requires Matches(m, q + more)
    ensures Matches(m, q)
  {
    LowerConcat(q, more);
    var lq, lm := ToLower(q), ToLower(more);
    if Includes(ToLower(m.name), lq + lm) {
      var i :| OccursAt(ToLower(m.name), lq + lm, i);
      OccursPrefix(ToLower(m.name), lq, lm, i);
    } else {
      var i :| OccursAt(ToLower(m.description), lq + lm, i);
      OccursPrefix(ToLower(m.description), lq, lm, i);
    }
  }

  /** Typing more of a query can only narrow the result. */
  lemma {:induction false} SearchNarrows(ms: seq<Monastery>, q: string, more: string)
    ensures IsSubsequence(SearchMonasteries(ms, q + more), SearchMonasteries(ms, q))
  {
    if ms != [] {
      SearchNarrows(ms[1..], q, more);
      var longer, shorter := SearchMonasteries(ms[1..], q + more), SearchMonasteries(ms[1..], q);
      if Matches(ms[0], q + more) {
        MatchesNarrow(ms[0], q, more);
        assert SearchMonasteries(ms, q + more) == [ms[0]] + longer;
        assert SearchMonasteries(ms, q) == [ms[0]] + shorter;
        assert ([ms[0]] + longer)[1..] == longer;
        assert ([ms[0]] + shorter)[1..] == shorter;
      } else if Matches(ms[0], q) {
        assert SearchMonasteries(ms, q) == [ms[0]] + shorter;
        assert ([ms[0]] + shorter)[1..] == shorter;
        SubsequenceOfTail(longer, ms[0], shorter);
      }
    }
  }

  lemma {:induction false} SubsequenceOfTail(a: seq<Monastery>, x: Monastery, b: seq<Monastery>)
    requires IsSubsequence(a, b)
    ensures IsSubsequence(a, [x] + b)
  {
    assert ([x] + b)[1..] == b;
  }

  // ---------------------------------------------------------------------
  // Booking: the supplied fields are copied, and the booking gets a fresh id
  // from the clock, status confirmed and payment status paid.

  /** The client-supplied part of a booking. */
  function RequestOf(b: Booking): BookingRequest {
    BookingRequest(b.userId, b.monasteryId, b.eventId, b.visitDate, b.visitors, b.totalAmount, b.specialRequests)
  }

  function BookVisit(request: BookingRequest, now: nat): (b: Booking)
    ensures RequestOf(b) == request
    ensures b.status == Confirmed && b.paymentStatus == Paid
    ensures Decimal.IsNumeral(b.id) && Decimal.Parse(b.id) == now
    ensures b.id == Decimal.Render(now)
  {
    Decimal.ParseRender(now);
    Booking(Decimal.Render(now), request.userId, request.monasteryId, request.eventId, request.visitDate,
            request.visitors, request.totalAmount, Confirmed, Paid, request.specialRequests)
  }

  /** Bookings made at different clock readings get different ids. */
  lemma BookingIdsDistinct(r1: BookingRequest, r2: BookingRequest, now1: nat, now2: nat)
    requires now1 != now2
    ensures BookVisit(r1, now1).id != BookVisit(r2, now2).id
  {
    Decimal.RenderInjective(now1, now2);
  }
}
