/** The fixed-window limiter of apps/showcase/app.py: `Limiter`. */
module RateLimiter {
  import opened Wrappers
  import Sets

  /** When the window closes, and how many calls it has admitted. */
  datatype Window = Window(expires: real, count: int)

  type Windows<!K> = map<K, Window>

  const CAPACITY := 4096

  function Live<K>(windows: Windows<K>, now: real): Windows<K> {
    map k | k in windows && windows[k].expires > now :: windows[k]
  }

  function Entry<K(==)>(windows: Windows<K>, key: K, seconds: real, now: real): Window {
    if key in windows then windows[key] else Window(now + seconds, 0)
  }

  predicate Admits<K(==)>(windows: Windows<K>, key: K, limit: int, seconds: real, now: real) {
    var live := Live(windows, now);
    Entry(live, key, seconds, now).count < limit && (key in live || |live| < CAPACITY)
  }

  function After<K(==)>(windows: Windows<K>, key: K, limit: int, seconds: real, now: real): Windows<K> {
    var live := Live(windows, now);
    var entry := Entry(live, key, seconds, now);
    if Admits(windows, key, limit, seconds, now) then live[key := entry.(count := entry.count + 1)] else live
  }

  class Limiter<K(==)> {
    var windows: Windows<K>

    constructor ()
      ensures windows == map[]
    {
      windows := map[];
    }

    /** One locked section; a refusal is the HTTP 429 of the source. */
    method Check(key: K, limit: int, seconds: real, now: real) returns (admitted: bool)
      modifies this
      ensures admitted == Admits(old(windows), key, limit, seconds, now)
      ensures windows == After(old(windows), key, limit, seconds, now)
    {
      windows := map k | k in windows && windows[k].expires > now :: windows[k];
      var expires, count := now + seconds, 0;
      if key in windows {
        expires, count := windows[key].expires, windows[key].count;
      }
      if count >= limit || (key !in windows && |windows| >= CAPACITY) {
        return false;
      }
      windows := windows[key := Window(expires, count + 1)];
      return true;
    }
  }

  // ---- Whole call sequences ----

  datatype Call<K> = Call(key: K, limit: int, seconds: real, now: real)

  type Calls<K> = seq<Call<K>>

  /** The windows before call `n`. */
  function Before<K(==)>(calls: Calls<K>, n: nat): Windows<K>
    requires n <= |calls|
  {
    if n == 0 then map[]
    else
      var c := calls[n - 1];
      After(Before(calls, n - 1), c.key, c.limit, c.seconds, c.now)
  }

  predicate Admitted<K(==)>(calls: Calls<K>, i: nat)
    requires i < |calls|
  {
    var c := calls[i];
    Admits(Before(calls, i), c.key, c.limit, c.seconds, c.now)
  }

  /** How many calls `from <= i < to` for `key`, with a stamp in `[lo, hi)`, were admitted. */
  function Admissions<K(==)>(calls: Calls<K>, key: K, from: nat, to: nat, lo: real, hi: real): nat
    requires to <= |calls|
  {
    if to <= from then 0
    else
      Admissions(calls, key, from, to - 1, lo, hi)
      + if calls[to - 1].key == key && lo <= calls[to - 1].now < hi && Admitted(calls, to - 1) then 1 else 0
  }

  /** No stamp is over `skew` behind that of an earlier call: a thread reads the clock before it enters the lock. */
  ghost predicate SkewAtMost<K>(calls: Calls<K>, skew: real) {
    forall i, j | 0 <= i <= j < |calls| :: calls[i].now <= calls[j].now + skew
  }

  ghost predicate FixedLimit<K>(calls: Calls<K>, key: K, limit: nat) {
    forall c | c in calls && c.key == key :: c.limit == limit
  }

  /** `key` is always used with this limit and window length, as every handler does. */
  ghost predicate FixedRule<K>(calls: Calls<K>, key: K, limit: nat, seconds: real) {
    seconds > 0.0 && forall c | c in calls && c.key == key :: c.limit == limit && c.seconds == seconds
  }

  lemma {:induction false} WindowsAreBounded<K>(calls: Calls<K>, n: nat)
    requires n <= |calls|
    ensures |Before(calls, n)| <= CAPACITY
  {
    if n > 0 {
      WindowsAreBounded(calls, n - 1);
      var windows, c := Before(calls, n - 1), calls[n - 1];
      var live := Live(windows, c.now);
      assert live.Keys <= windows.Keys;
      Sets.SubsetSize(live.Keys, windows.Keys);
    }
  }

  /** A new limiter through any calls: what it answers, and the windows it ends with. */
  method CheckAll<K(==)>(limiter: Limiter<K>, calls: Calls<K>) returns (admitted: seq<bool>)
    requires limiter.windows == map[]
    modifies limiter
    ensures limiter.windows == Before(calls, |calls|) && |limiter.windows| <= CAPACITY
    ensures |admitted| == |calls| && forall i | 0 <= i < |calls| :: admitted[i] == Admitted(calls, i)
  {
    hide After, Admits;
    admitted := [];
    for i := 0 to |calls|
      invariant limiter.windows == Before(calls, i)
      invariant |admitted| == i && forall j | 0 <= j < i :: admitted[j] == Admitted(calls, j)
    {
      var answer := limiter.Check(calls[i].key, calls[i].limit, calls[i].seconds, calls[i].now);
      admitted := admitted + [answer];
    }
    WindowsAreBounded(calls, |calls|);
  }

  // ---- One window ----

  /** Call `i` opens a new window for `key`. */
  ghost predicate Creates<K>(calls: Calls<K>, key: K, i: nat)
    requires i < |calls|
  {
    calls[i].key == key && Admitted(calls, i) && key !in Live(Before(calls, i), calls[i].now)
  }

  /** How many of the calls `from <= i < to` for `key` were admitted, whatever their stamps. */
  function AdmittedCalls<K(==)>(calls: Calls<K>, key: K, from: nat, to: nat): nat
    requires to <= |calls|
  {
    if to <= from then 0
    else AdmittedCalls(calls, key, from, to - 1) + if calls[to - 1].key == key && Admitted(calls, to - 1) then 1 else 0
  }

  /** What one call does to the window of `key`. */
  lemma WindowAfter<K>(windows: Windows<K>, key: K, c: Call<K>)
    ensures var open := key in windows && windows[key].expires > c.now;
            var admits := Admits(windows, c.key, c.limit, c.seconds, c.now);
            var after := After(windows, c.key, c.limit, c.seconds, c.now);
            if c.key == key && admits then
              && key in after
              && after[key] == (if open then Window(windows[key].expires, windows[key].count + 1)
                                else Window(c.now + c.seconds, 1))
              && after[key].count <= c.limit
            else
              && (key in after <==> open)
              && (open ==> after[key] == windows[key])
  {
  }

  /** For any stamps at all: from the call that opens a window to the next that does, at most `limit` are admitted. */
  lemma {:induction false} PerWindow<K>(calls: Calls<K>, key: K, limit: nat, i: nat, n: nat)
    requires FixedLimit(calls, key, limit) && i < n <= |calls| && Creates(calls, key, i)
    requires forall j | i < j < n :: !Creates(calls, key, j)
    ensures AdmittedCalls(calls, key, i, n) <= limit
    ensures key in Before(calls, n) ==> Before(calls, n)[key].count == AdmittedCalls(calls, key, i, n)
  {
    hide After, Admits;
    assert calls[n - 1] in calls;
    WindowAfter(Before(calls, n - 1), key, calls[n - 1]);
    if n > i + 1 {
      PerWindow(calls, key, limit, i, n - 1);
      assert !Creates(calls, key, n - 1);
    } else {
      assert AdmittedCalls(calls, key, i, i) == 0;
    }
  }

  /** A window that is still stored was opened by a call, which says when it closes. */
  lemma {:induction false} OpenedBy<K>(calls: Calls<K>, key: K, limit: nat, seconds: real, n: nat) returns (i: nat)
    requires FixedRule(calls, key, limit, seconds) && n <= |calls| && key in Before(calls, n)
    ensures i < n && Creates(calls, key, i) && Before(calls, n)[key].expires == calls[i].now + seconds
    ensures forall j | i < j < n :: !Creates(calls, key, j)
  {
    hide After, Admits;
    var c := calls[n - 1];
    assert c in calls;
    WindowAfter(Before(calls, n - 1), key, c);
    if Creates(calls, key, n - 1) {
      i := n - 1;
    } else {
      i := OpenedBy(calls, key, limit, seconds, n - 1);
    }
  }

  /** The call that opened the window which admitted call `f`. */
  lemma OpenerOf<K>(calls: Calls<K>, key: K, limit: nat, seconds: real, f: nat) returns (i: nat)
    requires FixedRule(calls, key, limit, seconds) && f < |calls| && calls[f].key == key && Admitted(calls, f)
    ensures i <= f && Creates(calls, key, i) && calls[f].now < calls[i].now + seconds
    ensures forall j | i < j <= f :: !Creates(calls, key, j)
  {
    if Creates(calls, key, f) {
      i := f;
    } else {
      i := OpenedBy(calls, key, limit, seconds, f);
    }
  }

  // ---- When a call is admitted ----

  /** Call `j` opened the last window of `key` before call `n`, and no call has come at its end or later since. */
  ghost predicate Opened<K>(calls: Calls<K>, key: K, j: nat, n: nat)
    requires n <= |calls|
  {
    && j < n && Creates(calls, key, j) && (forall m | j < m < n :: !Creates(calls, key, m))
    && forall p | j < p < n :: calls[p].now < calls[j].now + calls[j].seconds
  }

  /** A stored window was opened, has not closed since, and counts the calls it admitted. */
  lemma {:induction false} StoredIsOpened<K>(calls: Calls<K>, key: K, n: nat) returns (j: nat)
    requires n <= |calls| && key in Before(calls, n)
    ensures Opened(calls, key, j, n)
    ensures Before(calls, n)[key] == Window(calls[j].now + calls[j].seconds, AdmittedCalls(calls, key, j, n))
  {
    hide After, Admits;
    WindowAfter(Before(calls, n - 1), key, calls[n - 1]);
    if Creates(calls, key, n - 1) {
      j := n - 1;
      assert AdmittedCalls(calls, key, j, j) == 0;
    } else {
      j := StoredIsOpened(calls, key, n - 1);
    }
  }

  lemma {:induction false} OpenedIsStored<K>(calls: Calls<K>, key: K, j: nat, n: nat)
    requires n <= |calls| && Opened(calls, key, j, n)
    ensures key in Before(calls, n) && Before(calls, n)[key].expires == calls[j].now + calls[j].seconds
  {
    hide After, Admits;
    WindowAfter(Before(calls, n - 1), key, calls[n - 1]);
    if j < n - 1 {
      OpenedIsStored(calls, key, j, n - 1);
    }
  }

  /** The window of `key` that call `j` opened is still open when call `i` comes. */
  ghost predicate OpenAt<K>(calls: Calls<K>, key: K, j: nat, i: nat)
    requires i < |calls|
  {
    Opened(calls, key, j, i) && calls[i].now < calls[j].now + calls[j].seconds
  }

  ghost predicate HasWindow<K>(calls: Calls<K>, key: K, i: nat)
    requires i < |calls|
  {
    exists j :: OpenAt(calls, key, j, i)
  }

  /** The keys with an open window when call `i` comes. */
  ghost function OpenKeys<K>(calls: Calls<K>, i: nat): set<K>
    requires i < |calls|
  {
    set j | 0 <= j < i && OpenAt(calls, calls[j].key, j, i) :: calls[j].key
  }

  lemma LiveIsOpen<K>(calls: Calls<K>, key: K, i: nat)
    requires i < |calls|
    ensures key in Live(Before(calls, i), calls[i].now) <==> HasWindow(calls, key, i)
  {
    hide Before, Opened;
    if key in Live(Before(calls, i), calls[i].now) {
      var j := StoredIsOpened(calls, key, i);
      assert OpenAt(calls, key, j, i);
    }
    if HasWindow(calls, key, i) {
      var j :| OpenAt(calls, key, j, i);
      OpenedIsStored(calls, key, j, i);
    }
  }

  lemma OpenersKey<K>(calls: Calls<K>, key: K, j: nat, i: nat)
    requires i < |calls| && OpenAt(calls, key, j, i)
    ensures j < i && calls[j].key == key
  {
  }

  lemma OpenKeysHaveWindows<K>(calls: Calls<K>, key: K, i: nat)
    requires i < |calls|
    ensures key in OpenKeys(calls, i) <==> HasWindow(calls, key, i)
  {
    hide OpenAt;
    if HasWindow(calls, key, i) {
      var j :| OpenAt(calls, key, j, i);
      OpenersKey(calls, key, j, i);
    }
  }

  /** A call into an open window is admitted exactly while that window has admitted fewer than its limit. */
  lemma AdmittedIntoWindow<K>(calls: Calls<K>, i: nat, j: nat)
    requires i < |calls| && OpenAt(calls, calls[i].key, j, i)
    ensures Admitted(calls, i) <==> AdmittedCalls(calls, calls[i].key, j, i) < calls[i].limit
  {
    var key := calls[i].key;
    OpenedIsStored(calls, key, j, i);
    var k := StoredIsOpened(calls, key, i);
    assert k == j;
    hide Before, AdmittedCalls, Creates;
  }

  /** A call without an open window is admitted exactly if its limit is positive and fewer than 4096 others are open. */
  lemma AdmittedWithoutWindow<K>(calls: Calls<K>, i: nat)
    requires i < |calls| && !HasWindow(calls, calls[i].key, i)
    ensures Admitted(calls, i) <==> calls[i].limit > 0 && |OpenKeys(calls, i)| < 4096
  {
    hide OpenKeys, HasWindow, Before;
    var live := Live(Before(calls, i), calls[i].now);
    forall key | key in live.Keys ensures key in OpenKeys(calls, i) {
      LiveIsOpen(calls, key, i);
      OpenKeysHaveWindows(calls, key, i);
    }
    forall key | key in OpenKeys(calls, i) ensures key in live.Keys {
      LiveIsOpen(calls, key, i);
      OpenKeysHaveWindows(calls, key, i);
    }
    LiveIsOpen(calls, calls[i].key, i);
    assert live.Keys == OpenKeys(calls, i);
    assert |live| == |live.Keys|;
  }

  lemma NextOpener<K>(calls: Calls<K>, key: K, i: nat) returns (j: nat)
    requires i < |calls|
    ensures i < j <= |calls| && (j < |calls| ==> Creates(calls, key, j))
    ensures forall m | i < m < j :: !Creates(calls, key, m)
  {
    j := i + 1;
    while j < |calls| && !Creates(calls, key, j)
      invariant i < j <= |calls|
      invariant forall m | i < m < j :: !Creates(calls, key, m)
    {
      j := j + 1;
    }
  }

  /** The window of call `i` is stored until some call has come at its end or later. */
  ghost predicate StoredOrClosed<K>(calls: Calls<K>, key: K, end: real, i: nat, n: nat)
    requires n <= |calls|
  {
    || (key in Before(calls, n) && Before(calls, n)[key].expires == end)
    || exists p :: i < p < n && calls[p].now >= end
  }

  lemma {:induction false} WindowStory<K>(calls: Calls<K>, key: K, limit: nat, seconds: real, i: nat, n: nat)
    requires FixedRule(calls, key, limit, seconds) && i < n <= |calls| && Creates(calls, key, i)
    ensures StoredOrClosed(calls, key, calls[i].now + seconds, i, n)
  {
    hide After, Admits;
    var end, c := calls[i].now + seconds, calls[n - 1];
    assert c in calls;
    WindowAfter(Before(calls, n - 1), key, c);
    if n > i + 1 {
      WindowStory(calls, key, limit, seconds, i, n - 1);
      if exists p :: i < p < n - 1 && calls[p].now >= end {
        var p :| i < p < n - 1 && calls[p].now >= end;
      } else if c.now >= end {
        assert i < n - 1 < n && calls[n - 1].now >= end;
      }
    }
  }

  /** The next window of a key opens at least one window length after the one before, less the skew. */
  lemma LaterWindow<K>(calls: Calls<K>, key: K, limit: nat, seconds: real, skew: real, i: nat, j: nat)
    requires SkewAtMost(calls, skew) && FixedRule(calls, key, limit, seconds) && skew >= 0.0
    requires i < j < |calls| && Creates(calls, key, i) && Creates(calls, key, j)
    ensures calls[j].now >= calls[i].now + seconds - skew
  {
    WindowStory(calls, key, limit, seconds, i, j);
    hide After, Admits, Before;
  }

  // ---- A stretch of one window length ----

  /** The first admitted call for `key` in `[from, to)` with a stamp in `[lo, hi)`, if there is one. */
  lemma {:induction false} FirstAdmission<K>(calls: Calls<K>, key: K, from: nat, to: nat, lo: real, hi: real)
    returns (i: nat)
    requires from <= to <= |calls| && Admissions(calls, key, from, to, lo, hi) > 0
    ensures from <= i < to && calls[i].key == key && lo <= calls[i].now < hi && Admitted(calls, i)
    ensures Admissions(calls, key, from, i, lo, hi) == 0
  {
    if Admissions(calls, key, from, to - 1, lo, hi) > 0 {
      i := FirstAdmission(calls, key, from, to - 1, lo, hi);
    } else {
      i := to - 1;
    }
  }

  lemma {:induction false} Split<K>(calls: Calls<K>, key: K, from: nat, mid: nat, to: nat, lo: real, hi: real)
    requires from <= mid <= to <= |calls|
    ensures Admissions(calls, key, from, to, lo, hi)
         == Admissions(calls, key, from, mid, lo, hi) + Admissions(calls, key, mid, to, lo, hi)
  {
    hide Admitted;
    if mid < to {
      Split(calls, key, from, mid, to - 1, lo, hi);
    }
  }

  /** The stamps of a window's calls do not matter for the bound; one outside the range makes it stricter. */
  lemma {:induction false} InRangeAtMostAll<K>(calls: Calls<K>, key: K, from: nat, to: nat, lo: real, hi: real)
    requires from < to <= |calls| && calls[from].key == key && Admitted(calls, from)
    ensures Admissions(calls, key, from, to, lo, hi) + (if lo <= calls[from].now < hi then 0 else 1)
         <= AdmittedCalls(calls, key, from, to)
  {
    hide Admitted;
    if from + 1 < to {
      InRangeAtMostAll(calls, key, from, to - 1, lo, hi);
    } else {
      assert Admissions(calls, key, from, from, lo, hi) == 0 && AdmittedCalls(calls, key, from, from) == 0;
    }
  }

  lemma {:induction false} NoneSoLate<K>(calls: Calls<K>, key: K, from: nat, to: nat, lo: real, hi: real)
    requires to <= |calls| && forall i | from <= i < to :: calls[i].now >= hi
    ensures Admissions(calls, key, from, to, lo, hi) == 0
  {
    hide Admitted;
    if from < to {
      NoneSoLate(calls, key, from, to - 1, lo, hi);
    }
  }

  /** `m` window lengths. */
  ghost function Span(m: nat, length: real): real {
    m as real * length
  }

  lemma OneLess(m: nat, length: real)
    requires m > 0
    ensures Span(m - 1, length) == Span(m, length) - length
  {
    assert (m - 1) as real == m as real - 1.0;
  }

  lemma SpanIsPositive(m: nat, length: real)
    requires Span(m, length) > 0.0
    ensures m > 0
  {
  }

  lemma OneFewer(m: nat, limit: nat)
    requires m > 0
    ensures (m - 1) * limit + limit == m * limit
  {
  }

  /** What the window that call `i` opens adds, and where the next one opens. */
  lemma OneWindow<K>(calls: Calls<K>, key: K, limit: nat, seconds: real, skew: real, i: nat, lo: real, hi: real)
    returns (j: nat)
    requires SkewAtMost(calls, skew) && FixedRule(calls, key, limit, seconds) && skew >= 0.0
    requires i < |calls| && Creates(calls, key, i)
    ensures i < j <= |calls|
    ensures j < |calls| ==> Creates(calls, key, j) && calls[j].now >= calls[i].now + seconds - skew
    ensures j == |calls| ==> Admissions(calls, key, j, |calls|, lo, hi) == 0
    ensures Admissions(calls, key, i, |calls|, lo, hi) + (if lo <= calls[i].now < hi then 0 else 1)
         <= limit + Admissions(calls, key, j, |calls|, lo, hi)
  {
    hide Admitted, Before, Live;
    j := NextOpener(calls, key, i);
    PerWindow(calls, key, limit, i, j);
    InRangeAtMostAll(calls, key, i, j, lo, hi);
    Split(calls, key, i, j, |calls|, lo, hi);
    if j < |calls| {
      LaterWindow(calls, key, limit, seconds, skew, i, j);
    }
  }

  /** From the call that opens a window on, the admissions before `hi` come from the next `m` windows. */
  lemma {:induction false} AtMostFrom<K>(calls: Calls<K>, key: K, limit: nat, seconds: real, skew: real, i: nat, m: nat,
                                         lo: real, hi: real)
    requires SkewAtMost(calls, skew) && FixedRule(calls, key, limit, seconds) && skew >= 0.0
    requires i < |calls| && Creates(calls, key, i) && calls[i].now + Span(m, seconds - skew) >= hi + skew
    ensures Admissions(calls, key, i, |calls|, lo, hi) <= m * limit
    decreases |calls| - i
  {
    hide Creates, Admissions, FixedRule;
    if m == 0 {
      NoneSoLate(calls, key, i, |calls|, lo, hi);
    } else {
      hide SkewAtMost, Span;
      var j := OneWindow(calls, key, limit, seconds, skew, i, lo, hi);
      OneLess(m, seconds - skew);
      OneFewer(m, limit);
      if j < |calls| {
        AtMostFrom(calls, key, limit, seconds, skew, j, m - 1, lo, hi);
      }
    }
  }

  /** How many calls for `key` are admitted in the window length after `start`. */
  function Within<K(==)>(calls: Calls<K>, key: K, seconds: real, start: real): nat {
    Admissions(calls, key, 0, |calls|, start, start + seconds)
  }

  /** The admissions in a stretch begin in the window of the first of them. */
  lemma FromItsOpener<K>(calls: Calls<K>, key: K, limit: nat, seconds: real, start: real) returns (i: nat)
    requires FixedRule(calls, key, limit, seconds) && Within(calls, key, seconds, start) > 0
    ensures i < |calls| && Creates(calls, key, i) && start < calls[i].now + seconds
    ensures Within(calls, key, seconds, start) == Admissions(calls, key, i, |calls|, start, start + seconds)
    ensures limit == 1 ==> start <= calls[i].now
  {
    hide Admitted, Before, Live;
    var n, stop := |calls|, start + seconds;
    var f := FirstAdmission(calls, key, 0, n, start, stop);
    i := OpenerOf(calls, key, limit, seconds, f);
    Split(calls, key, 0, i, n, start, stop);
    Split(calls, key, 0, i, f, start, stop);
    if limit == 1 && i < f {
      PerWindow(calls, key, limit, i, f + 1);
      FirstIsAdmitted(calls, key, i, f);
    }
  }

  lemma {:induction false} FirstIsAdmitted<K>(calls: Calls<K>, key: K, i: nat, n: nat)
    requires i < n <= |calls| && calls[i].key == key && Admitted(calls, i)
    ensures AdmittedCalls(calls, key, i, n) >= 1
  {
    hide Admitted;
    if i + 1 < n {
      FirstIsAdmitted(calls, key, i, n - 1);
    }
  }

  /** A stretch that begins in the window of call `i` sees fewer calls than that window and the next `m` could admit. */
  lemma FewerFrom<K>(calls: Calls<K>, key: K, limit: nat, seconds: real, skew: real, i: nat, m: nat, start: real)
    requires SkewAtMost(calls, skew) && FixedRule(calls, key, limit, seconds) && skew >= 0.0 && limit >= 1
    requires i < |calls| && Creates(calls, key, i) && start < calls[i].now + seconds
    requires Span(m, seconds - skew) >= seconds + 2.0 * skew
    ensures Admissions(calls, key, i, |calls|, start, start + seconds) < limit + m * limit
  {
    hide Creates, Admissions, FixedRule, SkewAtMost, Span;
    var stop := start + seconds;
    if start <= calls[i].now {
      AtMostFrom(calls, key, limit, seconds, skew, i, m, start, stop);
    } else {
      var j := OneWindow(calls, key, limit, seconds, skew, i, start, stop);
      if j < |calls| {
        AtMostFrom(calls, key, limit, seconds, skew, j, m, start, stop);
      }
    }
  }

  /**
   * Stamps out of order by at most `skew`: when `m` window lengths, each less the skew, cover two window lengths and
   * the skew, a half-open interval of one window length sees fewer than `m` times the limit.
   */
  lemma FewerThanWindows<K>(calls: Calls<K>, key: K, limit: nat, seconds: real, skew: real, start: real, m: nat)
    requires SkewAtMost(calls, skew) && FixedRule(calls, key, limit, seconds) && skew >= 0.0 && limit >= 1
    requires Span(m, seconds - skew) >= 2.0 * seconds + skew
    ensures Within(calls, key, seconds, start) < m * limit
  {
    SpanIsPositive(m, seconds - skew);
    hide Creates, Admissions, SkewAtMost, Within, Span;
    OneLess(m, seconds - skew);
    OneFewer(m, limit);
    if Within(calls, key, seconds, start) > 0 {
      var i := FromItsOpener(calls, key, limit, seconds, start);
      FewerFrom(calls, key, limit, seconds, skew, i, m - 1, start);
    } else {
      assert (m - 1) * limit >= 0;
    }
  }

  /** With a limit of one, only the calls that open windows are admitted. */
  lemma {:induction false} OnlyOpeners<K>(calls: Calls<K>, key: K, seconds: real, skew: real, i: nat, m: nat,
                                          lo: real, hi: real)
    requires SkewAtMost(calls, skew) && FixedRule(calls, key, 1, seconds) && 0.0 <= skew <= seconds
    requires i < |calls| && Creates(calls, key, i) && calls[i].now + Span(m, seconds - skew) >= hi
    ensures Admissions(calls, key, i, |calls|, lo, hi) <= m
    decreases |calls| - i
  {
    hide Creates, Admissions, FixedRule, SkewAtMost;
    assert Span(0, seconds - skew) == 0.0;
    hide Span;
    var j := OneWindow(calls, key, 1, seconds, skew, i, lo, hi);
    if m > 0 {
      OneLess(m, seconds - skew);
    }
    if j < |calls| {
      OnlyOpeners(calls, key, seconds, skew, j, if m > 0 then m - 1 else 0, lo, hi);
    }
  }

  lemma {:induction false} NoneAdmitted<K>(calls: Calls<K>, key: K, seconds: real, n: nat, lo: real, hi: real)
    requires FixedRule(calls, key, 0, seconds) && n <= |calls|
    ensures Admissions(calls, key, 0, n, lo, hi) == 0
  {
    hide Before;
    if n > 0 {
      NoneAdmitted(calls, key, seconds, n - 1, lo, hi);
      assert calls[n - 1] in calls;
      CountsAreNatural(calls, n - 1);
    }
  }

  lemma {:induction false} CountsAreNatural<K>(calls: Calls<K>, n: nat)
    requires n <= |calls|
    ensures forall k | k in Before(calls, n) :: Before(calls, n)[k].count >= 1
  {
    if n > 0 {
      CountsAreNatural(calls, n - 1);
    }
  }

  // ---- Calls that reach the bounds ----

  lemma {:induction false} PrefixIsKept<K>(calls: Calls<K>, c: Call<K>, n: nat)
    requires n <= |calls|
    ensures Before(calls + [c], n) == Before(calls, n)
  {
    hide After;
    if n > 0 {
      PrefixIsKept(calls, c, n - 1);
      assert (calls + [c])[n - 1] == calls[n - 1];
    }
  }

  lemma {:induction false} AdmissionsOfPrefix<K>(calls: Calls<K>, c: Call<K>, key: K, n: nat, lo: real, hi: real)
    requires n <= |calls|
    ensures Admissions(calls + [c], key, 0, n, lo, hi) == Admissions(calls, key, 0, n, lo, hi)
  {
    hide After, Admits, Before;
    if n > 0 {
      AdmissionsOfPrefix(calls, c, key, n - 1, lo, hi);
      PrefixIsKept(calls, c, n - 1);
      assert (calls + [c])[n - 1] == calls[n - 1];
    }
  }

  /** After `calls`, made for two keys only, `key` has this window, and `seen` calls in `[lo, hi)` were admitted. */
  ghost predicate Reached<K>(calls: Calls<K>, key: K, other: K, window: Option<Window>, seen: nat, lo: real, hi: real) {
    var windows := Before(calls, |calls|);
    && windows.Keys <= {key, other}
    && window == (if key in windows then Some(windows[key]) else None)
    && Admissions(calls, key, 0, |calls|, lo, hi) == seen
  }

  /** One more call, and what it adds. */
  lemma OneMoreCall<K>(calls: Calls<K>, c: Call<K>, key: K, lo: real, hi: real)
    ensures var windows, more := Before(calls, |calls|), calls + [c];
            && Before(more, |more|) == After(windows, c.key, c.limit, c.seconds, c.now)
            && Admissions(more, key, 0, |more|, lo, hi)
               == Admissions(calls, key, 0, |calls|, lo, hi)
                  + if c.key == key && lo <= c.now < hi
                      && Admits(windows, c.key, c.limit, c.seconds, c.now) then 1 else 0
  {
    hide After, Admits;
    PrefixIsKept(calls, c, |calls|);
    AdmissionsOfPrefix(calls, c, key, |calls|, lo, hi);
  }

  ghost function Hit<K>(c: Call<K>, lo: real, hi: real): nat {
    if lo <= c.now < hi then 1 else 0
  }

  ghost predicate Open(window: Option<Window>, now: real) {
    window.Some? && window.value.expires > now
  }

  lemma TwoKeysFit<K>(windows: Windows<K>, c: Call<K>, key: K, other: K)
    requires windows.Keys <= {key, other} && c.key in {key, other}
    ensures |Live(windows, c.now)| < CAPACITY
    ensures After(windows, c.key, c.limit, c.seconds, c.now).Keys <= {key, other}
  {
    var live := Live(windows, c.now);
    assert |{key, other}| <= 2;
    assert live.Keys <= windows.Keys;
    Sets.SubsetSize(live.Keys, {key, other});
  }

  /** A call of the key fits into its window, or opens the next one. */
  lemma CallFits<K>(calls: Calls<K>, c: Call<K>, other: K, window: Option<Window>, seen: nat, lo: real, hi: real)
    requires Reached(calls, c.key, other, window, seen, lo, hi) && c.limit >= 1
    requires Open(window, c.now) ==> window.value.count < c.limit
    ensures Reached(calls + [c], c.key, other,
                    Some(if Open(window, c.now) then window.value.(count := window.value.count + 1)
                         else Window(c.now + c.seconds, 1)),
                    seen + Hit(c, lo, hi), lo, hi)
  {
    var windows := Before(calls, |calls|);
    TwoKeysFit(windows, c, c.key, other);
    WindowAfter(windows, c.key, c);
    OneMoreCall(calls, c, c.key, lo, hi);
    assert Admits(windows, c.key, c.limit, c.seconds, c.now);
    hide Before, Admissions, After, Admits;
  }

  /** A call of another key drops the window of this one when it has closed. */
  lemma OtherCalls<K>(calls: Calls<K>, c: Call<K>, key: K, window: Option<Window>, seen: nat, lo: real, hi: real)
    requires Reached(calls, key, c.key, window, seen, lo, hi) && c.key != key
    ensures Reached(calls + [c], key, c.key, if Open(window, c.now) then window else None, seen, lo, hi)
  {
    var windows := Before(calls, |calls|);
    TwoKeysFit(windows, c, key, c.key);
    WindowAfter(windows, key, c);
    OneMoreCall(calls, c, key, lo, hi);
    hide Before, Admissions, After, Admits;
  }

  function Repeat<K>(calls: Calls<K>, c: Call<K>, n: nat): Calls<K> {
    if n == 0 then calls else Repeat(calls, c, n - 1) + [c]
  }

  /** `n` more calls fit into the open window. */
  lemma {:induction false} CallsFit<K>(calls: Calls<K>, c: Call<K>, n: nat, other: K, window: Window, seen: nat,
                                       lo: real, hi: real)
    requires Reached(calls, c.key, other, Some(window), seen, lo, hi)
    requires c.now < window.expires && window.count + n <= c.limit && window.count >= 1
    ensures Reached(Repeat(calls, c, n), c.key, other, Some(window.(count := window.count + n)),
                    seen + (if lo <= c.now < hi then n else 0), lo, hi)
    decreases n
  {
    hide Reached;
    if n == 0 {
      assert window.(count := window.count + n) == window;
    } else {
      CallsFit(calls, c, n - 1, other, window, seen, lo, hi);
      var window', seen' := window.(count := window.count + n - 1), seen + if lo <= c.now < hi then n - 1 else 0;
      CallFits(Repeat(calls, c, n - 1), c, other, Some(window'), seen', lo, hi);
    }
  }

  /** Calls under one rule, no stamp behind those before it by more than `skew`, and none after `last`. */
  ghost predicate Uniform<K>(calls: Calls<K>, limit: nat, seconds: real, skew: real, last: real) {
    && SkewAtMost(calls, skew) && (forall i | 0 <= i < |calls| :: calls[i].now <= last)
    && forall c | c in calls :: c.limit == limit && c.seconds == seconds
  }

  lemma NothingIsUniform<K>(limit: nat, seconds: real, skew: real)
    ensures Uniform<K>([], limit, seconds, skew, 0.0)
  {
  }

  lemma NothingReached<K>(key: K, other: K, lo: real, hi: real)
    ensures Reached([], key, other, None, 0, lo, hi)
  {
  }

  lemma OneMoreUniform<K>(calls: Calls<K>, c: Call<K>, skew: real, last: real, last': real)
    requires c.limit >= 0 && Uniform(calls, c.limit, c.seconds, skew, last)
    requires skew >= 0.0 && last <= c.now + skew && last <= last' && c.now <= last'
    ensures Uniform(calls + [c], c.limit, c.seconds, skew, last')
  {
  }

  lemma {:induction false} RepeatIsUniform<K>(calls: Calls<K>, c: Call<K>, n: nat, skew: real, last: real)
    requires c.limit >= 0 && Uniform(calls, c.limit, c.seconds, skew, last)
    requires skew >= 0.0 && c.now <= last <= c.now + skew
    ensures Uniform(Repeat(calls, c, n), c.limit, c.seconds, skew, last)
    decreases n
  {
    hide Uniform;
    if n > 0 {
      RepeatIsUniform(calls, c, n - 1, skew, last);
      OneMoreUniform(Repeat(calls, c, n - 1), c, skew, last, last);
    }
  }

  /** Calls made so far: the window of the key, its admissions in `[lo, hi)`, and the latest stamp. */
  ghost predicate Stands<K>(calls: Calls<K>, key: K, other: K, limit: nat, seconds: real, skew: real,
                            window: Option<Window>, seen: nat, last: real, lo: real, hi: real)
  {
    Reached(calls, key, other, window, seen, lo, hi) && Uniform(calls, limit, seconds, skew, last)
  }

  /** A call opens a window and `n` calls stamped `t` fit into it. */
  lemma OpenAndFill<K>(calls: Calls<K>, c: Call<K>, t: real, n: nat, other: K, skew: real, window: Option<Window>,
                       seen: nat, last: real, last': real, lo: real, hi: real) returns (more: Calls<K>)
    requires 1 + n <= c.limit && Stands(calls, c.key, other, c.limit, c.seconds, skew, window, seen, last, lo, hi)
    requires !Open(window, c.now) && t < c.now + c.seconds && skew >= 0.0
    requires last <= c.now + skew && last <= last' && c.now <= last' && t <= last' <= t + skew
    ensures Stands(more, c.key, other, c.limit, c.seconds, skew, Some(Window(c.now + c.seconds, 1 + n)),
                   seen + Hit(c, lo, hi) + (if lo <= t < hi then n else 0), last', lo, hi)
  {
    hide Reached, Uniform;
    var fill := c.(now := t);
    more := Repeat(calls + [c], fill, n);
    CallFits(calls, c, other, window, seen, lo, hi);
    CallsFit(calls + [c], fill, n, other, Window(c.now + c.seconds, 1), seen + Hit(c, lo, hi), lo, hi);
    OneMoreUniform(calls, c, skew, last, last');
    RepeatIsUniform(calls + [c], fill, n, skew, last');
  }

  /** A window filled near its end, and the next one filled at once: all in order. */
  lemma TwoWindows<K>(key: K, other: K, limit: nat, seconds: real, skew: real, early: real) returns (calls: Calls<K>)
    requires limit >= 1 && 0.0 < early < seconds && skew >= 0.0
    ensures var start := seconds - early;
            Stands(calls, key, other, limit, seconds, skew, Some(Window(2.0 * seconds, limit)), 2 * limit - 1, seconds,
                   start, start + seconds)
  {
    hide Stands;
    var start := seconds - early;
    var stop := start + seconds;
    NothingStands(key, other, limit, seconds, skew, start, stop);
    var first := OpenAndFill([], Call(key, limit, seconds, 0.0), start, limit - 1, other, skew, None, 0, 0.0, start,
                             start, stop);
    calls := OpenAndFill(first, Call(key, limit, seconds, seconds), seconds, limit - 1, other, skew,
                         Some(Window(seconds, limit)), limit - 1, start, seconds, start, stop);
    assert seconds + seconds == 2.0 * seconds;
  }

  lemma NothingStands<K>(key: K, other: K, limit: nat, seconds: real, skew: real, lo: real, hi: real)
    ensures Stands([], key, other, limit, seconds, skew, None, 0, 0.0, lo, hi)
  {
    NothingReached(key, other, lo, hi);
    NothingIsUniform<K>(limit, seconds, skew);
  }

  /** A call of the other key, after which the window of `key` is gone. */
  lemma OtherCloses<K>(calls: Calls<K>, key: K, c: Call<K>, skew: real, window: Window, seen: nat, last: real,
                       lo: real, hi: real)
    requires c.limit >= 0 && c.key != key && window.expires <= c.now && last <= c.now && skew >= 0.0
    requires Stands(calls, key, c.key, c.limit, c.seconds, skew, Some(window), seen, last, lo, hi)
    ensures Stands(calls + [c], key, c.key, c.limit, c.seconds, skew, None, seen, c.now, lo, hi)
  {
    hide Reached, Uniform;
    OtherCalls(calls, c, key, Some(window), seen, lo, hi);
    OneMoreUniform(calls, c, skew, last, c.now);
  }

  /** A third window, opened behind a call of another key that was ahead of its time, and filled at once. */
  lemma ThreeWindows<K>(key: K, other: K, limit: nat, seconds: real, skew: real) returns (calls: Calls<K>, start: real)
    requires key != other && limit >= 1 && seconds > 0.0 && skew > 0.0
    ensures SkewAtMost(calls, skew) && FixedRule(calls, key, limit, seconds)
    ensures Within(calls, key, seconds, start) == 3 * limit - 1
  {
    hide Stands;
    var late := if skew <= seconds / 2.0 then skew else seconds / 2.0;
    start := seconds - late / 2.0;
    var stop := start + seconds;
    var two := TwoWindows(key, other, limit, seconds, skew, late / 2.0);
    var ahead := Call(other, limit, seconds, 2.0 * seconds);
    OtherCloses(two, key, ahead, skew, Window(2.0 * seconds, limit), 2 * limit - 1, seconds, start, stop);
    var behind := Call(key, limit, seconds, 2.0 * seconds - late);
    calls := OpenAndFill(two + [ahead], behind, behind.now, limit - 1, other, skew, None, 2 * limit - 1, 2.0 * seconds,
                         2.0 * seconds, start, stop);
    SeenWithin(calls, key, other, limit, seconds, skew, Some(Window(behind.now + seconds, limit)), 3 * limit - 1,
               2.0 * seconds, start);
  }

  lemma SeenWithin<K>(calls: Calls<K>, key: K, other: K, limit: nat, seconds: real, skew: real, window: Option<Window>,
                      seen: nat, last: real, start: real)
    requires Stands(calls, key, other, limit, seconds, skew, window, seen, last, start, start + seconds)
        && seconds > 0.0
    ensures SkewAtMost(calls, skew) && FixedRule(calls, key, limit, seconds)
    ensures Within(calls, key, seconds, start) == seen
  {
  }

  ghost function RelayEnd(n: nat, seconds: real, gap: real): real {
    if n == 0 then 0.0 else Span(n - 1, gap) + seconds
  }

  /** Two keys in turn, each round behind the one before by less than a window: every call of the key opens a window. */
  lemma {:induction false} Relay<K>(key: K, other: K, limit: nat, seconds: real, late: real, skew: real, n: nat)
    returns (calls: Calls<K>)
    requires key != other && limit >= 1 && 0.0 < late <= seconds && late <= skew
    requires n > 0 ==> Span(n - 1, seconds - late) < seconds
    ensures Stands(calls, key, other, limit, seconds, skew, None, n, RelayEnd(n, seconds, seconds - late), 0.0, seconds)
    decreases n
  {
    hide Stands;
    if n == 0 {
      calls := [];
      NothingStands(key, other, limit, seconds, skew, 0.0, seconds);
    } else {
      var gap := seconds - late;
      var at := Span(n - 1, gap);
      if n > 1 {
        OneLess(n - 1, gap);
      }
      assert at >= 0.0;
      var before := Relay(key, other, limit, seconds, late, skew, n - 1);
      var last := RelayEnd(n - 1, seconds, gap);
      var c, d := Call(key, limit, seconds, at), Call(other, limit, seconds, at + seconds);
      var last' := if at <= last then last else at;
      RelayCall(before, c, other, skew, n - 1, last, last', seconds);
      calls := before + [c] + [d];
      OtherCloses(before + [c], key, d, skew, Window(at + seconds, 1), n, last', 0.0, seconds);
    }
  }

  lemma RelayCall<K>(calls: Calls<K>, c: Call<K>, other: K, skew: real, seen: nat, last: real, last': real, hi: real)
    requires c.limit >= 1 && Stands(calls, c.key, other, c.limit, c.seconds, skew, None, seen, last, 0.0, hi)
    requires skew >= 0.0 && last <= c.now + skew && last <= last' && c.now <= last' && 0.0 <= c.now < hi
    ensures Stands(calls + [c], c.key, other, c.limit, c.seconds, skew, Some(Window(c.now + c.seconds, 1)), seen + 1,
                   last', 0.0, hi)
  {
    hide Reached, Uniform;
    CallFits(calls, c, other, None, seen, 0.0, hi);
    OneMoreUniform(calls, c, skew, last, last');
  }

  // ---- The exact bounds ----

  /** In every run with at most this skew, a half-open interval of one window length sees at most `n` admissions. */
  ghost predicate Bounds<K(!new)>(key: K, limit: nat, seconds: real, skew: real, n: nat) {
    forall calls: Calls<K>, start: real | SkewAtMost(calls, skew) && FixedRule(calls, key, limit, seconds) ::
      Within(calls, key, seconds, start) <= n
  }

  lemma WindowsBound<K(!new)>(key: K, limit: nat, seconds: real, skew: real, m: nat)
    requires seconds > 0.0 && skew >= 0.0 && Span(m, seconds - skew) >= 2.0 * seconds + skew
    ensures Bounds(key, limit, seconds, skew, if limit == 0 then 0 else m * limit - 1)
  {
    hide Within;
    forall calls: Calls<K>, start: real | SkewAtMost(calls, skew) && FixedRule(calls, key, limit, seconds)
      ensures Within(calls, key, seconds, start) <= if limit == 0 then 0 else m * limit - 1
    {
      if limit == 0 {
        NoneWithin(calls, key, seconds, start);
      } else {
        FewerThanWindows(calls, key, limit, seconds, skew, start, m);
      }
    }
  }

  lemma NoneWithin<K>(calls: Calls<K>, key: K, seconds: real, start: real)
    requires FixedRule(calls, key, 0, seconds)
    ensures Within(calls, key, seconds, start) == 0
  {
    NoneAdmitted(calls, key, seconds, |calls|, start, start + seconds);
  }

  lemma LargerBounds<K(!new)>(key: K, limit: nat, seconds: real, skew: real, n: nat, m: nat)
    requires Bounds(key, limit, seconds, skew, n) && n <= m
    ensures Bounds(key, limit, seconds, skew, m)
  {
  }

  lemma Exceeds<K(!new)>(key: K, limit: nat, seconds: real, skew: real, calls: Calls<K>, start: real, n: nat)
    requires SkewAtMost(calls, skew) && FixedRule(calls, key, limit, seconds) && Within(calls, key, seconds, start) > n
    ensures !Bounds(key, limit, seconds, skew, n)
  {
  }

  /** With stamps in order, the bound is one less than twice the limit. */
  lemma BoundInOrder<K(!new)>(key: K, other: K, limit: nat, seconds: real, n: nat)
    requires key != other && limit >= 1 && seconds > 0.0
    ensures Bounds(key, limit, seconds, 0.0, n) <==> 2 * limit - 1 <= n
  {
    hide Bounds, Stands;
    if 2 * limit - 1 <= n {
      WindowsBound(key, limit, seconds, 0.0, 2);
      LargerBounds(key, limit, seconds, 0.0, 2 * limit - 1, n);
    } else {
      var early := seconds / 2.0;
      var calls := TwoWindows(key, other, limit, seconds, 0.0, early);
      SeenWithin(calls, key, other, limit, seconds, 0.0, Some(Window(2.0 * seconds, limit)), 2 * limit - 1, seconds,
                 seconds - early);
      Exceeds(key, limit, seconds, 0.0, calls, seconds - early, n);
    }
  }

  /** With stamps out of order by up to a quarter of a window, it is one less than three times the limit. */
  lemma BoundOutOfOrder<K(!new)>(key: K, other: K, limit: nat, seconds: real, skew: real, n: nat)
    requires key != other && limit >= 1 && 0.0 < skew <= seconds / 4.0
    ensures Bounds(key, limit, seconds, skew, n) <==> 3 * limit - 1 <= n
  {
    hide Bounds;
    if 3 * limit - 1 <= n {
      assert Span(3, seconds - skew) >= 2.0 * seconds + skew;
      WindowsBound(key, limit, seconds, skew, 3);
      LargerBounds(key, limit, seconds, skew, 3 * limit - 1, n);
    } else {
      var calls, start := ThreeWindows(key, other, limit, seconds, skew);
      Exceeds(key, limit, seconds, skew, calls, start, n);
    }
  }

  /** There is some bound for all runs exactly when the skew is shorter than a window. */
  lemma BoundedExactly<K(!new)>(key: K, other: K, limit: nat, seconds: real, skew: real)
    requires key != other && seconds > 0.0 && skew >= 0.0
    ensures (exists n :: Bounds(key, limit, seconds, skew, n)) <==> limit == 0 || skew < seconds
  {
    hide Bounds, Stands;
    if limit == 0 {
      NothingAdmitted(key, seconds, skew);
    } else if skew < seconds {
      var m := EnoughWindows(2.0 * seconds + skew, seconds - skew);
      WindowsBound(key, limit, seconds, skew, m);
      assert Bounds(key, limit, seconds, skew, m * limit - 1);
    } else {
      forall n: nat ensures !Bounds(key, limit, seconds, skew, n) {
        var calls := Relay(key, other, limit, seconds, seconds, skew, n + 1);
        SeenWithin(calls, key, other, limit, seconds, skew, None, n + 1, RelayEnd(n + 1, seconds, seconds - seconds),
            0.0);
        Exceeds(key, limit, seconds, skew, calls, 0.0, n);
      }
    }
  }

  lemma NothingAdmitted<K(!new)>(key: K, seconds: real, skew: real)
    ensures Bounds(key, 0, seconds, skew, 0)
  {
    hide Within;
    forall calls: Calls<K>, start: real | SkewAtMost(calls, skew) && FixedRule(calls, key, 0, seconds)
      ensures Within(calls, key, seconds, start) <= 0
    {
      NoneWithin(calls, key, seconds, start);
    }
  }

  lemma EnoughWindows(length: real, gap: real) returns (m: nat)
    requires length > 0.0 && gap > 0.0
    ensures Span(m, gap) >= length
  {
    var q := length / gap;
    assert q > 0.0 && q * gap == length;
    m := q.Floor + 1;
    assert m as real >= q;
  }

  /** Twice the limit bounds every run exactly in these cases. */
  lemma TwiceTheLimitExactly<K(!new)>(key: K, other: K, limit: nat, seconds: real, skew: real)
    requires key != other && seconds > 0.0 && skew >= 0.0
    ensures Bounds(key, limit, seconds, skew, 2 * limit)
       <==> limit == 0 || skew == 0.0 || (limit == 1 && 2.0 * skew <= seconds)
  {
    hide Bounds, Stands;
    if limit == 0 {
      NothingAdmitted(key, seconds, skew);
    } else if skew == 0.0 {
      BoundInOrder(key, other, limit, seconds, 2 * limit);
    } else if limit > 1 {
      var calls, start := ThreeWindows(key, other, limit, seconds, skew);
      Exceeds(key, limit, seconds, skew, calls, start, 2 * limit);
    } else if 2.0 * skew <= seconds {
      TwoOfOne(key, seconds, skew);
    } else {
      var late := if skew <= seconds then skew else seconds;
      assert Span(2, seconds - late) < seconds;
      var calls := Relay(key, other, 1, seconds, late, skew, 3);
      SeenWithin(calls, key, other, 1, seconds, skew, None, 3, RelayEnd(3, seconds, seconds - late), 0.0);
      Exceeds(key, 1, seconds, skew, calls, 0.0, 2);
    }
  }

  lemma TwoOfOne<K(!new)>(key: K, seconds: real, skew: real)
    requires 0.0 <= 2.0 * skew <= seconds && seconds > 0.0
    ensures Bounds(key, 1, seconds, skew, 2)
  {
    hide Within;
    forall calls: Calls<K>, start: real | SkewAtMost(calls, skew) && FixedRule(calls, key, 1, seconds)
      ensures Within(calls, key, seconds, start) <= 2
    {
      if Within(calls, key, seconds, start) > 0 {
        var i := FromItsOpener(calls, key, 1, seconds, start);
        assert Span(2, seconds - skew) >= seconds;
        OnlyOpeners(calls, key, seconds, skew, i, 2, start, start + seconds);
      }
    }
  }
}
