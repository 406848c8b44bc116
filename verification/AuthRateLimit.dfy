/** The sliding-window limiter of the login endpoints. It keeps only the hits still inside the
    window; the laws compare it with a limiter that keeps the whole history. */
module {:induction false} AuthRateLimit {
  datatype Verdict = Accepted(remaining: nat) | Denied(retryAfterSec: int)

  /** A fixed limiter setting. */
  datatype Limit = Limit(windowMs: int, max: int)

  type Buckets = map<string, seq<int>>

  predicate IsSpace(c: char) {
    c in " \t\n\r"
  }

  function TrimStart(s: string): string {
    if s != "" && IsSpace(s[0]) then TrimStart(s[1..]) else s
  }

  function TrimEnd(s: string): string {
    if s != "" && IsSpace(s[|s| - 1]) then TrimEnd(s[..|s| - 1]) else s
  }

  /** The bucket a client key stands for. */
  function IdOf(key: string): string {
    var t := TrimEnd(TrimStart(key));
    if t == "" then "unknown" else t
  }

  function Prune(hits: seq<int>, floor: int): (r: seq<int>)
    ensures |r| <= |hits|
  {
    if hits == [] then []
    else
      var rest := Prune(hits[..|hits| - 1], floor);
      if hits[|hits| - 1] > floor then rest + [hits[|hits| - 1]] else rest
  }

  function Hits(b: Buckets, id: string): seq<int> {
    if id in b then b[id] else []
  }

  /** Whole seconds, rounded up. */
  function CeilSec(ms: int): int {
    -((-ms) / 1000)
  }

  function RetryAfter(hits: seq<int>, now: int, windowMs: int): int {
    var oldest := if hits == [] then now else hits[0];
    var sec := CeilSec(oldest + windowMs - now);
    if sec < 1 then 1 else sec
  }

  /** One attempt of bucket `id`. */
  function Consumed(b: Buckets, id: string, now: int, l: Limit): (Buckets, Verdict) {
    var hits := Prune(Hits(b, id), now - l.windowMs);
    if |hits| >= l.max then (b[id := hits], Denied(RetryAfter(hits, now, l.windowMs)))
    else (b[id := hits + [now]], Accepted(if l.max > |hits| + 1 then l.max - |hits| - 1 else 0))
  }

  class AuthRateLimiter {
    var buckets: Buckets

    constructor ()
      ensures buckets == map[]
    {
      buckets := map[];
    }

    method Reset()
      modifies this
      ensures buckets == map[]
    {
      buckets := map[];
    }

    method ConsumeAuthRateLimit(key: string, now: int, l: Limit) returns (v: Verdict)
      modifies this
      ensures (buckets, v) == Consumed(old(buckets), IdOf(key), now, l)
    {
      var id := IdOf(key);
      var hits := if id in buckets then buckets[id] else [];
      hits := Prune(hits, now - l.windowMs);
      if |hits| >= l.max {
        buckets := buckets[id := hits];
        return Denied(RetryAfter(hits, now, l.windowMs));
      }
      hits := hits + [now];
      buckets := buckets[id := hits];
      v := Accepted(if l.max > |hits| then l.max - |hits| else 0);
    }
  }

  // ---- runs and the full history ----

  datatype Attempt = Attempt(id: string, now: int)

  /** The buckets after a sequence of attempts. */
  function After(h: seq<Attempt>, l: Limit): Buckets {
    if h == [] then map[]
    else var a := h[|h| - 1]; Consumed(After(h[..|h| - 1], l), a.id, a.now, l).0
  }

  /** The limiter's answer to one more attempt. */
  function Answer(h: seq<Attempt>, a: Attempt, l: Limit): Verdict {
    Consumed(After(h, l), a.id, a.now, l).1
  }

  /** The reference: every accepted attempt of `id` is kept for ever, and an attempt is accepted
      when fewer than `max` of them lie inside the window before it. */
  function Times(h: seq<Attempt>, id: string, l: Limit): seq<int> {
    if h == [] then []
    else
      var a, past := h[|h| - 1], Times(h[..|h| - 1], id, l);
      if a.id == id && |Prune(past, a.now - l.windowMs)| < l.max then past + [a.now] else past
  }

  /** The clock never goes back, and none of the attempts is later than `now`. */
  predicate Clock(h: seq<Attempt>, now: int)
    decreases |h|
  {
    h == [] || (h[|h| - 1].now <= now && Clock(h[..|h| - 1], h[|h| - 1].now))
  }

  // ---- pruning ----

  lemma PruneTwice(hits: seq<int>, low: int, high: int)
    requires low <= high
    ensures Prune(Prune(hits, low), high) == Prune(hits, high)
    decreases |hits|
  {
    if hits != [] {
      var last, front := hits[|hits| - 1], hits[..|hits| - 1];
      PruneTwice(front, low, high);
      if last > low {
        PruneAppend(Prune(front, low), last, high);
      }
    }
  }

  lemma PruneAppend(hits: seq<int>, t: int, floor: int)
    ensures Prune(hits + [t], floor) == Prune(hits, floor) + (if t > floor then [t] else [])
  {
    assert (hits + [t])[..|hits|] == hits;
  }

  lemma PruneShrinks(hits: seq<int>, low: int, high: int)
    requires low <= high
    ensures |Prune(hits, high)| <= |Prune(hits, low)|
  {
    PruneTwice(hits, low, high);
  }

  // ---- refinement ----

  /** One more attempt, of this bucket or another. */
  lemma AppendedAgrees(past: seq<Attempt>, a: Attempt, id: string, l: Limit, f: int, floor: int)
    requires f == (if a.id == id then a.now - l.windowMs else floor) && f <= floor
    requires Prune(Hits(After(past, l), id), f) == Prune(Times(past, id, l), f)
    ensures Prune(Hits(After(past + [a], l), id), floor) == Prune(Times(past + [a], id, l), floor)
  {
    if a.id == id {
      OwnAttempt(past, a, l);
      AttemptAgrees(Hits(After(past, l), id), Times(past, id, l), f, floor, a.now);
    } else {
      OtherAttempt(past, a, id, l);
    }
  }

  /** From the last attempt on, bucket and full history agree on every window still to come. */
  lemma BucketIsHistory(h: seq<Attempt>, id: string, l: Limit, now: int, floor: int)
    requires Clock(h, now) && floor >= now - l.windowMs
    ensures Prune(Hits(After(h, l), id), floor) == Prune(Times(h, id, l), floor)
    decreases |h|
  {
    if h != [] {
      var a, past := h[|h| - 1], h[..|h| - 1];
      var f := if a.id == id then a.now - l.windowMs else floor;
      assert past + [a] == h;
      assert Prune(Hits(After(past, l), id), f) == Prune(Times(past, id, l), f) by {
        BucketIsHistory(past, id, l, a.now, f);
      }
      AppendedAgrees(past, a, id, l, f, floor);
    }
  }

  /** Lists that agree above `f` still agree above a later floor, with or without one more time. */
  lemma AttemptAgrees(hits: seq<int>, times: seq<int>, f: int, floor: int, now: int)
    requires Prune(hits, f) == Prune(times, f) && f <= floor
    ensures Prune(Prune(hits, f), floor) == Prune(times, floor)
    ensures Prune(Prune(hits, f) + [now], floor) == Prune(times + [now], floor)
  {
    PruneTwice(times, f, floor);
    PruneAppend(Prune(hits, f), now, floor);
    PruneAppend(times, now, floor);
  }

  lemma OwnAttempt(past: seq<Attempt>, a: Attempt, l: Limit)
    ensures var hits, times := Prune(Hits(After(past, l), a.id), a.now - l.windowMs), Times(past, a.id, l);
            && Hits(After(past + [a], l), a.id) == (if |hits| < l.max then hits + [a.now] else hits)
            && Times(past + [a], a.id, l)
               == (if |Prune(times, a.now - l.windowMs)| < l.max then times + [a.now] else times)
  {
    assert (past + [a])[..|past|] == past;
  }

  lemma OtherAttempt(past: seq<Attempt>, a: Attempt, id: string, l: Limit)
    requires a.id != id
    ensures Hits(After(past + [a], l), id) == Hits(After(past, l), id) && Times(past + [a], id, l) == Times(past, id, l)
  {
    assert (past + [a])[..|past|] == past;
  }

  lemma Judged(b: Buckets, a: Attempt, l: Limit, hits: seq<int>)
    requires hits == Prune(Hits(b, a.id), a.now - l.windowMs)
    ensures Consumed(b, a.id, a.now, l).1.Accepted? <==> |hits| < l.max
  {
  }

  /** The hits an attempt finds, the same in bucket and history. */
  lemma FoundHits(h: seq<Attempt>, id: string, now: int, l: Limit) returns (hits: seq<int>)
    requires Clock(h, now)
    ensures hits == Prune(Times(h, id, l), now - l.windowMs) && hits == Prune(Hits(After(h, l), id), now - l.windowMs)
  {
    hits := Prune(Times(h, id, l), now - l.windowMs);
    BucketIsHistory(h, id, l, now, now - l.windowMs);
  }

  /** An attempt is accepted exactly when fewer than `max` accepted attempts of its bucket lie in
      the window that ends now. */
  lemma AcceptedIff(h: seq<Attempt>, a: Attempt, l: Limit)
    requires Clock(h, a.now)
    ensures Answer(h, a, l).Accepted? <==> |Prune(Times(h, a.id, l), a.now - l.windowMs)| < l.max
  {
    var hits := FoundHits(h, a.id, a.now, l);
    Judged(After(h, l), a, l, hits);
  }

  /** What an accepted attempt is told: how many more would be accepted in this window. */
  lemma RemainingIsExact(h: seq<Attempt>, a: Attempt, l: Limit)
    requires Clock(h, a.now) && Answer(h, a, l).Accepted?
    ensures Answer(h, a, l).remaining == l.max - |Prune(Times(h, a.id, l), a.now - l.windowMs)| - 1
  {
    AcceptedIff(h, a, l);
    var hits := FoundHits(h, a.id, a.now, l);
  }

  // ---- no window holds too many ----

  function CountIn(times: seq<int>, low: int, high: int): nat {
    if times == [] then 0
    else CountIn(times[..|times| - 1], low, high) + (if low < times[|times| - 1] <= high then 1 else 0)
  }

  lemma CountIsPruned(times: seq<int>, low: int, high: int)
    ensures CountIn(times, low, high) <= |Prune(times, low)|
    decreases |times|
  {
    if times != [] {
      CountIsPruned(times[..|times| - 1], low, high);
    }
  }

  /** No window of the given length, wherever it ends, holds more than `max` accepted attempts. */
  lemma WindowsAreBounded(h: seq<Attempt>, id: string, l: Limit, now: int, end: int)
    requires Clock(h, now) && l.max >= 0
    ensures CountIn(Times(h, id, l), end - l.windowMs, end) <= l.max
    decreases |h|
  {
    if h != [] {
      var a, past := h[|h| - 1], h[..|h| - 1];
      var times := Times(past, id, l);
      WindowsAreBounded(past, id, l, a.now, end);
      assert (times + [a.now])[..|times|] == times;
      if a.now <= end {
        CountIsPruned(times, end - l.windowMs, end);
        PruneShrinks(times, a.now - l.windowMs, end - l.windowMs);
      }
    }
  }

  // ---- keys do not interfere ----

  function Only(h: seq<Attempt>, id: string): seq<Attempt> {
    if h == [] then []
    else
      var rest := Only(h[..|h| - 1], id);
      if h[|h| - 1].id == id then rest + [h[|h| - 1]] else rest
  }

  /** The bucket of a key is what its own attempts alone would have left. */
  lemma OthersLeaveNoTrace(h: seq<Attempt>, id: string, l: Limit)
    ensures Hits(After(h, l), id) == Hits(After(Only(h, id), l), id)
    decreases |h|
  {
    if h != [] {
      var a, past := h[|h| - 1], h[..|h| - 1];
      OthersLeaveNoTrace(past, id, l);
      assert h == past + [a];
      if a.id == id {
        OwnAttempt(past, a, l);
        OwnAttempt(Only(past, id), a, l);
      } else {
        OtherAttempt(past, a, id, l);
      }
    }
  }

  /** So its answers are those of a limiter that only it uses. */
  lemma AnswersIgnoreOthers(h: seq<Attempt>, a: Attempt, l: Limit)
    ensures Answer(h, a, l) == Answer(Only(h, a.id), a, l)
  {
    OthersLeaveNoTrace(h, a.id, l);
  }

  // ---- which attempts share a bucket ----

  /** No blank at either end. */
  predicate Trimmed(s: string) {
    s != "" && !IsSpace(s[0]) && !IsSpace(s[|s| - 1])
  }

  predicate Blank(s: string) {
    forall i | 0 <= i < |s| :: IsSpace(s[i])
  }

  lemma TrimStartIs(front: string, s: string)
    requires Blank(front) && (s == "" || !IsSpace(s[0]))
    ensures TrimStart(front + s) == s
    decreases |front|
  {
    if front == "" {
      assert front + s == s;
    } else {
      assert (front + s)[1..] == front[1..] + s && IsSpace(front[0]);
      TrimStartIs(front[1..], s);
    }
  }

  lemma TrimEndIs(s: string, back: string)
    requires Blank(back) && (s == "" || !IsSpace(s[|s| - 1]))
    ensures TrimEnd(s + back) == s
    decreases |back|
  {
    if back == "" {
      assert s + back == s;
    } else {
      var n := |back| - 1;
      assert (s + back)[..|s + back| - 1] == s + back[..n] && IsSpace(back[n]);
      TrimEndIs(s, back[..n]);
    }
  }

  /** Blanks around a key do not matter, and blank keys are all one bucket. */
  lemma BucketOf(front: string, key: string, back: string)
    requires Blank(front) && Blank(back)
    ensures Trimmed(key) ==> IdOf(front + key + back) == key
    ensures IdOf(front) == "unknown"
  {
    if Trimmed(key) {
      assert front + key + back == front + (key + back);
      TrimStartIs(front, key + back);
      TrimEndIs(key, back);
    }
    assert front + "" == front;
    TrimStartIs(front, "");
    TrimEndIs("", "");
    assert "" + "" == "";
  }

  /** Two clients share a bucket exactly when their keys are the same but for blanks around them. */
  lemma SameBucketIff(front1: string, key1: string, back1: string, front2: string, key2: string, back2: string)
    requires Blank(front1) && Blank(back1) && Blank(front2) && Blank(back2) && Trimmed(key1) && Trimmed(key2)
    ensures IdOf(front1 + key1 + back1) == IdOf(front2 + key2 + back2) <==> key1 == key2
  {
    BucketOf(front1, key1, back1);
    BucketOf(front2, key2, back2);
  }

  // ---- the retry hint ----

  /** In ascending order, and nothing above `cap`. */
  predicate Ascending(s: seq<int>, cap: int)
    decreases |s|
  {
    s == [] || (s[|s| - 1] <= cap && Ascending(s[..|s| - 1], s[|s| - 1]))
  }

  lemma AscendingUnder(s: seq<int>, low: int, cap: int)
    requires Ascending(s, low) && low <= cap
    ensures Ascending(s, cap)
  {
  }

  /** Accepted times come in order, none later than the history. */
  lemma TimesAscend(h: seq<Attempt>, id: string, l: Limit, now: int)
    requires Clock(h, now)
    ensures Ascending(Times(h, id, l), now)
    decreases |h|
  {
    if h != [] {
      var a, past := h[|h| - 1], h[..|h| - 1];
      var times := Times(past, id, l);
      TimesAscend(past, id, l, a.now);
      AscendingUnder(times, a.now, now);
      assert (times + [a.now])[..|times|] == times;
    }
  }

  lemma PruneAscends(s: seq<int>, cap: int, floor: int)
    requires Ascending(s, cap)
    ensures Ascending(Prune(s, floor), cap)
    decreases |s|
  {
    if s != [] {
      var last, front := s[|s| - 1], s[..|s| - 1];
      PruneAscends(front, last, floor);
      AscendingUnder(Prune(front, floor), last, cap);
      assert (Prune(front, floor) + [last])[..|Prune(front, floor)|] == Prune(front, floor);
    }
  }

  /** Nothing is pruned when the first time stays. */
  lemma PruneKeepsAll(s: seq<int>, cap: int, floor: int)
    requires Ascending(s, cap) && s != [] && s[0] > floor
    ensures Prune(s, floor) == s && s[|s| - 1] >= s[0]
    decreases |s|
  {
    if |s| > 1 {
      PruneKeepsAll(s[..|s| - 1], s[|s| - 1], floor);
    }
  }

  lemma PruneIsAbove(s: seq<int>, floor: int)
    ensures forall t <- Prune(s, floor) :: t > floor
    decreases |s|
  {
    if s != [] {
      PruneIsAbove(s[..|s| - 1], floor);
    }
  }

  lemma PruneLosesFirst(hits: seq<int>, floor: int)
    requires hits != [] && hits[0] <= floor
    ensures |Prune(hits, floor)| < |hits|
    decreases |hits|
  {
    if |hits| > 1 {
      PruneLosesFirst(hits[..|hits| - 1], floor);
    }
  }

  /** The bucket never holds more than `max` hits. */
  lemma BucketIsSmall(h: seq<Attempt>, id: string, l: Limit)
    requires l.max >= 0
    ensures |Hits(After(h, l), id)| <= l.max
    decreases |h|
  {
    if h != [] {
      BucketIsSmall(h[..|h| - 1], id, l);
    }
  }

  /** The hint, for the hits a denial found. */
  lemma HintIs(hits: seq<int>, now: int, windowMs: int)
    requires hits != [] && hits[0] > now - windowMs
    ensures RetryAfter(hits, now, windowMs) == CeilSec(hits[0] + windowMs - now)
  {
    CeilSecIff(hits[0] + windowMs - now, 0);
  }

  lemma DeniedAnswer(h: seq<Attempt>, a: Attempt, l: Limit)
    requires l.max >= 0 && Answer(h, a, l).Denied?
    ensures var hits := Prune(Hits(After(h, l), a.id), a.now - l.windowMs);
            |hits| == l.max && Answer(h, a, l) == Denied(RetryAfter(hits, a.now, l.windowMs))
  {
    BucketIsSmall(h, a.id, l);
  }

  /** A denial finds a full bucket, and its hint is the time until the first hit leaves. */
  lemma DeniedHits(h: seq<Attempt>, a: Attempt, l: Limit) returns (hits: seq<int>)
    requires l.max >= 1 && Clock(h, a.now) && Answer(h, a, l).Denied?
    ensures hits == Prune(Times(h, a.id, l), a.now - l.windowMs) && |hits| == l.max && Ascending(hits, a.now)
    ensures Answer(h, a, l) == Denied(CeilSec(hits[0] + l.windowMs - a.now))
  {
    hits := FoundHits(h, a.id, a.now, l);
    HitsAscend(h, a.id, a.now, l);
    DeniedAnswer(h, a, l);
    HintIs(hits, a.now, l.windowMs);
  }

  lemma HitsAscend(h: seq<Attempt>, id: string, now: int, l: Limit)
    requires Clock(h, now)
    ensures var hits := Prune(Times(h, id, l), now - l.windowMs);
            Ascending(hits, now) && (hits != [] ==> hits[0] > now - l.windowMs)
  {
    var times, floor := Times(h, id, l), now - l.windowMs;
    TimesAscend(h, id, l, now);
    PruneAscends(times, now, floor);
    PruneIsAbove(times, floor);
    assert Prune(times, floor) != [] ==> Prune(times, floor)[0] in Prune(times, floor);
  }

  lemma RoomIff(times: seq<int>, hits: seq<int>, cap: int, floor: int, later: int)
    requires hits == Prune(times, floor) && hits != [] && Ascending(hits, cap) && floor <= later
    ensures |Prune(times, later)| < |hits| <==> hits[0] <= later
  {
    PruneTwice(times, floor, later);
    FullAgainIff(hits, cap, later);
  }

  lemma AcceptedLater(all: seq<Attempt>, hits: seq<int>, b: Attempt, now: int, l: Limit) returns (accepted: bool)
    requires hits == Prune(Times(all, b.id, l), now - l.windowMs) && |hits| == l.max >= 1 && Ascending(hits, now)
    requires Clock(all, b.now) && now <= b.now
    ensures accepted == Answer(all, b, l).Accepted?
    ensures accepted <==> hits[0] <= b.now - l.windowMs
  {
    var n;
    accepted, n := InWindow(all, b, l);
    var m := FirstLeaves(Times(all, b.id, l), hits, now, now - l.windowMs, b.now - l.windowMs);
  }

  lemma FirstLeaves(times: seq<int>, hits: seq<int>, cap: int, floor: int, later: int) returns (n: nat)
    requires hits == Prune(times, floor) && hits != [] && Ascending(hits, cap) && floor <= later
    ensures n == |Prune(times, later)| && (n < |hits| <==> hits[0] <= later)
  {
    n := |Prune(times, later)|;
    RoomIff(times, hits, cap, floor, later);
  }

  lemma InWindow(all: seq<Attempt>, b: Attempt, l: Limit) returns (accepted: bool, n: nat)
    requires Clock(all, b.now)
    ensures accepted == Answer(all, b, l).Accepted? && n == |Prune(Times(all, b.id, l), b.now - l.windowMs)|
    ensures accepted <==> n < l.max
  {
    accepted := Answer(all, b, l).Accepted?;
    n := |Prune(Times(all, b.id, l), b.now - l.windowMs)|;
    AcceptedIff(all, b, l);
  }

  /** After a denial at `now`, and as long as nothing of the bucket is accepted, an attempt `k`
      whole seconds later is accepted exactly when `k` reaches the hint. */
  lemma RetryHintIsExact(h: seq<Attempt>, a: Attempt, more: seq<Attempt>, k: nat, l: Limit)
    requires l.max >= 1 && Clock(h + [a] + more, a.now + 1000 * k)
    requires Answer(h, a, l).Denied? && Times(h + [a] + more, a.id, l) == Times(h, a.id, l)
    ensures Answer(h + [a] + more, Attempt(a.id, a.now + 1000 * k), l).Accepted? <==> k >= Answer(h, a, l).retryAfterSec
  {
    var all := h + [a] + more;
    HistoryBefore(h, a, more, a.now + 1000 * k);
    var hits := DeniedHits(h, a, l);
    var sec := Answer(h, a, l).retryAfterSec;
    assert 1000 * k >= hits[0] + l.windowMs - a.now <==> k >= sec by {
      CeilSecIff(hits[0] + l.windowMs - a.now, k);
    }
    var accepted := AcceptedLater(all, hits, Attempt(a.id, a.now + 1000 * k), a.now, l);
  }

  /** A full bucket has room again exactly when its first hit has left the window. */
  lemma FullAgainIff(hits: seq<int>, cap: int, floor: int)
    requires Ascending(hits, cap) && hits != []
    ensures |Prune(hits, floor)| < |hits| <==> hits[0] <= floor
  {
    if hits[0] > floor {
      PruneKeepsAll(hits, cap, floor);
    } else {
      PruneLosesFirst(hits, floor);
    }
  }

  lemma HistoryBefore(h: seq<Attempt>, a: Attempt, more: seq<Attempt>, now: int)
    requires Clock(h + [a] + more, now)
    ensures Clock(h, a.now)
    decreases |more|
  {
    if more == [] {
      assert h + [a] + more == h + [a] && (h + [a])[..|h|] == h;
    } else {
      var rest := more[..|more| - 1];
      assert (h + [a] + more)[..|h| + 1 + |rest|] == h + [a] + rest;
      HistoryBefore(h, a, rest, more[|more| - 1].now);
    }
  }

  lemma CeilSecIff(ms: int, k: nat)
    ensures 1000 * k >= ms <==> k >= CeilSec(ms)
  {
  }
}
