/** The login throttle: a sliding-window failure count with opportunistic purging and a
    conditional clear, and the history it stands for. */
module Throttle {
  import opened Outcomes
  import opened Text
  import opened Seqs
  import opened Emails

  datatype Pair = Pair(ip: string, email: string)

  datatype Failure = Failure(pair: Pair, at: int)

  /** What the wrapped authenticator answers. */
  datatype Verdict = Accepted | InvalidCredentials | OtherError

  datatype Outcome = Throttled | Answered(verdict: Verdict)

  function Since(p: Pair, since: int): Failure -> bool { (r: Failure) => r.pair == p && r.at >= since }

  function NotOf(p: Pair): Failure -> bool { (r: Failure) => r.pair != p }

  function NotBefore(cutoff: int): Failure -> bool { (r: Failure) => r.at >= cutoff }

  function CountSince(rows: seq<Failure>, p: Pair, since: int): nat { |Filter(rows, Since(p, since))| }

  /** Client address and email as the throttle keys them; a missing or empty address is
      "unknown". */
  function KeyOf(clientIp: Option<string>, email: string): Pair {
    Pair(if clientIp.None? || clientIp.value == "" then "unknown" else clientIp.value, NormalizeEmail(email))
  }

  predicate Tracked(p: Pair) { |p.email| <= MAX_EMAIL_LENGTH }

  /** One attempt: `t1` is the clock at the count and `t2` the clock at a failure. */
  function AttemptTx(rows: seq<Failure>, p: Pair, t1: int, t2: int, verdict: Verdict, max: nat, window: int)
    : (seq<Failure>, Outcome)
  {
    if !Tracked(p) then (rows, Answered(verdict))
    else
      var failures := CountSince(rows, p, t1 - window);
      if failures >= max then (rows, Throttled)
      else
        match verdict
        case InvalidCredentials =>
          (Filter(rows + [Failure(p, t2)], NotBefore(t2 - window)), Answered(verdict))
        case Accepted => (if failures > 0 then Filter(rows, NotOf(p)) else rows, Answered(verdict))
        case OtherError => (rows, Answered(verdict))
  }

  class LoginAttemptRepo {
    var rows: seq<Failure>

    constructor ()
      ensures rows == []
    {
      rows := [];
    }

    method RecordFailure(ip: string, email: string, at: int)
      modifies this
      ensures rows == old(rows) + [Failure(Pair(ip, NormalizeEmail(email)), at)]
    {
      rows := rows + [Failure(Pair(ip, NormalizeEmail(email)), at)];
    }

    method CountFailures(ip: string, email: string, since: int) returns (n: nat)
      ensures n == CountSince(rows, Pair(ip, NormalizeEmail(email)), since)
    {
      var key := Pair(ip, NormalizeEmail(email));
      n := 0;
      for i := 0 to |rows|
        invariant n == CountSince(rows[..i], key, since)
      {
        assert rows[..i + 1] == rows[..i] + [rows[i]];
        FilterAppend(rows[..i], [rows[i]], Since(key, since));
        if rows[i].pair == key && rows[i].at >= since {
          n := n + 1;
        }
      }
      assert rows[..|rows|] == rows;
    }

    method Clear(ip: string, email: string)
      modifies this
      ensures rows == Filter(old(rows), NotOf(Pair(ip, NormalizeEmail(email))))
    {
      rows := Filter(rows, NotOf(Pair(ip, NormalizeEmail(email))));
    }

    method PurgeBefore(cutoff: int) returns (removed: nat)
      modifies this
      ensures rows == Filter(old(rows), NotBefore(cutoff)) && removed == |old(rows)| - |rows|
    {
      var kept := Filter(rows, NotBefore(cutoff));
      FilterShrinks(rows, NotBefore(cutoff));
      removed := |rows| - |kept|;
      rows := kept;
    }
  }


  class ThrottledAuthenticator {
    const attempts: LoginAttemptRepo
    const maxFailures: nat
    const window: int

    constructor (attempts: LoginAttemptRepo, maxFailures: nat, window: int)
      requires maxFailures >= 1 && window >= 1
      ensures this.attempts == attempts && this.maxFailures == maxFailures && this.window == window
    {
      this.attempts := attempts;
      this.maxFailures := maxFailures;
      this.window := window;
    }

    method Authenticate(email: string, clientIp: Option<string>, verdict: Verdict, t1: int, t2: int)
      returns (r: Outcome)
      modifies attempts
      ensures (attempts.rows, r)
           == AttemptTx(old(attempts.rows), KeyOf(clientIp, email), t1, t2, verdict, maxFailures, window)
    {
      var key := NormalizeEmail(email);
      NormalizeIdempotent(email);
      if |key| > MAX_EMAIL_LENGTH {
        return Answered(verdict);
      }
      var ip := if clientIp.None? || clientIp.value == "" then "unknown" else clientIp.value;
      var failures := attempts.CountFailures(ip, key, t1 - window);
      if failures >= maxFailures {
        return Throttled;
      }
      if verdict == InvalidCredentials {
        attempts.RecordFailure(ip, key, t2);
        var _ := attempts.PurgeBefore(t2 - window);
      } else if verdict == Accepted && failures > 0 {
        attempts.Clear(ip, key);
      }
      r := Answered(verdict);
    }
  }

  /** One attempt of a sequential run. */
  datatype Login = Login(pair: Pair, t1: int, t2: int, verdict: Verdict)

  /** The clock never runs backwards, within an attempt or between attempts. */
  ghost predicate Monotone(h: seq<Login>) {
    && (forall i :: 0 <= i < |h| ==> h[i].t1 <= h[i].t2)
    && (forall i, j :: 0 <= i < j < |h| ==> h[i].t2 <= h[j].t1)
  }

  /** The store after a run. */
  function StoreAfter(h: seq<Login>, max: nat, window: int): seq<Failure> {
    if h == [] then []
    else
      var last := h[|h| - 1];
      AttemptTx(StoreAfter(h[..|h| - 1], max, window), last.pair, last.t1, last.t2, last.verdict, max, window).0
  }

  /** What the throttle answers an attempt made after a run. */
  function Decision(h: seq<Login>, next: Login, max: nat, window: int): Outcome {
    AttemptTx(StoreAfter(h, max, window), next.pair, next.t1, next.t2, next.verdict, max, window).1
  }

  function CountFrom(times: seq<int>, since: int): nat {
    if times == [] then 0 else (if times[0] >= since then 1 else 0) + CountFrom(times[1..], since)
  }

  /** One attempt of the history: a throttled one is not there at all, a failure adds its time
      and a success starts the pair's list over. */
  function TimesAfter(times: seq<int>, last: Login, p: Pair, max: nat, window: int): seq<int> {
    if last.pair != p || !Tracked(p) || CountFrom(times, last.t1 - window) >= max then times
    else
      match last.verdict
      case Accepted => []
      case InvalidCredentials => times + [last.t2]
      case OtherError => times
  }

  /** The history the throttle stands for, with no store, no purging and no clearing: the
      times of the pair's failures since its last success. */
  function FailuresSinceSuccess(h: seq<Login>, p: Pair, max: nat, window: int): seq<int> {
    if h == [] then []
    else
      var before, last := h[..|h| - 1], h[|h| - 1];
      TimesAfter(FailuresSinceSuccess(before, p, max, window), last, p, max, window)
  }

  lemma {:induction false} CountFromAppend(times: seq<int>, t: int, since: int)
    ensures CountFrom(times + [t], since) == CountFrom(times, since) + if t >= since then 1 else 0
  {
    if times != [] {
      assert (times + [t])[1..] == times[1..] + [t];
      CountFromAppend(times[1..], t, since);
    }
  }

  ghost predicate AllBefore(times: seq<int>, bound: int) {
    forall i :: 0 <= i < |times| ==> times[i] < bound
  }

  lemma {:induction false} CountFromNone(times: seq<int>, since: int)
    requires AllBefore(times, since)
    ensures CountFrom(times, since) == 0
  {
    if times != [] {
      CountFromNone(times[1..], since);
    }
  }

  lemma CountAppend(rows: seq<Failure>, r: Failure, p: Pair, since: int)
    ensures CountSince(rows + [r], p, since)
         == CountSince(rows, p, since) + if r.pair == p && r.at >= since then 1 else 0
  {
    FilterAppend(rows, [r], Since(p, since));
  }

  /** Purging loses no row a later count could see. */
  lemma {:induction false} PurgeUnseen(rows: seq<Failure>, cutoff: int, p: Pair, since: int)
    requires since >= cutoff
    ensures CountSince(Filter(rows, NotBefore(cutoff)), p, since) == CountSince(rows, p, since)
  {
    if rows != [] {
      PurgeUnseen(rows[1..], cutoff, p, since);
      assert rows == [rows[0]] + rows[1..];
      FilterAppend(if rows[0].at >= cutoff then [rows[0]] else [], Filter(rows[1..], NotBefore(cutoff)), Since(p, since));
    }
  }

  lemma {:induction false} ClearedCount(rows: seq<Failure>, cleared: Pair, p: Pair, since: int)
    ensures CountSince(Filter(rows, NotOf(cleared)), p, since)
         == if p == cleared then 0 else CountSince(rows, p, since)
  {
    if rows != [] {
      ClearedCount(rows[1..], cleared, p, since);
      FilterAppend(if rows[0].pair != cleared then [rows[0]] else [], Filter(rows[1..], NotOf(cleared)), Since(p, since));
    }
  }

  lemma {:induction false} CountMonotone(rows: seq<Failure>, p: Pair, since: int, later: int)
    requires since <= later
    ensures CountSince(rows, p, later) <= CountSince(rows, p, since)
  {
    if rows != [] {
      CountMonotone(rows[1..], p, since, later);
    }
  }

  function EndOf(h: seq<Login>): int
    requires h != []
  {
    h[|h| - 1].t2
  }

  /** One attempt keeps every count a later attempt can ask for equal to the history's. */
  lemma StepAgrees(rows: seq<Failure>, times: seq<int>, last: Login, p: Pair, since: int, max: nat, window: int)
    requires Tracked(p) && Tracked(last.pair) && last.t1 <= last.t2 && since >= last.t2 - window
    requires CountSince(rows, p, since) == CountFrom(times, since)
    requires last.pair == p ==> CountSince(rows, p, last.t1 - window) == CountFrom(times, last.t1 - window)
    ensures CountSince(AttemptTx(rows, last.pair, last.t1, last.t2, last.verdict, max, window).0, p, since)
         == CountFrom(TimesAfter(times, last, p, max, window), since)
  {
    hide CountSince;
    if CountSince(rows, last.pair, last.t1 - window) < max {
      if last.verdict == InvalidCredentials {
        CountAppend(rows, Failure(last.pair, last.t2), p, since);
        PurgeUnseen(rows + [Failure(last.pair, last.t2)], last.t2 - window, p, since);
        CountFromAppend(times, last.t2, since);
      } else if last.verdict == Accepted {
        ClearedCount(rows, last.pair, p, since);
        CountMonotone(rows, p, last.t1 - window, since);
      }
    }
  }

  lemma {:induction false} StoreAgrees(h: seq<Login>, p: Pair, since: int, max: nat, window: int)
    requires Monotone(h) && (h != [] ==> since >= EndOf(h) - window) && Tracked(p)
    ensures CountSince(StoreAfter(h, max, window), p, since)
         == CountFrom(FailuresSinceSuccess(h, p, max, window), since)
  {
    if h != [] {
      var before, last := h[..|h| - 1], h[|h| - 1];
      assert last.t1 <= last.t2;
      assert before != [] ==> EndOf(before) <= last.t1;
      StoreAgrees(before, p, since, max, window);
      if Tracked(last.pair) {
        StoreAgrees(before, p, last.t1 - window, max, window);
        StepAgrees(StoreAfter(before, max, window), FailuresSinceSuccess(before, p, max, window),
                   last, p, since, max, window);
      }
    }
  }

  lemma MonotonePrefix(h: seq<Login>, next: Login)
    requires Monotone(h + [next])
    ensures Monotone(h) && next.t1 <= next.t2 && (h != [] ==> EndOf(h) <= next.t1)
  {
    assert forall i :: 0 <= i < |h| ==> (h + [next])[i] == h[i];
    assert (h + [next])[|h|] == next;
  }

  /** Sequential refinement: over any run of a non-decreasing clock, an attempt is throttled
      exactly when at least the limit of its pair's failures since the last success are no
      older than the window.  Purging and the skipped clear change no decision. */
  lemma ThrottleIsHistory(h: seq<Login>, next: Login, max: nat, window: int)
    requires Monotone(h + [next])
    ensures Decision(h, next, max, window)
         == if Tracked(next.pair)
               && CountFrom(FailuresSinceSuccess(h, next.pair, max, window), next.t1 - window) >= max
            then Throttled else Answered(next.verdict)
  {
    hide FailuresSinceSuccess, StoreAfter, CountSince, CountFrom, Filter;
    MonotonePrefix(h, next);
    if Tracked(next.pair) {
      StoreAgrees(h, next.pair, next.t1 - window, max, window);
    }
  }

  /** Throttling is not locking: once the clock has passed every failure of the pair by more
      than the window, the pair is admitted, whatever happened before. */
  lemma AdmittedAfterWindow(h: seq<Login>, next: Login, max: nat, window: int)
    requires Monotone(h + [next]) && max >= 1
    requires AllBefore(FailuresSinceSuccess(h, next.pair, max, window), next.t1 - window)
    ensures Decision(h, next, max, window) == Answered(next.verdict)
  {
    hide FailuresSinceSuccess, StoreAfter, AttemptTx;
    ThrottleIsHistory(h, next, max, window);
    CountFromNone(FailuresSinceSuccess(h, next.pair, max, window), next.t1 - window);
  }

  /** A throttled attempt leaves no trace, so retrying cannot extend the delay, and other pairs
      are never affected by it. */
  lemma ThrottledLeavesNoTrace(h: seq<Login>, next: Login, max: nat, window: int)
    requires Monotone(h + [next]) && Decision(h, next, max, window) == Throttled
    ensures StoreAfter(h + [next], max, window) == StoreAfter(h, max, window)
    ensures forall p :: FailuresSinceSuccess(h + [next], p, max, window) == FailuresSinceSuccess(h, p, max, window)
  {
    ThrottleIsHistory(h, next, max, window);
    MonotonePrefix(h, next);
    assert (h + [next])[..|h|] == h;
    hide CountSince, CountFrom, Filter;
  }

  /** One attempt as it is typed: the address of the client, if known, and the email as given. */
  datatype Try = Try(email: string, clientIp: Option<string>, t1: int, t2: int, verdict: Verdict)

  function LoginOf(a: Try): Login { Login(KeyOf(a.clientIp, a.email), a.t1, a.t2, a.verdict) }

  function LoginsOf(tries: seq<Try>): (h: seq<Login>)
    ensures |h| == |tries| && forall i :: 0 <= i < |tries| ==> h[i] == LoginOf(tries[i])
  {
    seq(|tries|, i requires 0 <= i < |tries| => LoginOf(tries[i]))
  }

  /** A client the throttle cannot tell from others: no address, an empty one, or the very word
      kept for those. */
  predicate Anonymous(clientIp: Option<string>) {
    clientIp.None? || clientIp.value == "" || clientIp.value == "unknown"
  }

  /** Two attempts share a record: the same client address, or both anonymous, and the same
      letters of the email up to case and surrounding spaces. */
  predicate SameParty(a: Try, b: Try) {
    && (a.clientIp == b.clientIp || (Anonymous(a.clientIp) && Anonymous(b.clientIp)))
    && SameLetters(Strip(a.email), Strip(b.email))
  }

  lemma KeysAgree(a: Try, b: Try)
    ensures KeyOf(a.clientIp, a.email) == KeyOf(b.clientIp, b.email) <==> SameParty(a, b)
  {
    FoldMeans(Strip(a.email), Strip(b.email));
    hide Strip, Fold, SameLetters;
  }

  /** The clock does not run back, within an attempt or between two. */
  ghost predicate InOrder(tries: seq<Try>) {
    && (forall i :: 0 <= i < |tries| ==> tries[i].t1 <= tries[i].t2)
    && (forall i, j :: 0 <= i < j < |tries| ==> tries[i].t2 <= tries[j].t1)
  }

  /** The rows after a run of the authenticator's attempts. */
  function RowsAfter(tries: seq<Try>, max: nat, window: int): seq<Failure> {
    if tries == [] then []
    else
      var last := tries[|tries| - 1];
      AttemptTx(RowsAfter(tries[..|tries| - 1], max, window), KeyOf(last.clientIp, last.email),
                last.t1, last.t2, last.verdict, max, window).0
  }

  function Answer(tries: seq<Try>, next: Try, max: nat, window: int): Outcome {
    AttemptTx(RowsAfter(tries, max, window), KeyOf(next.clientIp, next.email), next.t1, next.t2, next.verdict, max, window).1
  }

  function OwnAfter(times: seq<int>, last: Try, who: Try, max: nat, window: int): seq<int> {
    if !SameParty(last, who) || CountFrom(times, last.t1 - window) >= max then times
    else
      match last.verdict
      case Accepted => []
      case InvalidCredentials => times + [last.t2]
      case OtherError => times
  }

  /** The times of the failures of a party's attempts since its last success, straight from the
      attempts: others are passed over, and so is one that finds the limit reached. */
  function OwnFailures(tries: seq<Try>, who: Try, max: nat, window: int): seq<int> {
    if tries == [] then []
    else
      OwnAfter(OwnFailures(tries[..|tries| - 1], who, max, window), tries[|tries| - 1], who, max, window)
  }

  lemma {:induction false} RowsAreStore(tries: seq<Try>, max: nat, window: int)
    ensures RowsAfter(tries, max, window) == StoreAfter(LoginsOf(tries), max, window)
  {
    if tries != [] {
      RowsAreStore(tries[..|tries| - 1], max, window);
      assert LoginsOf(tries)[..|tries| - 1] == LoginsOf(tries[..|tries| - 1]);
      hide AttemptTx;
    }
  }

  lemma {:induction false} OwnAreFailures(tries: seq<Try>, who: Try, max: nat, window: int)
    requires |Strip(who.email)| <= 254
    ensures OwnFailures(tries, who, max, window)
         == FailuresSinceSuccess(LoginsOf(tries), KeyOf(who.clientIp, who.email), max, window)
  {
    hide OwnAfter, TimesAfter;
    if tries != [] {
      var last := tries[|tries| - 1];
      OwnAreFailures(tries[..|tries| - 1], who, max, window);
      assert LoginsOf(tries)[..|tries| - 1] == LoginsOf(tries[..|tries| - 1]);
      OwnStep(OwnFailures(tries[..|tries| - 1], who, max, window), last, who, max, window);
    }
  }

  lemma OwnStep(times: seq<int>, last: Try, who: Try, max: nat, window: int)
    requires |Strip(who.email)| <= 254
    ensures OwnAfter(times, last, who, max, window)
         == TimesAfter(times, LoginOf(last), KeyOf(who.clientIp, who.email), max, window)
  {
    KeysAgree(last, who);
    TrackedIff(who);
    hide SameParty, CountFrom, KeyOf;
  }

  lemma TrackedIff(a: Try)
    ensures Tracked(KeyOf(a.clientIp, a.email)) <==> |Strip(a.email)| <= 254
  {
  }

  lemma InOrderIsMonotone(tries: seq<Try>, next: Try)
    requires InOrder(tries + [next])
    ensures Monotone(LoginsOf(tries) + [LoginOf(next)])
  {
    assert LoginsOf(tries + [next]) == LoginsOf(tries) + [LoginOf(next)];
    forall i, j | 0 <= i < j < |tries + [next]|
      ensures LoginsOf(tries + [next])[i].t2 <= LoginsOf(tries + [next])[j].t1
    {
      assert (tries + [next])[i].t2 <= (tries + [next])[j].t1;
    }
  }

  /** The throttle as its callers see it: an attempt is refused exactly when its email is short
      enough to be tracked and at least the limit of its own party's failures since that party's
      last success are no older than the window. */
  lemma ThrottledByOwnFailures(tries: seq<Try>, next: Try, max: nat, window: int)
    requires InOrder(tries + [next])
    ensures Answer(tries, next, max, window)
         == if |Strip(next.email)| <= 254 && CountFrom(OwnFailures(tries, next, max, window), next.t1 - window) >= max
            then Throttled else Answered(next.verdict)
  {
    hide FailuresSinceSuccess, StoreAfter, AttemptTx, RowsAfter, OwnFailures, CountFrom, Monotone, KeyOf, Tracked, InOrder;
    InOrderIsMonotone(tries, next);
    RowsAreStore(tries, max, window);
    TrackedIff(next);
    ThrottleIsHistory(LoginsOf(tries), LoginOf(next), max, window);
    if |Strip(next.email)| <= 254 {
      OwnAreFailures(tries, next, max, window);
    }
  }

  function PartyOf(who: Try): Try -> bool { (a: Try) => SameParty(a, who) }

  lemma {:induction false} OwnAttemptsOnly(tries: seq<Try>, who: Try, max: nat, window: int)
    ensures OwnFailures(tries, who, max, window) == OwnFailures(Filter(tries, PartyOf(who)), who, max, window)
  {
    hide OwnAfter, SameParty, PartyOf, Filter;
    if tries != [] {
      var before, last := tries[..|tries| - 1], tries[|tries| - 1];
      OwnAttemptsOnly(before, who, max, window);
      assert tries == before + [last];
      FilterAppend(before, [last], PartyOf(who));
      OneKept(last, who);
      var mine := Filter(before, PartyOf(who));
      assert (mine + [last])[..|mine|] == mine && mine + [] == mine;
      PassedOver(OwnFailures(before, who, max, window), last, who, max, window);
    } else {
      FilterNone(tries, PartyOf(who));
    }
  }

  lemma PassedOver(times: seq<int>, last: Try, who: Try, max: nat, window: int)
    ensures !SameParty(last, who) ==> OwnAfter(times, last, who, max, window) == times
  {
  }

  lemma OneKept(a: Try, who: Try)
    ensures Filter([a], PartyOf(who)) == if SameParty(a, who) then [a] else []
  {
    hide SameParty;
  }

  /** Other parties never matter: two runs with the same attempts of a party answer its next
      attempt alike, whatever clients at other addresses or with other emails did. */
  lemma OthersNeverMatter(a: seq<Try>, b: seq<Try>, next: Try, max: nat, window: int)
    requires InOrder(a + [next]) && InOrder(b + [next])
    requires Filter(a, PartyOf(next)) == Filter(b, PartyOf(next))
    ensures Answer(a, next, max, window) == Answer(b, next, max, window)
  {
    hide Answer, OwnFailures, Filter;
    ThrottledByOwnFailures(a, next, max, window);
    ThrottledByOwnFailures(b, next, max, window);
    OwnAttemptsOnly(a, next, max, window);
    OwnAttemptsOnly(b, next, max, window);
  }

  /** Clients without an address share one record, and a client at any other address never
      shares theirs or another's. */
  lemma PartiesByAddress(a: Try, b: Try)
    requires SameLetters(Strip(a.email), Strip(b.email))
    ensures Anonymous(a.clientIp) && Anonymous(b.clientIp) ==> SameParty(a, b)
    ensures !Anonymous(a.clientIp) && a.clientIp != b.clientIp ==> !SameParty(a, b)
  {
  }
}
