/** The throttle under concurrency: every await of an attempt is a point where others run. */
module ThrottleRace {
  import opened Seqs
  import opened Throttle

  /** Where one attempt stands; `t1` is the clock it read before counting. */
  datatype Stage =
    | Arrived
    | Timed(t1: int)
    | Inside(t1: int, failures: nat)
    | Rejected(t1: int)
    | Stamped(t1: int, at: int)
    | Purging(at: int)
    | Clearing

  datatype Attempt = Attempt(pair: Pair, stage: Stage)

  datatype State = State(rows: seq<Failure>, now: int, running: map<nat, Attempt>)

  datatype Limits = Limits(max: nat, window: int, inFlight: nat)

  /** An attempt arrives, time passes, or one attempt runs to its next await; the verdict is
      what the wrapped authenticator answers, and only matters there. */
  datatype Event = Arrive(id: nat, pair: Pair) | Pass(elapsed: nat) | Turn(id: nat, verdict: Verdict)

  function Start(now: int): State { State([], now, map[]) }

  function InFlight(s: State, p: Pair): set<nat> {
    set id | id in s.running && s.running[id].pair == p
  }

  function Move(s: State, id: nat, stage: Stage): State
    requires id in s.running
  {
    s.(running := s.running[id := Attempt(s.running[id].pair, stage)])
  }

  function Leave(s: State, id: nat): State { s.(running := s.running - {id}) }

  function StepOf(s: State, id: nat, verdict: Verdict, l: Limits): State
    requires id in s.running
  {
    var p := s.running[id].pair;
    match s.running[id].stage
    case Arrived => Move(s, id, Timed(s.now))
    case Timed(t1) =>
      var failures := CountSince(s.rows, p, t1 - l.window);
      if failures >= l.max then Leave(s, id) else Move(s, id, Inside(t1, failures))
    case Inside(t1, failures) =>
      (match verdict
       case InvalidCredentials => Move(s, id, Rejected(t1))
       case Accepted => if failures > 0 then Move(s, id, Clearing) else Leave(s, id)
       case OtherError => Leave(s, id))
    case Rejected(t1) => Move(s, id, Stamped(t1, s.now))
    case Stamped(_, at) => Move(s, id, Purging(at)).(rows := s.rows + [Failure(p, at)])
    case Purging(at) => Leave(s, id).(rows := Filter(s.rows, NotBefore(at - l.window)))
    case Clearing => Leave(s, id).(rows := Filter(s.rows, NotOf(p)))
  }

  /** At most `inFlight` attempts of one pair run at a time. */
  function Apply(s: State, ev: Event, l: Limits): State {
    match ev
    case Arrive(id, p) =>
      if id !in s.running && Tracked(p) && |InFlight(s, p)| < l.inFlight
      then s.(running := s.running[id := Attempt(p, Arrived)])
      else s
    case Pass(elapsed) => s.(now := s.now + elapsed)
    case Turn(id, verdict) => if id in s.running then StepOf(s, id, verdict, l) else s
  }

  function Exec(s: State, events: seq<Event>, l: Limits): State {
    if events == [] then s
    else Apply(Exec(s, events[..|events| - 1], l), events[|events| - 1], l)
  }

  /** Stored failures of the pair inside the closed window starting at `from`. */
  function InWindow(p: Pair, from: int, window: int): Failure -> bool {
    (r: Failure) => r.pair == p && from <= r.at <= from + window
  }

  function Stored(s: State, p: Pair, from: int, l: Limits): nat {
    |Filter(s.rows, InWindow(p, from, l.window))|
  }

  /** Attempts that were admitted and could still record a failure inside that window. */
  predicate Pending(a: Attempt, p: Pair, from: int, window: int) {
    a.pair == p && (a.stage.Inside? || a.stage.Rejected? || a.stage.Stamped?) && a.stage.t1 <= from + window
  }

  function PendingIn(s: State, p: Pair, from: int, l: Limits): set<nat> {
    set id | id in s.running && Pending(s.running[id], p, from, l.window)
  }

  ghost predicate TimesOk(s: State) {
    forall id :: id in s.running ==>
      match s.running[id].stage
      case Timed(t1) => t1 <= s.now
      case Inside(t1, _) => t1 <= s.now
      case Rejected(t1) => t1 <= s.now
      case Stamped(t1, at) => t1 <= at <= s.now
      case _ => true
  }

  ghost predicate Bounded(s: State, p: Pair, from: int, l: Limits) {
    Stored(s, p, from, l) + |PendingIn(s, p, from, l)| <= l.max - 1 + l.inFlight
  }

  ghost predicate Inv(s: State, l: Limits) {
    && TimesOk(s)
    && (forall p :: |InFlight(s, p)| <= l.inFlight)
    && (forall p, from :: Bounded(s, p, from, l))
  }

  /** One attempt with nothing else in between but the time it takes. */
  function AttemptAlone(s: State, id: nat, p: Pair, verdict: Verdict, elapsed: nat, l: Limits): State {
    Recorded(Apply(AnsweredAlone(s, id, p, verdict, l), Pass(elapsed), l), id, verdict, l)
  }

  function AnsweredAlone(s: State, id: nat, p: Pair, verdict: Verdict, l: Limits): State {
    var turn := Turn(id, verdict);
    Apply(Apply(Apply(Apply(s, Arrive(id, p), l), turn, l), turn, l), turn, l)
  }

  function Recorded(s: State, id: nat, verdict: Verdict, l: Limits): State {
    var turn := Turn(id, verdict);
    Apply(Apply(Apply(s, turn, l), turn, l), turn, l)
  }

  function AtStage(s: State, id: nat, p: Pair, stage: Stage): State {
    s.(running := s.running[id := Attempt(p, stage)])
  }

  function AfterStage(s: State, id: nat, p: Pair, stage: Stage, verdict: Verdict, l: Limits): State {
    match stage
    case Arrived => AtStage(s, id, p, Timed(s.now))
    case Timed(t1) =>
      var failures := CountSince(s.rows, p, t1 - l.window);
      if failures >= l.max then s else AtStage(s, id, p, Inside(t1, failures))
    case Inside(t1, failures) =>
      if verdict == InvalidCredentials then AtStage(s, id, p, Rejected(t1))
      else if verdict == Accepted && failures > 0 then AtStage(s, id, p, Clearing)
      else s
    case Rejected(t1) => AtStage(s, id, p, Stamped(t1, s.now))
    case Stamped(_, at) => AtStage(s.(rows := s.rows + [Failure(p, at)]), id, p, Purging(at))
    case Purging(at) => s.(rows := Filter(s.rows, NotBefore(at - l.window)))
    case Clearing => s.(rows := Filter(s.rows, NotOf(p)))
  }

  lemma TurnAt(s: State, id: nat, p: Pair, stage: Stage, verdict: Verdict, l: Limits)
    requires id !in s.running
    ensures Apply(AtStage(s, id, p, stage), Turn(id, verdict), l) == AfterStage(s, id, p, stage, verdict, l)
    ensures Apply(s, Turn(id, verdict), l) == s
  {
    hide CountSince, Filter;
    assert s.running[id := Attempt(p, stage)] - {id} == s.running;
    var at := AtStage(s, id, p, stage);
    var next := AfterStage(s, id, p, stage, verdict, l);
    assert Apply(at, Turn(id, verdict), l) == StepOf(at, id, verdict, l);
    if stage.Arrived? || stage.Rejected? || stage.Stamped? || next != s {
      assert forall x: Stage :: at.running[id := Attempt(p, x)] == s.running[id := Attempt(p, x)];
    }
  }

  lemma AnswersAlone(s: State, id: nat, p: Pair, verdict: Verdict, l: Limits)
    requires id !in s.running && Tracked(p) && |InFlight(s, p)| < l.inFlight
    ensures var failures := CountSince(s.rows, p, s.now - l.window);
            AnsweredAlone(s, id, p, verdict, l)
            == if failures >= l.max then s else AfterStage(s, id, p, Inside(s.now, failures), verdict, l)
  {
    assert Apply(s, Arrive(id, p), l) == AtStage(s, id, p, Arrived);
    hide Apply, InFlight, CountSince, Filter, AtStage;
    var failures := CountSince(s.rows, p, s.now - l.window);
    TurnAt(s, id, p, Arrived, verdict, l);
    TurnAt(s, id, p, Timed(s.now), verdict, l);
    TurnAt(s, id, p, Inside(s.now, failures), verdict, l);
  }

  lemma RecordsAlone(s: State, id: nat, p: Pair, verdict: Verdict, t1: int, l: Limits)
    requires id !in s.running
    ensures Recorded(s, id, verdict, l) == s
    ensures Recorded(AtStage(s, id, p, Rejected(t1)), id, verdict, l)
         == s.(rows := Filter(s.rows + [Failure(p, s.now)], NotBefore(s.now - l.window)))
    ensures Recorded(AtStage(s, id, p, Clearing), id, verdict, l) == s.(rows := Filter(s.rows, NotOf(p)))
  {
    hide Apply, CountSince, Filter, AtStage;
    TurnAt(s, id, p, Rejected(t1), verdict, l);
    TurnAt(s, id, p, Stamped(t1, s.now), verdict, l);
    TurnAt(s.(rows := s.rows + [Failure(p, s.now)]), id, p, Purging(s.now), verdict, l);
    TurnAt(s, id, p, Clearing, verdict, l);
    TurnAt(s.(rows := Filter(s.rows, NotOf(p))), id, p, Arrived, verdict, l);
  }

  /** Run so, it does to the store what the whole call does: the race and the sequential throttle
      are one and the same. */
  lemma SoloAttempt(s: State, id: nat, p: Pair, verdict: Verdict, elapsed: nat, l: Limits)
    requires id !in s.running && Tracked(p) && |InFlight(s, p)| < l.inFlight
    ensures AttemptAlone(s, id, p, verdict, elapsed, l)
         == State(AttemptTx(s.rows, p, s.now, s.now + elapsed, verdict, l.max, l.window).0, s.now + elapsed, s.running)
  {
    hide InFlight, CountSince, Filter, AnsweredAlone, Recorded;
    AnswersAlone(s, id, p, verdict, l);
    RecordsAlone(s.(now := s.now + elapsed), id, p, verdict, s.now, l);
  }

  lemma Subsets(a: set<nat>, b: set<nat>)
    requires a <= b
    ensures |a| <= |b|
  {
    if a != b {
      assert b == a + (b - a);
      assert |b| == |a| + |b - a|;
    }
  }

  lemma {:induction false} FilterLonger(rows: seq<Failure>, p: Failure -> bool, q: Failure -> bool)
    requires forall r :: p(r) ==> q(r)
    ensures |Filter(rows, p)| <= |Filter(rows, q)|
  {
    if rows != [] {
      FilterLonger(rows[1..], p, q);
    }
  }

  lemma {:induction false} FilterTwice(rows: seq<Failure>, keep: Failure -> bool, q: Failure -> bool)
    ensures |Filter(Filter(rows, keep), q)| <= |Filter(rows, q)|
  {
    FilterSwap(rows, keep, q);
    FilterShrinks(Filter(rows, q), keep);
  }

  /** Admission: the count just taken bounds the rows of every window this attempt could still
      write into, so adding it to the pending ones stays within the limit. */
  lemma Admission(s: State, id: nat, l: Limits, p: Pair, from: int)
    requires Inv(s, l) && id in s.running && s.running[id].stage.Timed?
    requires CountSince(s.rows, s.running[id].pair, s.running[id].stage.t1 - l.window) < l.max
    ensures Bounded(StepOf(s, id, Accepted, l), p, from, l)
  {
    var s' := StepOf(s, id, Accepted, l);
    var t1 := s.running[id].stage.t1;
    assert Bounded(s, p, from, l);
    if s.running[id].pair == p && t1 <= from + l.window {
      FilterLonger(s.rows, InWindow(p, from, l.window), Since(p, t1 - l.window));
      assert PendingIn(s', p, from, l) <= InFlight(s, p);
      Subsets(PendingIn(s', p, from, l), InFlight(s, p));
    } else {
      assert PendingIn(s', p, from, l) == PendingIn(s, p, from, l);
    }
  }

  /** Recording: what leaves the pending attempts is all that can enter the window. */
  lemma Recording(s: State, id: nat, l: Limits, p: Pair, from: int)
    requires Inv(s, l) && id in s.running && s.running[id].stage.Stamped?
    ensures Bounded(StepOf(s, id, Accepted, l), p, from, l)
  {
    var s' := StepOf(s, id, Accepted, l);
    var row := Failure(s.running[id].pair, s.running[id].stage.at);
    assert Bounded(s, p, from, l);
    FilterAppend(s.rows, [row], InWindow(p, from, l.window));
    assert s.running[id].stage.t1 <= s.running[id].stage.at;
    if Pending(s.running[id], p, from, l.window) {
      assert PendingIn(s', p, from, l) == PendingIn(s, p, from, l) - {id};
      assert id in PendingIn(s, p, from, l);
    } else {
      assert PendingIn(s', p, from, l) == PendingIn(s, p, from, l);
    }
  }

  lemma PendingShrinks(s: State, id: nat, verdict: Verdict, l: Limits, p: Pair, from: int)
    requires id in s.running && !s.running[id].stage.Stamped?
    requires s.running[id].stage.Timed? ==>
               CountSince(s.rows, s.running[id].pair, s.running[id].stage.t1 - l.window) >= l.max
    ensures |PendingIn(StepOf(s, id, verdict, l), p, from, l)| <= |PendingIn(s, p, from, l)|
  {
    Subsets(PendingIn(StepOf(s, id, verdict, l), p, from, l), PendingIn(s, p, from, l));
  }

  /** Every other step only loses rows and pending attempts. */
  lemma OtherSteps(s: State, id: nat, verdict: Verdict, l: Limits, p: Pair, from: int)
    requires Inv(s, l) && id in s.running && !s.running[id].stage.Stamped?
    requires s.running[id].stage.Timed? ==>
               CountSince(s.rows, s.running[id].pair, s.running[id].stage.t1 - l.window) >= l.max
    ensures Bounded(StepOf(s, id, verdict, l), p, from, l)
  {
    var s' := StepOf(s, id, verdict, l);
    assert Bounded(s, p, from, l);
    PendingShrinks(s, id, verdict, l, p, from);
    hide Filter;
    if s.running[id].stage.Purging? {
      FilterTwice(s.rows, NotBefore(s.running[id].stage.at - l.window), InWindow(p, from, l.window));
    } else if s.running[id].stage.Clearing? {
      FilterTwice(s.rows, NotOf(s.running[id].pair), InWindow(p, from, l.window));
    }
  }

  lemma TurnKeeps(s: State, id: nat, verdict: Verdict, l: Limits)
    requires Inv(s, l) && id in s.running
    ensures Inv(StepOf(s, id, verdict, l), l)
  {
    hide Filter, Bounded;
    var s' := StepOf(s, id, verdict, l);
    forall p
      ensures |InFlight(s', p)| <= l.inFlight
    {
      assert InFlight(s', p) <= InFlight(s, p);
      Subsets(InFlight(s', p), InFlight(s, p));
    }
    forall p, from
      ensures Bounded(s', p, from, l)
    {
      var stage := s.running[id].stage;
      if stage.Stamped? {
        Recording(s, id, l, p, from);
      } else if stage.Timed? && CountSince(s.rows, s.running[id].pair, stage.t1 - l.window) < l.max {
        Admission(s, id, l, p, from);
      } else {
        OtherSteps(s, id, verdict, l, p, from);
      }
    }
  }

  /** What neither rows nor pending attempts can tell apart. */
  lemma SamePending(s: State, s': State, l: Limits)
    requires Inv(s, l) && s'.rows == s.rows
    requires forall p, from :: PendingIn(s', p, from, l) == PendingIn(s, p, from, l)
    ensures forall p, from :: Bounded(s', p, from, l)
  {
    hide Filter, PendingIn, InFlight;
    forall p, from
      ensures Bounded(s', p, from, l)
    {
      assert Bounded(s, p, from, l);
    }
  }

  lemma ArrivalSeen(s: State, s': State, id: nat, pair: Pair, p: Pair, from: int, l: Limits)
    requires id !in s.running && s' == s.(running := s.running[id := Attempt(pair, Arrived)])
    ensures InFlight(s', p) == if p == pair then InFlight(s, p) + {id} else InFlight(s, p)
    ensures PendingIn(s', p, from, l) == PendingIn(s, p, from, l)
  {
  }

  lemma ArriveKeeps(s: State, id: nat, pair: Pair, l: Limits)
    requires Inv(s, l)
    ensures Inv(Apply(s, Arrive(id, pair), l), l)
  {
    hide Filter, Bounded, InFlight, PendingIn;
    var s' := Apply(s, Arrive(id, pair), l);
    if s' != s {
      assert |InFlight(s, pair)| < l.inFlight;
      hide Apply, Tracked;
      forall p
        ensures |InFlight(s', p)| <= l.inFlight
      {
        ArrivalSeen(s, s', id, pair, p, 0, l);
      }
      forall p, from
        ensures PendingIn(s', p, from, l) == PendingIn(s, p, from, l)
      {
        ArrivalSeen(s, s', id, pair, p, from, l);
      }
      SamePending(s, s', l);
    }
  }

  lemma PassKeeps(s: State, elapsed: nat, l: Limits)
    requires Inv(s, l)
    ensures Inv(s.(now := s.now + elapsed), l)
  {
    hide Filter, Bounded;
    var s' := s.(now := s.now + elapsed);
    forall p
      ensures |InFlight(s', p)| <= l.inFlight
    {
      assert InFlight(s', p) == InFlight(s, p);
    }
    SamePending(s, s', l);
  }

  lemma StartIsOk(now: int, l: Limits)
    requires l.max >= 1
    ensures Inv(Start(now), l)
  {
  }

  lemma {:induction false} Reachable(start: int, events: seq<Event>, l: Limits)
    requires l.max >= 1
    ensures Inv(Exec(Start(start), events, l), l)
  {
    hide Inv;
    if events == [] {
      StartIsOk(start, l);
    } else {
      var before := Exec(Start(start), events[..|events| - 1], l);
      Reachable(start, events[..|events| - 1], l);
      match events[|events| - 1] {
        case Arrive(id, p) => ArriveKeeps(before, id, p, l);
        case Pass(elapsed) => PassKeeps(before, elapsed, l);
        case Turn(id, verdict) =>
          if id in before.running {
            TurnKeeps(before, id, verdict, l);
          }
      }
    }
  }

  /** The concurrent bound: with at most K attempts of a pair in flight, no window of the
      configured length ever holds more than max_failures - 1 + K stored failures of it. */
  lemma ConcurrentBound(start: int, events: seq<Event>, l: Limits, p: Pair, from: int)
    requires l.max >= 1
    ensures Stored(Exec(Start(start), events, l), p, from, l) <= l.max - 1 + l.inFlight
  {
    Reachable(start, events, l);
    assert Bounded(Exec(Start(start), events, l), p, from, l);
  }

  lemma ExecAppend(s: State, events: seq<Event>, ev: Event, l: Limits)
    ensures Exec(s, events + [ev], l) == Apply(Exec(s, events, l), ev, l)
  {
  }

  function Below(k: nat): (r: set<nat>)
    ensures |r| == k && forall id: nat :: id in r <==> id < k
  {
    if k == 0 then {} else Below(k - 1) + {k - 1}
  }

  function Same(n: nat, p: Pair, t: int): seq<Failure> { seq(n, _ => Failure(p, t)) }

  /** After `seed` earlier failures, all at one moment: of `k` attempts the first `done` have
      stored their failure, the others have been counted. */
  ghost predicate Midway(s: State, seed: nat, done: nat, k: nat, p: Pair, t: int) {
    && s.now == t && s.running.Keys == Below(k)
    && (forall id :: id in s.running ==> s.running[id] == Attempt(p, if id < done then Purging(t) else Inside(t, seed)))
    && s.rows == Same(seed + done, p, t)
  }

  lemma AllInWindow(n: nat, p: Pair, t: int, window: nat)
    ensures CountSince(Same(n, p, t), p, t - window) == n
    ensures Filter(Same(n, p, t), NotBefore(t - window)) == Same(n, p, t)
    ensures |Filter(Same(n, p, t), InWindow(p, t, window))| == n
  {
    FilterAll(Same(n, p, t), Since(p, t - window));
    FilterAll(Same(n, p, t), NotBefore(t - window));
    FilterAll(Same(n, p, t), InWindow(p, t, window));
  }

  lemma ArriveStep(s: State, k: nat, p: Pair, l: Limits)
    requires Tracked(p) && k < l.inFlight && s.running.Keys == Below(k)
    requires forall id :: id in s.running ==> s.running[id].pair == p
    ensures Apply(s, Arrive(k, p), l) == s.(running := s.running[k := Attempt(p, Arrived)])
  {
    assert InFlight(s, p) == Below(k);
  }

  lemma CountSteps(s: State, seed: nat, k: nat, p: Pair, l: Limits, t: int)
    requires seed < l.max && l.window >= 0 && s.now == t && s.rows == Same(seed, p, t)
    requires k in s.running && s.running[k] == Attempt(p, Arrived)
    ensures Apply(Apply(s, Turn(k, OtherError), l), Turn(k, OtherError), l)
         == s.(running := s.running[k := Attempt(p, Inside(t, seed))])
  {
    AllInWindow(seed, p, t, l.window);
    hide CountSince, Same, Filter;
    var timed := s.(running := s.running[k := Attempt(p, Timed(t))]);
    assert Apply(s, Turn(k, OtherError), l) == timed;
    assert timed.running[k := Attempt(p, Inside(t, seed))] == s.running[k := Attempt(p, Inside(t, seed))];
  }

  lemma AttemptCounted(s: State, seed: nat, k: nat, p: Pair, l: Limits, t: int)
    requires Tracked(p) && k < l.inFlight && seed < l.max && l.window >= 0 && Midway(s, seed, 0, k, p, t)
    ensures Midway(Apply(Apply(Apply(s, Arrive(k, p), l), Turn(k, OtherError), l), Turn(k, OtherError), l), seed, 0, k + 1, p, t)
  {
    hide Apply, Same, Below;
    var arrived := s.(running := s.running[k := Attempt(p, Arrived)]);
    ArriveStep(s, k, p, l);
    CountSteps(arrived, seed, k, p, l, t);
    var counted := arrived.(running := arrived.running[k := Attempt(p, Inside(t, seed))]);
    assert counted.running.Keys == Below(k + 1);
  }

  /** The purge that ends an attempt finds nothing old enough to remove. */
  lemma SeedPurged(s: State, seed: nat, p: Pair, l: Limits, t: int)
    requires seed >= 1 && l.window >= 0 && Midway(s, seed - 1, 1, 1, p, t)
    ensures Midway(Apply(s, Turn(0, InvalidCredentials), l), seed, 0, 0, p, t)
  {
    AllInWindow(seed, p, t, l.window);
    assert 0 in s.running && s.running[0] == Attempt(p, Purging(t));
    PurgeStep(s, 0, t, l);
    hide Apply, Same, Filter, Below;
    assert s.running.Keys - {0} == Below(0);
  }

  lemma PurgeStep(s: State, id: nat, t: int, l: Limits)
    requires id in s.running && s.running[id].stage == Purging(t)
    ensures Apply(s, Turn(id, InvalidCredentials), l)
         == State(Filter(s.rows, NotBefore(t - l.window)), s.now, s.running - {id})
  {
  }

  lemma AttemptStored(s: State, seed: nat, done: nat, k: nat, p: Pair, l: Limits, t: int)
    requires done < k && Midway(s, seed, done, k, p, t)
    ensures var turn := Turn(done, InvalidCredentials);
            Midway(Apply(Apply(Apply(s, turn, l), turn, l), turn, l), seed, done + 1, k, p, t)
  {
    hide Below, CountSince, Filter;
    var turn := Turn(done, InvalidCredentials);
    var rejected := s.(running := s.running[done := Attempt(p, Rejected(t))]);
    assert Apply(s, turn, l) == rejected;
    var stamped := rejected.(running := rejected.running[done := Attempt(p, Stamped(t, t))]);
    assert Apply(rejected, turn, l) == stamped;
    assert Apply(stamped, turn, l)
        == State(s.rows + [Failure(p, t)], t, stamped.running[done := Attempt(p, Purging(t))]);
    hide Apply;
    assert s.rows + [Failure(p, t)] == Same(seed + done + 1, p, t);
  }

  function ThreeMore(events: seq<Event>, a: Event, b: Event): seq<Event> { events + [a] + [b] + [b] }

  lemma ExecThreeMore(s: State, events: seq<Event>, a: Event, b: Event, l: Limits)
    ensures Exec(s, ThreeMore(events, a, b), l) == Apply(Apply(Apply(Exec(s, events, l), a, l), b, l), b, l)
  {
    ExecAppend(s, events, a, l);
    ExecAppend(s, events + [a], b, l);
    ExecAppend(s, events + [a] + [b], b, l);
  }

  lemma NothingYet(p: Pair, l: Limits, t: int)
    ensures Midway(Exec(Start(t), [], l), 0, 0, 0, p, t)
  {
  }

  lemma {:induction false} AllCounted(seed: nat, k: nat, p: Pair, l: Limits, t: int) returns (events: seq<Event>)
    requires Tracked(p) && 1 <= l.inFlight && k <= l.inFlight && seed < l.max && l.window >= 0
    ensures Midway(Exec(Start(t), events, l), seed, 0, k, p, t)
    decreases seed, k, 0
  {
    hide Midway, Apply, Exec;
    if k > 0 {
      events := AllCounted(seed, k - 1, p, l, t);
      AttemptCounted(Exec(Start(t), events, l), seed, k - 1, p, l, t);
      ExecThreeMore(Start(t), events, Arrive(k - 1, p), Turn(k - 1, OtherError), l);
      events := ThreeMore(events, Arrive(k - 1, p), Turn(k - 1, OtherError));
    } else if seed > 0 {
      events := AllStored(seed - 1, 1, 1, p, l, t);
      SeedPurged(Exec(Start(t), events, l), seed, p, l, t);
      ExecAppend(Start(t), events, Turn(0, InvalidCredentials), l);
      events := events + [Turn(0, InvalidCredentials)];
    } else {
      events := [];
      NothingYet(p, l, t);
    }
  }

  lemma {:induction false} AllStored(seed: nat, done: nat, k: nat, p: Pair, l: Limits, t: int) returns (events: seq<Event>)
    requires Tracked(p) && 1 <= l.inFlight && done <= k <= l.inFlight && seed < l.max && l.window >= 0
    ensures Midway(Exec(Start(t), events, l), seed, done, k, p, t)
    decreases seed, k, 1, done
  {
    hide Midway, Apply, Exec;
    if done == 0 {
      events := AllCounted(seed, k, p, l, t);
    } else {
      var turn := Turn(done - 1, InvalidCredentials);
      events := AllStored(seed, done - 1, k, p, l, t);
      AttemptStored(Exec(Start(t), events, l), seed, done - 1, k, p, l, t);
      ExecThreeMore(Start(t), events, turn, turn, l);
      events := ThreeMore(events, turn, turn);
    }
  }

  /** The bound cannot be lowered: for every limit and every number of attempts allowed in
      flight, some run stores exactly that many failures of a pair inside one window. */
  lemma BoundIsReached(p: Pair, l: Limits, t: int) returns (events: seq<Event>)
    requires Tracked(p) && l.max >= 1 && l.inFlight >= 1 && l.window >= 0
    ensures Stored(Exec(Start(t), events, l), p, t, l) == l.max - 1 + l.inFlight
  {
    events := AllStored(l.max - 1, l.inFlight, l.inFlight, p, l, t);
    AllInWindow(l.max - 1 + l.inFlight, p, t, l.window);
  }
}
