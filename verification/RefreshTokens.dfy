/** Refresh-token rotation: the in-memory repository, token families and revocation. */
module RefreshTokens {
  import opened Outcomes
  import opened Seqs

  datatype Record = Record(tokenHash: string, userId: int, familyId: int, familyCreatedAt: int,
                           issuedAt: int, expiresAt: int, usedAt: Option<int>, revokedAt: Option<int>)
  {
    predicate Live() { usedAt.None? && revokedAt.None? }

    function Revoked(now: int): Record { if revokedAt.None? then this.(revokedAt := Some(now)) else this }
  }

  type Records = map<string, Record>

  datatype RotationOutcome = Rotated | Reused | Invalid

  datatype RotationResult = RotationResult(outcome: RotationOutcome, previous: Option<Record>)

  /** What one revocation reaches: a rotation chain, or every session of a user. */
  datatype Scope = Family(familyId: int) | User(userId: int)

  predicate Covers(scope: Scope, r: Record) {
    match scope
    case Family(f) => r.familyId == f
    case User(u) => r.userId == u
  }

  function RotateTx(m: Records, presented: string, replacement: Record, now: int): (Records, RotationResult) {
    if presented !in m || m[presented].expiresAt <= now then (m, RotationResult(Invalid, None))
    else if !m[presented].Live() then (m, RotationResult(Reused, Some(m[presented])))
    else
      (m[presented := m[presented].(usedAt := Some(now))][replacement.tokenHash := replacement],
       RotationResult(Rotated, Some(m[presented])))
  }

  function RevokeTx(m: Records, scope: Scope, now: int): Records {
    map k | k in m :: if Covers(scope, m[k]) then m[k].Revoked(now) else m[k]
  }

  function PurgeTx(m: Records, now: int): Records {
    map k | k in m && m[k].expiresAt > now :: m[k]
  }

  lemma KeptByPurge(m: Records, expired: set<string>, left: Records, now: int)
    requires expired == set k | k in m && m[k].expiresAt <= now
    requires left.Keys == m.Keys - expired && forall k :: k in left ==> left[k] == m[k]
    ensures left == PurgeTx(m, now) && |left| == |m| - |expired|
  {
  }

  class FakeRefreshTokenRepo {
    var records: Records

    constructor ()
      ensures records == map[]
    {
      records := map[];
    }

    method Add(record: Record)
      modifies this
      ensures records == old(records)[record.tokenHash := record]
    {
      records := records[record.tokenHash := record];
    }

    method Rotate(presented: string, replacement: Record, now: int) returns (r: RotationResult)
      modifies this
      ensures (records, r) == RotateTx(old(records), presented, replacement, now)
      ensures presented !in old(records) || old(records)[presented].expiresAt <= now ==>
                r == RotationResult(Invalid, None) && records == old(records)
      ensures presented in old(records) && old(records)[presented].expiresAt > now ==>
                if old(records)[presented].usedAt.Some? || old(records)[presented].revokedAt.Some?
                then r == RotationResult(Reused, Some(old(records)[presented])) && records == old(records)
                else r == RotationResult(Rotated, Some(old(records)[presented]))
    {
      if presented !in records || records[presented].expiresAt <= now {
        return RotationResult(Invalid, None);
      }
      var record := records[presented];
      if record.usedAt.Some? || record.revokedAt.Some? {
        return RotationResult(Reused, Some(record));
      }
      records := records[presented := record.(usedAt := Some(now))];
      records := records[replacement.tokenHash := replacement];
      r := RotationResult(Rotated, Some(record));
    }

    method RevokeFamily(familyId: int, now: int)
      modifies this
      ensures records == RevokeTx(old(records), Family(familyId), now)
    {
      var todo := records.Keys;
      while todo != {}
        invariant todo <= records.Keys == old(records).Keys
        invariant forall k :: k in records ==>
                    records[k] == if k in todo then old(records)[k] else RevokeTx(old(records), Family(familyId), now)[k]
      {
        var key :| key in todo;
        if records[key].familyId == familyId && records[key].revokedAt.None? {
          records := records[key := records[key].(revokedAt := Some(now))];
        }
        todo := todo - {key};
      }
    }

    method RevokeAllForUser(userId: int, now: int)
      modifies this
      ensures records == RevokeTx(old(records), User(userId), now)
    {
      var todo := records.Keys;
      while todo != {}
        invariant todo <= records.Keys == old(records).Keys
        invariant forall k :: k in records ==>
                    records[k] == if k in todo then old(records)[k] else RevokeTx(old(records), User(userId), now)[k]
      {
        var key :| key in todo;
        if records[key].userId == userId && records[key].revokedAt.None? {
          records := records[key := records[key].(revokedAt := Some(now))];
        }
        todo := todo - {key};
      }
    }

    method PurgeExpired(now: int) returns (removed: nat)
      modifies this
      ensures records == PurgeTx(old(records), now)
      ensures removed == |old(records)| - |records|
    {
      hide PurgeTx;
      var expired := set k | k in records && records[k].expiresAt <= now;
      assert expired <= records.Keys;
      removed := |expired|;
      var todo := expired;
      while todo != {}
        invariant todo <= expired
        invariant records.Keys == old(records).Keys - (expired - todo)
        invariant forall k :: k in records ==> records[k] == old(records)[k]
      {
        var key :| key in todo;
        records := records - {key};
        todo := todo - {key};
      }
      KeptByPurge(old(records), expired, records, now);
    }
  }

  datatype Op =
    | AddToken(record: Record)
    | RotateToken(presented: string, replacement: Record, at: int)
    | Revoke(scope: Scope, at: int)
    | Purge(at: int)

  /** The records after one call, and the answer of a rotation. */
  function Do(m: Records, op: Op): (Records, seq<RotationResult>) {
    match op
    case AddToken(r) => (m[r.tokenHash := r], [])
    case RotateToken(p, r, now) => var (after, result) := RotateTx(m, p, r, now); (after, [result])
    case Revoke(scope, now) => (RevokeTx(m, scope, now), [])
    case Purge(now) => (PurgeTx(m, now), [])
  }

  /** Every rotation answer of a run, in order. */
  function Answers(m: Records, ops: seq<Op>): seq<RotationResult>
    decreases |ops|
  {
    if ops == [] then [] else Do(m, ops[0]).1 + Answers(Do(m, ops[0]).0, ops[1..])
  }

  predicate NotPurge(op: Op) { !op.Purge? }

  /** The clock readings of the calls never decrease, from `since` on. */
  predicate ClockFrom(ops: seq<Op>, since: int) {
    ops != [] ==>
      if ops[0].AddToken? then ClockFrom(ops[1..], since)
      else since <= ops[0].at && ClockFrom(ops[1..], ops[0].at)
  }

  /** The purged repository holds nothing the other does not. */
  ghost predicate OnlyLost(all: Records, purged: Records) {
    forall k :: k in purged ==> k in all && all[k] == purged[k]
  }

  /** No rotation of the run presents a token that a purge has lost and that is still good at
      that moment; one repository skips the purges, the other does them. */
  predicate MissesNone(all: Records, purged: Records, ops: seq<Op>)
    decreases |ops|
  {
    ops != [] ==>
      var op := ops[0];
      if op.Purge? then MissesNone(all, PurgeTx(purged, op.at), ops[1..])
      else !Missed(all, purged, op) && MissesNone(Do(all, op).0, Do(purged, op).0, ops[1..])
  }

  predicate Missed(all: Records, purged: Records, op: Op) {
    op.RotateToken? && op.presented in all && op.presented !in purged && all[op.presented].expiresAt > op.at
  }

  /** One call answers alike on both exactly when it misses no token. */
  lemma OneCall(all: Records, purged: Records, op: Op)
    requires OnlyLost(all, purged) && !op.Purge?
    ensures |Do(all, op).1| == |Do(purged, op).1|
    ensures Do(all, op).1 == Do(purged, op).1 <==> !Missed(all, purged, op)
    ensures !Missed(all, purged, op) ==> OnlyLost(Do(all, op).0, Do(purged, op).0)
  {
    if Missed(all, purged, op) {
      assert Do(purged, op).1[0].outcome == Invalid && Do(all, op).1[0].outcome != Invalid;
    }
  }

  lemma {:induction false} CoupledAnswers(all: Records, purged: Records, ops: seq<Op>)
    requires OnlyLost(all, purged)
    ensures Answers(all, Filter(ops, NotPurge)) == Answers(purged, ops) <==> MissesNone(all, purged, ops)
    decreases |ops|
  {
    if ops != [] {
      var op := ops[0];
      if op.Purge? {
        CoupledAnswers(all, PurgeTx(purged, op.at), ops[1..]);
        assert Filter(ops, NotPurge) == Filter(ops[1..], NotPurge);
        assert Answers(purged, ops) == [] + Answers(PurgeTx(purged, op.at), ops[1..]);
      } else {
        OneCall(all, purged, op);
        assert Filter(ops, NotPurge) == [op] + Filter(ops[1..], NotPurge);
        assert Filter(ops, NotPurge)[1..] == Filter(ops[1..], NotPurge);
        var (a, b) := (Answers(Do(all, op).0, Filter(ops[1..], NotPurge)), Answers(Do(purged, op).0, ops[1..]));
        assert Answers(all, Filter(ops, NotPurge)) == Do(all, op).1 + a;
        assert Answers(purged, ops) == Do(purged, op).1 + b;
        SameJoin(Do(all, op).1, a, Do(purged, op).1, b);
        if !Missed(all, purged, op) {
          CoupledAnswers(Do(all, op).0, Do(purged, op).0, ops[1..]);
        }
      }
    }
  }

  lemma SameJoin<T>(a: seq<T>, b: seq<T>, c: seq<T>, d: seq<T>)
    requires |a| == |c|
    ensures a + b == c + d <==> a == c && b == d
  {
    if a + b == c + d {
      assert (a + b)[..|a|] == a && (c + d)[..|c|] == c;
      assert (a + b)[|a|..] == b && (c + d)[|c|..] == d;
    }
  }

  /** Purging, exactly: a run answers every rotation as it would without its purges if and only
      if no rotation presents a token a purge has lost while it was still good. */
  lemma PurgeInvisibleIff(m: Records, ops: seq<Op>)
    ensures Answers(m, ops) == Answers(m, Filter(ops, NotPurge)) <==> MissesNone(m, m, ops)
  {
    CoupledAnswers(m, m, ops);
  }

  /** The purged repository has lost nothing but expired tokens. */
  ghost predicate LostOnlyExpired(all: Records, purged: Records, now: int) {
    OnlyLost(all, purged) && forall k :: k in all && k !in purged ==> all[k].expiresAt <= now
  }

  lemma SameCallSameLoss(all: Records, purged: Records, op: Op, now: int)
    requires LostOnlyExpired(all, purged, now)
    requires !op.Purge? && (op.AddToken? || now <= op.at)
    ensures !Missed(all, purged, op)
    ensures LostOnlyExpired(Do(all, op).0, Do(purged, op).0, if op.AddToken? then now else op.at)
  {
  }

  lemma {:induction false} ClockMissesNone(all: Records, purged: Records, ops: seq<Op>, now: int)
    requires LostOnlyExpired(all, purged, now) && ClockFrom(ops, now)
    ensures MissesNone(all, purged, ops)
    decreases |ops|
  {
    if ops != [] {
      var op := ops[0];
      if op.Purge? {
        ClockMissesNone(all, PurgeTx(purged, op.at), ops[1..], op.at);
      } else {
        SameCallSameLoss(all, purged, op, now);
        ClockMissesNone(Do(all, op).0, Do(purged, op).0, ops[1..], if op.AddToken? then now else op.at);
      }
    }
  }

  /** So purging is invisible under a non-decreasing clock: every rotation of a run answers the
      same, with the same previous record, as in the run with every purge left out. */
  lemma PurgeIsInvisible(m: Records, ops: seq<Op>, start: int)
    requires ClockFrom(ops, start)
    ensures Answers(m, ops) == Answers(m, Filter(ops, NotPurge))
  {
    ClockMissesNone(m, m, ops, start);
    PurgeInvisibleIff(m, ops);
  }

  /** A purge from the future can lose a token that is still good, and a rotation then misses
      it. */
  lemma PurgeSeenWhenClockRunsBack(r: Record, other: Record)
    requires r.Live() && other.tokenHash != r.tokenHash
    ensures var ops := [AddToken(r), Purge(r.expiresAt), RotateToken(r.tokenHash, other, r.expiresAt - 1)];
            Answers(map[], ops) != Answers(map[], Filter(ops, NotPurge))
  {
    var add, purge, rotate := AddToken(r), Purge(r.expiresAt), RotateToken(r.tokenHash, other, r.expiresAt - 1);
    var ops := [add, purge, rotate];
    var m: Records := Do(map[], add).0;
    assert ops[1..] == [purge, rotate] && ops[1..][1..] == [rotate];
    assert Answers(map[], ops) == [RotationResult(Invalid, None)] by {
      assert Do(m, purge).0 == map[];
      OneAnswer(map[], rotate);
      assert Answers(m, [purge, rotate]) == [] + Answers(map[], [rotate]);
      assert Answers(map[], ops) == [] + Answers(m, [purge, rotate]);
    }
    assert Filter([rotate], NotPurge) == [rotate];
    assert Filter([purge, rotate], NotPurge) == [rotate];
    assert Filter(ops, NotPurge) == [add, rotate] && [add, rotate][1..] == [rotate];
    OneAnswer(m, rotate);
    assert Answers(map[], [add, rotate]) == [] + Answers(m, [rotate]);
    assert Answers(m, [rotate]) == [RotationResult(Rotated, Some(r))];
    assert [RotationResult(Rotated, Some(r))][0] != [RotationResult(Invalid, None)][0];
  }

  lemma OneAnswer(m: Records, op: Op)
    ensures Answers(m, [op]) == Do(m, op).1
  {
  }

  /** The records with everything a family argument needs to remember: the hashes ever stored,
      the first hash of each family, and each successful rotation in order. */
  datatype Link = Link(familyId: int, presented: string, replacement: string)

  datatype History = History(records: Records, issued: set<string>, roots: map<int, string>, log: seq<Link>)

  function Empty(): History { History(map[], {}, map[], []) }

  function Next(h: History, op: Op): History {
    var (records, answers) := Do(h.records, op);
    match op
    case AddToken(r) => History(records, h.issued + {r.tokenHash}, h.roots[r.familyId := r.tokenHash], h.log)
    case RotateToken(p, r, _) =>
      if answers[0].outcome.Rotated?
      then History(records, h.issued + {r.tokenHash}, h.roots, h.log + [Link(h.records[p].familyId, p, r.tokenHash)])
      else h
    case _ => h.(records := records)
  }

  /** How the callers use the repository: a family starts with one added token, and a
      replacement has a new hash, is unspent and belongs to the presented token's family and
      user. */
  predicate Legal(h: History, op: Op) {
    match op
    case AddToken(r) => r.tokenHash !in h.issued && r.familyId !in h.roots && r.Live()
    case RotateToken(p, r, _) =>
      p in h.records ==>
        && r.tokenHash !in h.issued && r.Live()
        && r.familyId == h.records[p].familyId && r.userId == h.records[p].userId
    case _ => true
  }

  predicate LegalRun(h: History, ops: seq<Op>)
    decreases |ops|
  {
    ops != [] ==> Legal(h, ops[0]) && LegalRun(Next(h, ops[0]), ops[1..])
  }

  function After(h: History, ops: seq<Op>): History
    decreases |ops|
  {
    if ops == [] then h else After(Next(h, ops[0]), ops[1..])
  }

  function OfFamily(f: int): Link -> bool { (l: Link) => l.familyId == f }

  function Chain(h: History, f: int): seq<Link> { Filter(h.log, OfFamily(f)) }

  /** The newest token of a family. */
  function TipOf(root: string, chain: seq<Link>): string {
    if chain == [] then root else chain[|chain| - 1].replacement
  }

  function Tip(h: History, f: int): string
    requires f in h.roots
  {
    TipOf(h.roots[f], Chain(h, f))
  }

  /** A family's rotations form one line: each presents what the one before it stored. */
  ghost predicate Linear(root: string, chain: seq<Link>) {
    forall i :: 0 <= i < |chain| ==> chain[i].presented == TipOf(root, chain[..i])
  }

  ghost predicate OneLivePerFamily(m: Records) {
    forall j, k :: j in m && k in m && m[j].Live() && m[k].Live() && m[j].familyId == m[k].familyId ==> j == k
  }

  /** No hash is ever rotated twice, in any family. */
  ghost predicate RotatedOnce(log: seq<Link>) {
    forall i, j :: 0 <= i < j < |log| ==> log[i].presented != log[j].presented
  }

  ghost predicate NeverPresented(log: seq<Link>, k: string) {
    forall l :: l in log ==> l.presented != k
  }

  ghost predicate RecordsOk(h: History) {
    forall k :: k in h.records ==>
      && k in h.issued && h.records[k].familyId in h.roots
      && (h.records[k].Live() ==> k == Tip(h, h.records[k].familyId) && NeverPresented(h.log, k))
  }

  ghost predicate LogOk(h: History) {
    && (forall l :: l in h.log ==> l.presented in h.issued && l.familyId in h.roots)
    && RotatedOnce(h.log)
    && (forall f :: f in h.roots ==> Linear(h.roots[f], Chain(h, f)))
  }

  lemma NewFamily(h: History, h': History, f: int, root: string)
    requires LogOk(h) && f !in h.roots && h'.log == h.log && h'.roots == h.roots[f := root]
    ensures Tip(h', f) == root && Linear(root, Chain(h', f))
    ensures forall g :: g in h.roots ==> Chain(h', g) == Chain(h, g) && Tip(h', g) == Tip(h, g)
  {
  }

  lemma AddedRecords(h: History, h': History, r: Record)
    requires RecordsOk(h) && LogOk(h) && Legal(h, AddToken(r))
    requires h' == History(h.records[r.tokenHash := r], h.issued + {r.tokenHash}, h.roots[r.familyId := r.tokenHash], h.log)
    requires Tip(h', r.familyId) == r.tokenHash && forall g :: g in h.roots ==> Tip(h', g) == Tip(h, g)
    ensures RecordsOk(h')
  {
  }

  lemma AddKeeps(h: History, r: Record)
    requires RecordsOk(h) && LogOk(h) && Legal(h, AddToken(r))
    ensures RecordsOk(Next(h, AddToken(r))) && LogOk(Next(h, AddToken(r)))
  {
    var h' := Next(h, AddToken(r));
    NewFamily(h, h', r.familyId, r.tokenHash);
    hide Filter, Chain, TipOf, Tip, Linear, NeverPresented, RotatedOnce, RecordsOk;
    AddedRecords(h, h', r);
  }

  lemma RotationChains(root: string, log: seq<Link>, link: Link, f: int)
    requires Linear(root, Filter(log, OfFamily(f)))
    requires link.familyId == f ==> link.presented == TipOf(root, Filter(log, OfFamily(f)))
    ensures Linear(root, Filter(log + [link], OfFamily(f)))
    ensures TipOf(root, Filter(log + [link], OfFamily(f)))
         == if link.familyId == f then link.replacement else TipOf(root, Filter(log, OfFamily(f)))
  {
    FilterAppend(log, [link], OfFamily(f));
    var chain := Filter(log, OfFamily(f));
    assert Filter([link], OfFamily(f)) == if link.familyId == f then [link] else [];
    assert chain + [] == chain;
    if link.familyId == f {
      LinearAppend(root, chain, link);
    }
  }

  lemma LinearAppend(root: string, chain: seq<Link>, link: Link)
    requires Linear(root, chain) && link.presented == TipOf(root, chain)
    ensures Linear(root, chain + [link]) && TipOf(root, chain + [link]) == link.replacement
  {
  }

  ghost predicate Extends(h: History, h': History, link: Link) {
    h'.roots == h.roots && h'.log == h.log + [link] && h'.issued == h.issued + {link.replacement}
  }

  lemma RotatedLog(h: History, h': History, link: Link)
    requires LogOk(h) && Extends(h, h', link) && link.familyId in h.roots && link.presented in h.issued
    requires link.presented == Tip(h, link.familyId) && NeverPresented(h.log, link.presented)
    ensures LogOk(h')
    ensures forall f :: f in h.roots ==> Tip(h', f) == if link.familyId == f then link.replacement else Tip(h, f)
  {
    hide Filter, TipOf, Linear;
    assert RotatedOnce(h'.log);
    forall f | f in h.roots
      ensures Linear(h'.roots[f], Chain(h', f))
      ensures Tip(h', f) == if link.familyId == f then link.replacement else Tip(h, f)
    {
      RotationChains(h.roots[f], h.log, link, f);
    }
    hide Chain, Tip, RotatedOnce, NeverPresented;
  }

  lemma RotatedRecords(h: History, h': History, link: Link, r: Record, now: int)
    requires RecordsOk(h) && LogOk(h) && Extends(h, h', link)
    requires link.presented in h.records && h.records[link.presented].Live()
    requires link.familyId == h.records[link.presented].familyId == r.familyId
    requires r.tokenHash == link.replacement && link.replacement !in h.issued
    requires h'.records == h.records[link.presented := h.records[link.presented].(usedAt := Some(now))][r.tokenHash := r]
    requires forall f :: f in h.roots ==> Tip(h', f) == if link.familyId == f then link.replacement else Tip(h, f)
    ensures RecordsOk(h')
  {
    hide Filter, Chain, TipOf, Tip, Linear, RotatedOnce;
  }

  lemma RotateKeeps(h: History, p: string, r: Record, now: int)
    requires RecordsOk(h) && LogOk(h) && Legal(h, RotateToken(p, r, now))
    ensures RecordsOk(Next(h, RotateToken(p, r, now))) && LogOk(Next(h, RotateToken(p, r, now)))
  {
    if RotateTx(h.records, p, r, now).1.outcome.Rotated? {
      var h' := Next(h, RotateToken(p, r, now));
      var link := Link(h.records[p].familyId, p, r.tokenHash);
      assert h' == History(h.records[p := h.records[p].(usedAt := Some(now))][r.tokenHash := r],
                           h.issued + {r.tokenHash}, h.roots, h.log + [link]);
      RotatedLog(h, h', link);
      RotatedRecords(h, h', link, r, now);
    }
  }

  lemma RevokeAndPurgeKeep(h: History, op: Op)
    requires RecordsOk(h) && LogOk(h) && (op.Revoke? || op.Purge?)
    ensures RecordsOk(Next(h, op)) && LogOk(Next(h, op))
  {
    var h' := Next(h, op);
    assert forall f :: f in h.roots ==> Chain(h', f) == Chain(h, f) && Tip(h', f) == Tip(h, f);
  }

  lemma {:induction false} RunKeeps(h: History, ops: seq<Op>)
    requires RecordsOk(h) && LogOk(h) && LegalRun(h, ops)
    ensures RecordsOk(After(h, ops)) && LogOk(After(h, ops))
    decreases |ops|
  {
    hide RecordsOk, LogOk;
    if ops != [] {
      match ops[0] {
        case AddToken(r) => AddKeeps(h, r);
        case RotateToken(p, r, now) => RotateKeeps(h, p, r, now);
        case _ => RevokeAndPurgeKeep(h, ops[0]);
      }
      RunKeeps(Next(h, ops[0]), ops[1..]);
    }
  }

  /** Token families: over any such run each family holds at most one unspent token, no hash
      is rotated twice, and a family's rotations form one line from its first token. */
  lemma FamiliesAreLinear(ops: seq<Op>)
    requires LegalRun(Empty(), ops)
    ensures var h := After(Empty(), ops);
            && OneLivePerFamily(h.records)
            && RotatedOnce(h.log)
            && (forall f :: f in h.roots ==> Linear(h.roots[f], Chain(h, f)))
  {
    RunKeeps(Empty(), ops);
  }

  /** A rotation hands the family over: afterwards the replacement is its only unspent token,
      and presenting the old one again is never accepted. */
  lemma RotationHandsOver(ops: seq<Op>, p: string, r: Record, now: int, again: Record, later: int)
    requires LegalRun(Empty(), ops)
    requires var h := After(Empty(), ops); Legal(h, RotateToken(p, r, now))
    requires RotateTx(After(Empty(), ops).records, p, r, now).1.outcome.Rotated?
    ensures var after := RotateTx(After(Empty(), ops).records, p, r, now).0;
            && (forall k :: k in after && after[k].familyId == r.familyId ==> (after[k].Live() <==> k == r.tokenHash))
            && r.tokenHash in after
            && !RotateTx(after, p, again, later).1.outcome.Rotated?
  {
    RunKeeps(Empty(), ops);
  }

  /** What revocation's finality asks of the later calls: no covered token is added, and no
      rotation moves an uncovered token into the scope. */
  predicate StaysOut(m: Records, ops: seq<Op>, scope: Scope)
    decreases |ops|
  {
    ops != [] ==>
      && (match ops[0]
          case AddToken(r) => !Covers(scope, r)
          case RotateToken(p, r, _) => p in m && Covers(scope, r) ==> Covers(scope, m[p])
          case _ => true)
      && StaysOut(Do(m, ops[0]).0, ops[1..], scope)
  }

  ghost predicate NoneLive(m: Records, scope: Scope) {
    forall k :: k in m && Covers(scope, m[k]) ==> !m[k].Live()
  }

  lemma {:induction false} DeadStaysDead(m: Records, ops: seq<Op>, scope: Scope)
    requires NoneLive(m, scope) && StaysOut(m, ops, scope)
    ensures forall a :: a in Answers(m, ops) && a.outcome.Rotated? ==> a.previous.Some? && !Covers(scope, a.previous.value)
    decreases |ops|
  {
    if ops != [] {
      assert NoneLive(Do(m, ops[0]).0, scope);
      DeadStaysDead(Do(m, ops[0]).0, ops[1..], scope);
    }
  }

  /** Revocation is final: from any state, after a family or a user is revoked, no rotation of
      any later run accepts one of its tokens. */
  lemma RevocationIsFinal(m: Records, scope: Scope, now: int, ops: seq<Op>)
    requires StaysOut(RevokeTx(m, scope, now), ops, scope)
    ensures forall a :: a in Answers(RevokeTx(m, scope, now), ops) && a.outcome.Rotated? ==>
              a.previous.Some? && !Covers(scope, a.previous.value)
  {
    DeadStaysDead(RevokeTx(m, scope, now), ops, scope);
  }

  /** The answer of a rotation, read off the stored records: unknown or expired is invalid, used
      or revoked is reuse, and only a token that is neither is rotated; nothing is stored but by
      a rotation, which marks the old token used and adds the new one. */
  lemma RotationAnswers(m: Records, p: string, r: Record, now: int)
    ensures var (m', answers) := Do(m, RotateToken(p, r, now));
            && |answers| == 1
            && (p !in m || m[p].expiresAt <= now ==> answers[0] == RotationResult(Invalid, None) && m' == m)
            && (p in m && m[p].expiresAt > now && (m[p].usedAt.Some? || m[p].revokedAt.Some?) ==>
                  answers[0] == RotationResult(Reused, Some(m[p])) && m' == m)
            && (p in m && m[p].expiresAt > now && m[p].usedAt.None? && m[p].revokedAt.None? ==>
                  && answers[0] == RotationResult(Rotated, Some(m[p]))
                  && m'.Keys == m.Keys + {r.tokenHash} && m'[r.tokenHash] == r
                  && (p != r.tokenHash ==> m'[p] == m[p].(usedAt := Some(now)))
                  && forall k :: k in m && k != p && k != r.tokenHash ==> m'[k] == m[k])
  {
  }

  /** What a revocation reaches, record by record: the unrevoked ones of the family or of the
      user get the time of it, and every other record stays as it was. */
  lemma RevocationReaches(m: Records, id: int, now: int)
    ensures var m' := Do(m, Revoke(Family(id), now)).0;
            && m'.Keys == m.Keys
            && forall k :: k in m ==>
                 m'[k] == if m[k].familyId == id && m[k].revokedAt.None? then m[k].(revokedAt := Some(now)) else m[k]
    ensures var m' := Do(m, Revoke(User(id), now)).0;
            && m'.Keys == m.Keys
            && forall k :: k in m ==>
                 m'[k] == if m[k].userId == id && m[k].revokedAt.None? then m[k].(revokedAt := Some(now)) else m[k]
  {
  }

  /** A purge keeps exactly the records that expire later. */
  lemma PurgeReaches(m: Records, now: int)
    ensures var m' := Do(m, Purge(now)).0;
            && (forall k :: k in m' <==> k in m && m[k].expiresAt > now)
            && forall k :: k in m' ==> m'[k] == m[k]
  {
  }

  /** The token was rotated then, and is still there to say so. */
  ghost predicate Spent(h: History, p: string, at: int, was: Record) {
    && p in h.issued && p in h.records && h.records[p].usedAt == Some(at)
    && h.records[p].expiresAt == was.expiresAt
    && h.records[p].familyId == was.familyId && h.records[p].userId == was.userId
  }

  lemma StaysSpent(h: History, op: Op, p: string, at: int, was: Record)
    requires Spent(h, p, at, was) && Legal(h, op) && (op.Purge? ==> op.at < was.expiresAt)
    ensures Spent(Next(h, op), p, at, was)
  {
  }

  lemma {:induction false} RunStaysSpent(h: History, ops: seq<Op>, p: string, at: int, was: Record)
    requires Spent(h, p, at, was) && LegalRun(h, ops)
    requires forall op :: op in ops && op.Purge? ==> op.at < was.expiresAt
    ensures Spent(After(h, ops), p, at, was)
    decreases |ops|
  {
    hide Spent;
    if ops != [] {
      StaysSpent(h, ops[0], p, at, was);
      RunStaysSpent(Next(h, ops[0]), ops[1..], p, at, was);
    }
  }

  /** Reuse is always noticed: after a rotation, through any further calls that purge nothing
      before its time, every rotation of the old token before it expires answers that it was
      reused, with the record that says which family to revoke. */
  lemma RotatedIsReused(ops: seq<Op>, p: string, r: Record, now: int, more: seq<Op>, again: Record, at: int)
    requires LegalRun(Empty(), ops)
    requires var h := After(Empty(), ops);
             && p in h.records && h.records[p].expiresAt > now && h.records[p].Live()
             && Legal(h, RotateToken(p, r, now)) && LegalRun(Next(h, RotateToken(p, r, now)), more)
             && at < h.records[p].expiresAt
             && forall op :: op in more && op.Purge? ==> op.at < h.records[p].expiresAt
    ensures var h := After(Empty(), ops);
            var m := After(Next(h, RotateToken(p, r, now)), more).records;
            && p in m && m[p].usedAt == Some(now) && m[p].familyId == h.records[p].familyId
            && Do(m, RotateToken(p, again, at)).1 == [RotationResult(Reused, Some(m[p]))]
  {
    RunKeeps(Empty(), ops);
    var h := After(Empty(), ops);
    RotationAnswers(h.records, p, r, now);
    assert p in h.issued && r.tokenHash !in h.issued;
    hide RecordsOk, LogOk, LegalRun, After, Legal;
    var h' := Next(h, RotateToken(p, r, now));
    assert Spent(h', p, now, h.records[p]);
    RunStaysSpent(h', more, p, now, h.records[p]);
    RotationAnswers(After(h', more).records, p, again, at);
  }
}
