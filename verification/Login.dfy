/**
 The login handler over any number of concurrent requests: each consults the
 limiter, queues for the one in-flight slot, consults it again, asks AdGuard
 and only then counts a failure. Steps of different requests interleave
 freely, and time may pass between any two of them.
 */
module Login {
  import opened Wrappers
  import opened Lists
  import opened Sets
  import opened Limiter
  import opened LimiterRuns
  import opened LimiterBudget
  import opened LimiterGlobal

  type LoginId = nat

  /**
   at is when AdGuard refused the password, seen how many limiter calls had been
   made by then, and call the one that counted it.
   */
  datatype Phase =
    | Queued(ip: Ip)
    | Holding(ip: Ip)
    | Cleared(ip: Ip)
    | Judged(ip: Ip, at: int, seen: nat)
    | Rejected(ip: Ip, at: int, seen: nat, call: nat)
    | Closed

  /** calls is every limiter call made so far; the limiter is what they lead to. */
  datatype Server = Server(calls: seq<Call>, slot: Option<LoginId>, phases: map<LoginId, Phase>, now: int)

  datatype AdGuardAnswer = Accepts | BadCredentials | Unreachable

  datatype Move =
    | Wait(now: int)
    | Arrive(id: LoginId, ip: Ip)
    | GiveUp(id: LoginId)
    | Acquire(id: LoginId)
    | Recheck(id: LoginId)
    | Answered(id: LoginId, answer: AdGuardAnswer)
    | CountFailed(id: LoginId)
    | Sweep

  function Now(cfg: Config, s: Server): State {
    Exec(cfg, EMPTY, s.calls)
  }

  ghost predicate CanMove(s: Server, m: Move) {
    match m
    case Wait(now) => s.now <= now
    case Arrive(id, _) => id !in s.phases
    case GiveUp(id) => id in s.phases && s.phases[id].Queued?
    case Acquire(id) => id in s.phases && s.phases[id].Queued? && s.slot == None
    case Recheck(id) => id in s.phases && s.phases[id].Holding?
    case Answered(id, _) => id in s.phases && s.phases[id].Cleared?
    case CountFailed(id) => id in s.phases && s.phases[id].Judged?
    case Sweep => true
  }

  function Put(s: Server, id: LoginId, p: Phase): Server {
    s.(phases := s.phases[id := p])
  }

  function Moved(cfg: Config, s: Server, m: Move): Server
    requires CanMove(s, m)
  {
    match m
    case Wait(now) => s.(now := now)
    case Arrive(id, ip) =>
      var next := s.(calls := s.calls + [Check(ip, s.now)]);
      Put(next, id, if Answer(cfg, Now(cfg, s), ip, s.now).Denied? then Closed else Queued(ip))
    case GiveUp(id) => Put(s, id, Closed)
    case Acquire(id) => Put(s.(slot := Some(id)), id, Holding(s.phases[id].ip))
    case Recheck(id) =>
      var ip := s.phases[id].ip;
      var next := s.(calls := s.calls + [Check(ip, s.now)]);
      if Answer(cfg, Now(cfg, s), ip, s.now).Denied? then Put(next.(slot := None), id, Closed)
      else Put(next, id, Cleared(ip))
    case Answered(id, answer) =>
      if answer.BadCredentials? then Put(s, id, Judged(s.phases[id].ip, s.now, |s.calls|))
      else Put(s.(slot := None), id, Closed)
    case CountFailed(id) =>
      var p := s.phases[id];
      Put(s.(calls := s.calls + [Fail(p.ip, s.now)], slot := None), id, Rejected(p.ip, p.at, p.seen, |s.calls|))
    case Sweep => s.(calls := s.calls + [Prune(s.now)])
  }

  ghost predicate CanRun(cfg: Config, s: Server, ms: seq<Move>)
    decreases |ms|, 0
  {
    ms == [] || (CanRun(cfg, s, Front(ms)) && CanMove(AfterMoves(cfg, s, Front(ms)), Last(ms)))
  }

  ghost function AfterMoves(cfg: Config, s: Server, ms: seq<Move>): Server
    requires CanRun(cfg, s, ms)
    decreases |ms|, 1
  {
    if ms == [] then s else Moved(cfg, AfterMoves(cfg, s, Front(ms)), Last(ms))
  }

  function Start(now: int): Server {
    Server([], None, map[], now)
  }

  /** Neither condition that denies a login holds for ip, nor will before the next failure. */
  ghost predicate Clear(cfg: Config, l: State, ip: Ip, t: int) {
    !Locked(Lookup(l, ip), t) && !GlobalDenied(cfg, l, t)
  }

  ghost predicate InSlot(p: Phase) {
    p.Holding? || p.Cleared? || p.Judged?
  }

  /** Call k was a failure of ip and the limiter counted it. */
  ghost predicate CountedAt(cfg: Config, calls: seq<Call>, k: nat, ip: Ip) {
    k < |calls| && Counts(Exec(cfg, EMPTY, calls[..k]), calls[k], ip)
  }

  ghost predicate SlotOk(cfg: Config, s: Server) {
    && (forall id | id in s.phases :: InSlot(s.phases[id]) <==> s.slot == Some(id))
    && (s.slot.Some? ==> s.slot.value in s.phases)
    && (forall id | id in s.phases && (s.phases[id].Cleared? || s.phases[id].Judged?) ::
          Clear(cfg, Now(cfg, s), s.phases[id].ip, s.now))
  }

  /** Rejected logins and the limiter's Fail calls correspond one to one, each counted. */
  ghost predicate RejectionsOk(cfg: Config, s: Server) {
    && (forall id | id in s.phases && s.phases[id].Rejected? ::
          CountedAt(cfg, s.calls, s.phases[id].call, s.phases[id].ip))
    && (forall k | 0 <= k < |s.calls| && s.calls[k].Fail? :: RejectedBy(s.calls, s.phases, k))
  }

  ghost predicate RejectedBy(calls: seq<Call>, phases: map<LoginId, Phase>, k: nat)
    requires k < |calls| && calls[k].Fail?
  {
    exists id :: CountedBy(calls, phases, id, k)
  }

  /** Login id was counted by call k. */
  ghost predicate CountedBy(calls: seq<Call>, phases: map<LoginId, Phase>, id: LoginId, k: nat)
    requires k < |calls| && calls[k].Fail?
  {
    id in phases && phases[id].Rejected? && phases[id].call == k && phases[id].ip == calls[k].ip
  }

  predicate WasJudged(p: Phase) {
    p.Judged? || p.Rejected?
  }

  /** When AdGuard refused the password neither denial held, and a refusal is counted no earlier than that. */
  ghost predicate JudgedAt(cfg: Config, calls: seq<Call>, now: int, p: Phase) {
    WasJudged(p) ==>
      && p.seen <= |calls| && p.at <= now
      && TimedTo(calls[..p.seen], p.at) && Clear(cfg, Exec(cfg, EMPTY, calls[..p.seen]), p.ip, p.at)
      && (p.Rejected? ==> p.seen <= p.call < |calls| && p.at <= calls[p.call].at)
  }

  /** Refusals are counted by calls of their own, and the one counted first was counted before the other was made. */
  ghost predicate InTurn(phases: map<LoginId, Phase>, i: LoginId, j: LoginId) {
    i in phases && j in phases && phases[i].Rejected? && WasJudged(phases[j]) ==>
      && (phases[j].Rejected? ==> phases[i].call != phases[j].call)
      && ((phases[j].Rejected? ==> phases[i].call < phases[j].call) ==> phases[i].call < phases[j].seen)
  }

  ghost predicate JudgementsOk(cfg: Config, s: Server) {
    && (forall id | id in s.phases :: JudgedAt(cfg, s.calls, s.now, s.phases[id]))
    && (forall i, j | i != j :: InTurn(s.phases, i, j))
  }

  ghost predicate LoginOk(cfg: Config, s: Server) {
    && TimedTo(s.calls, s.now)
    && SlotOk(cfg, s) && RejectionsOk(cfg, s) && JudgementsOk(cfg, s)
    && Now(cfg, s).globalFails <= cfg.globalFailures
  }

  lemma ExecSnoc(cfg: Config, calls: seq<Call>, c: Call)
    ensures Exec(cfg, EMPTY, calls + [c]) == Step(cfg, Exec(cfg, EMPTY, calls), c)
  {
    assert Front(calls + [c]) == calls;
  }

  lemma TimedLater(calls: seq<Call>, t: int, t': int)
    requires TimedTo(calls, t) && t <= t'
    ensures TimedTo(calls, t')
  {
  }

  lemma TimedSnoc(calls: seq<Call>, c: Call)
    requires TimedTo(calls, c.at)
    ensures TimedTo(calls + [c], c.at)
  {
    assert Front(calls + [c]) == calls;
  }

  /** Checks, prunes and the passage of time keep an IP clear; only a failure can end that. */
  lemma StaysClear(cfg: Config, l: State, ip: Ip, t: int, c: Call)
    requires Clear(cfg, l, ip, t) && t <= c.at && !c.Fail?
    ensures Clear(cfg, Step(cfg, l, c), ip, c.at)
    ensures Step(cfg, l, c).globalFails == l.globalFails
  {
  }

  lemma CountedLonger(cfg: Config, calls: seq<Call>, c: Call, k: nat, ip: Ip)
    requires CountedAt(cfg, calls, k, ip)
    ensures CountedAt(cfg, calls + [c], k, ip)
  {
    assert (calls + [c])[..k] == calls[..k];
  }

  /** A call that is no failure keeps the correspondence. */
  lemma QuietCall(cfg: Config, s: Server, c: Call)
    requires LoginOk(cfg, s) && c.at == s.now && !c.Fail?
    ensures LoginOk(cfg, s.(calls := s.calls + [c]))
  {
    var s' := s.(calls := s.calls + [c]);
    ExecSnoc(cfg, s.calls, c);
    TimedSnoc(s.calls, c);
    forall id | id in s.phases && (s.phases[id].Cleared? || s.phases[id].Judged?)
      ensures Clear(cfg, Now(cfg, s'), s.phases[id].ip, s.now)
    {
      StaysClear(cfg, Now(cfg, s), s.phases[id].ip, s.now, c);
    }
    forall id | id in s.phases && s.phases[id].Rejected?
      ensures CountedAt(cfg, s'.calls, s.phases[id].call, s.phases[id].ip)
    {
      CountedLonger(cfg, s.calls, c, s.phases[id].call, s.phases[id].ip);
    }
    forall k | 0 <= k < |s'.calls| && s'.calls[k].Fail? ensures RejectedBy(s'.calls, s'.phases, k) {
      assert RejectedBy(s.calls, s.phases, k);
      var i :| CountedBy(s.calls, s.phases, i, k);
      assert CountedBy(s'.calls, s'.phases, i, k);
    }
    forall id | id in s.phases ensures JudgedAt(cfg, s'.calls, s'.now, s.phases[id]) {
      JudgedLonger(cfg, s, c, s.phases[id]);
    }
  }

  lemma JudgedLonger(cfg: Config, s: Server, c: Call, p: Phase)
    requires JudgedAt(cfg, s.calls, s.now, p)
    ensures JudgedAt(cfg, s.calls + [c], s.now, p)
  {
    if WasJudged(p) { assert (s.calls + [c])[..p.seen] == s.calls[..p.seen]; }
  }

  /** Moving one login between phases that are not rejections keeps the correspondence. */
  lemma QuietPut(cfg: Config, s: Server, s': Server, id: LoginId, p: Phase)
    requires RejectionsOk(cfg, s) && JudgementsOk(cfg, s)
    requires s'.calls == s.calls && s'.now == s.now && s'.phases == s.phases[id := p]
    requires !p.Rejected? && (id in s.phases ==> !s.phases[id].Rejected?)
    requires JudgedAt(cfg, s.calls, s.now, p) && (p.Judged? ==> p.seen == |s.calls|)
    ensures RejectionsOk(cfg, s') && JudgementsOk(cfg, s')
  {
    forall k | 0 <= k < |s'.calls| && s'.calls[k].Fail? ensures RejectedBy(s'.calls, s'.phases, k) {
      assert RejectedBy(s.calls, s.phases, k);
      var i :| CountedBy(s.calls, s.phases, i, k);
      assert CountedBy(s'.calls, s'.phases, i, k);
    }
    forall i, j | i != j ensures InTurn(s'.phases, i, j) {
      assert InTurn(s.phases, i, j);
      if i in s.phases && i != id { assert JudgedAt(cfg, s.calls, s.now, s.phases[i]); }
    }
  }

  lemma FailStep(cfg: Config, s: Server, id: LoginId)
    requires LoginOk(cfg, s) && cfg.globalFailures >= 1 && id in s.phases && s.phases[id].Judged?
    ensures LoginOk(cfg, Moved(cfg, s, CountFailed(id)))
  {
    var ip := s.phases[id].ip;
    var c := Fail(ip, s.now);
    var s' := Moved(cfg, s, CountFailed(id));
    ExecSnoc(cfg, s.calls, c);
    TimedSnoc(s.calls, c);
    assert s'.calls[..|s.calls|] == s.calls;
    assert Clear(cfg, Now(cfg, s), ip, s.now);
    assert CountedAt(cfg, s'.calls, |s.calls|, ip);
    forall i | i in s.phases && s.phases[i].Rejected?
      ensures CountedAt(cfg, s'.calls, s.phases[i].call, s.phases[i].ip)
    {
      CountedLonger(cfg, s.calls, c, s.phases[i].call, s.phases[i].ip);
    }
    forall k | 0 <= k < |s'.calls| && s'.calls[k].Fail? ensures RejectedBy(s'.calls, s'.phases, k) {
      if k < |s.calls| {
        assert RejectedBy(s.calls, s.phases, k);
        var i :| CountedBy(s.calls, s.phases, i, k);
        assert CountedBy(s'.calls, s'.phases, i, k);
      } else {
        assert CountedBy(s'.calls, s'.phases, id, k);
      }
    }
    FailJudgements(cfg, s, id);
    GlobalBounded(cfg, Now(cfg, s), ip, s.now);
  }

  lemma FailJudgements(cfg: Config, s: Server, id: LoginId)
    requires LoginOk(cfg, s) && id in s.phases && s.phases[id].Judged?
    ensures JudgementsOk(cfg, Moved(cfg, s, CountFailed(id)))
  {
    var s' := Moved(cfg, s, CountFailed(id));
    var c := Fail(s.phases[id].ip, s.now);
    forall i | i in s'.phases ensures JudgedAt(cfg, s'.calls, s'.now, s'.phases[i]) {
      JudgedLonger(cfg, s, c, s.phases[i]);
    }
    forall i, j | i != j ensures InTurn(s'.phases, i, j) {
      assert InTurn(s.phases, i, j);
      if i in s.phases && j in s.phases {
        assert JudgedAt(cfg, s.calls, s.now, s.phases[j]) && JudgedAt(cfg, s.calls, s.now, s.phases[i]);
        assert j != id && s.phases[j].Judged? ==> s.slot == Some(j);
      }
    }
  }

  lemma GlobalBounded(cfg: Config, l: State, ip: Ip, t: int)
    requires Clear(cfg, l, ip, t) && cfg.globalFailures >= 1
    ensures Failed(cfg, l, ip, t).globalFails <= cfg.globalFailures
  {
  }

  lemma MoveKeeps(cfg: Config, s: Server, m: Move)
    requires LoginOk(cfg, s) && CanMove(s, m) && cfg.globalFailures >= 1
    ensures LoginOk(cfg, Moved(cfg, s, m))
  {
    match m {
      case Wait(now) => TimedLater(s.calls, s.now, now);
      case Arrive(id, ip) => ArriveKeeps(cfg, s, id, ip);
      case GiveUp(id) => QuietPut(cfg, s, Moved(cfg, s, m), id, Closed);
      case Acquire(id) => QuietPut(cfg, s, Moved(cfg, s, m), id, Holding(s.phases[id].ip));
      case Recheck(id) => RecheckKeeps(cfg, s, id);
      case Answered(id, answer) => AnsweredKeeps(cfg, s, id, answer);
      case CountFailed(id) => FailStep(cfg, s, id);
      case Sweep => QuietCall(cfg, s, Prune(s.now));
    }
  }

  lemma ArriveKeeps(cfg: Config, s: Server, id: LoginId, ip: Ip)
    requires LoginOk(cfg, s) && id !in s.phases
    ensures LoginOk(cfg, Moved(cfg, s, Arrive(id, ip)))
  {
    QuietCall(cfg, s, Check(ip, s.now));
    var p := if Answer(cfg, Now(cfg, s), ip, s.now).Denied? then Closed else Queued(ip);
    QuietPut(cfg, s.(calls := s.calls + [Check(ip, s.now)]), Moved(cfg, s, Arrive(id, ip)), id, p);
  }

  lemma AnsweredKeeps(cfg: Config, s: Server, id: LoginId, answer: AdGuardAnswer)
    requires LoginOk(cfg, s) && id in s.phases && s.phases[id].Cleared?
    ensures LoginOk(cfg, Moved(cfg, s, Answered(id, answer)))
  {
    if answer.BadCredentials? {
      assert s.calls[..|s.calls|] == s.calls;
      QuietPut(cfg, s, Moved(cfg, s, Answered(id, answer)), id, Judged(s.phases[id].ip, s.now, |s.calls|));
    } else {
      QuietPut(cfg, s, Moved(cfg, s, Answered(id, answer)), id, Closed);
    }
  }

  lemma RecheckKeeps(cfg: Config, s: Server, id: LoginId)
    requires LoginOk(cfg, s) && id in s.phases && s.phases[id].Holding?
    ensures LoginOk(cfg, Moved(cfg, s, Recheck(id)))
  {
    var ip := s.phases[id].ip;
    var c := Check(ip, s.now);
    var next := s.(calls := s.calls + [c]);
    QuietCall(cfg, s, c);
    if Answer(cfg, Now(cfg, s), ip, s.now).Denied? {
      QuietPut(cfg, next, Moved(cfg, s, Recheck(id)), id, Closed);
    } else {
      assert Clear(cfg, Now(cfg, s), ip, s.now);
      StaysClear(cfg, Now(cfg, s), ip, s.now, c);
      ExecSnoc(cfg, s.calls, c);
      QuietPut(cfg, next, Moved(cfg, s, Recheck(id)), id, Cleared(ip));
    }
  }

  /** A refusal stays where it is until it is counted, and then for good. */
  lemma JudgedStays(cfg: Config, s: Server, m: Move, id: LoginId)
    requires CanMove(s, m) && id in s.phases && WasJudged(s.phases[id])
    ensures var s' := Moved(cfg, s, m);
            && id in s'.phases && WasJudged(s'.phases[id])
            && s'.phases[id].ip == s.phases[id].ip && s'.phases[id].at == s.phases[id].at
            && (s.phases[id].Rejected? ==> s'.phases[id] == s.phases[id])
  {
  }

  lemma {:induction false} PrefixRuns(cfg: Config, s: Server, ms: seq<Move>, k: nat)
    requires CanRun(cfg, s, ms) && k <= |ms|
    ensures CanRun(cfg, s, ms[..k])
    ensures k < |ms| ==> CanMove(AfterMoves(cfg, s, ms[..k]), ms[k])
  {
    if k == |ms| {
      assert ms[..k] == ms;
    } else if k == |ms| - 1 {
      assert ms[..k] == Front(ms);
    } else {
      PrefixRuns(cfg, s, Front(ms), k);
      assert Front(ms)[..k] == ms[..k];
    }
  }

  /** Move k is AdGuard refusing the password of login id. */
  predicate Refuses(ms: seq<Move>, k: nat, id: LoginId) {
    k < |ms| && ms[k] == Answered(id, BadCredentials)
  }

  /** The login of that move is counted, or the one in flight; and it keeps the time of the refusal. */
  ghost predicate Accounted(cfg: Config, s: Server, id: LoginId, ip: Ip, at: int) {
    && id in s.phases && WasJudged(s.phases[id]) && s.phases[id].ip == ip && s.phases[id].at == at
    && (if s.phases[id].Judged? then s.slot == Some(id) else CountedAt(cfg, s.calls, s.phases[id].call, ip))
  }

  lemma {:induction false} RefusalAccounted(cfg: Config, now: int, ms: seq<Move>, k: nat, id: LoginId)
    requires cfg.globalFailures >= 1 && CanRun(cfg, Start(now), ms) && Refuses(ms, k, id)
    ensures CanRun(cfg, Start(now), ms[..k]) && id in AfterMoves(cfg, Start(now), ms[..k]).phases
    ensures var m := AfterMoves(cfg, Start(now), ms[..k]);
            && m.phases[id].Cleared?
            && Accounted(cfg, AfterMoves(cfg, Start(now), ms), id, m.phases[id].ip, m.now)
  {
    PrefixRuns(cfg, Start(now), ms, k);
    StaysOk(cfg, now, ms);
    if k < |ms| - 1 {
      RefusalAccounted(cfg, now, Front(ms), k, id);
      assert Front(ms)[..k] == ms[..k];
      JudgedStays(cfg, AfterMoves(cfg, Start(now), Front(ms)), Last(ms), id);
    } else {
      assert ms[..k] == Front(ms);
    }
  }

  lemma {:induction false} StaysOk(cfg: Config, now: int, ms: seq<Move>)
    requires cfg.globalFailures >= 1 && CanRun(cfg, Start(now), ms)
    ensures LoginOk(cfg, AfterMoves(cfg, Start(now), ms))
  {
    if ms != [] {
      StaysOk(cfg, now, Front(ms));
      MoveKeeps(cfg, AfterMoves(cfg, Start(now), Front(ms)), Last(ms));
    }
  }

  /** And every login that is counted or in flight has been refused. */
  lemma {:induction false} JudgedWasRefused(cfg: Config, now: int, ms: seq<Move>, id: LoginId)
    requires CanRun(cfg, Start(now), ms)
    requires var s := AfterMoves(cfg, Start(now), ms); id in s.phases && WasJudged(s.phases[id])
    ensures exists k :: Refuses(ms, k, id)
  {
    if ms != [] {
      var m := AfterMoves(cfg, Start(now), Front(ms));
      if id in m.phases && WasJudged(m.phases[id]) {
        JudgedWasRefused(cfg, now, Front(ms), id);
        var k :| Refuses(Front(ms), k, id);
        assert Refuses(ms, k, id);
      } else {
        assert Refuses(ms, |ms| - 1, id);
      }
    }
  }

  /**
   The login protocol: over every interleaving of any number of logins, each
   password AdGuard refused is counted by the limiter, once, unless it is the
   one whose login is still in flight; no failure ever lands during its IP's
   lockout, and the global count never passes its cap.
   */
  lemma EveryRejectionCounted(cfg: Config, now: int, ms: seq<Move>)
    requires cfg.globalFailures >= 1 && CanRun(cfg, Start(now), ms)
    ensures var s := AfterMoves(cfg, Start(now), ms);
            && LoginOk(cfg, s)
            && (forall id :: (id in s.phases && WasJudged(s.phases[id])) <==> exists k :: Refuses(ms, k, id))
            && (forall id | id in s.phases && s.phases[id].Judged? :: s.slot == Some(id))
            && (forall id | id in s.phases && s.phases[id].Rejected? ::
                  CountedAt(cfg, s.calls, s.phases[id].call, s.phases[id].ip))
  {
    var s := AfterMoves(cfg, Start(now), ms);
    StaysOk(cfg, now, ms);
    forall id ensures (id in s.phases && WasJudged(s.phases[id])) <==> exists k :: Refuses(ms, k, id) {
      if id in s.phases && WasJudged(s.phases[id]) { JudgedWasRefused(cfg, now, ms, id); }
      if k :| Refuses(ms, k, id) { RefusalAccounted(cfg, now, ms, k, id); }
    }
  }

  // ----- how many passwords one IP can try -----

  /** Where in the IP's hits a counted call is. */
  function HitIndex(cfg: Config, calls: seq<Call>, ip: Ip, k: nat): nat
    requires k <= |calls|
  {
    |Hits(cfg, calls[..k], ip)|
  }

  lemma {:induction false} HitsPrefix(cfg: Config, calls: seq<Call>, ip: Ip, k: nat)
    requires k <= |calls|
    ensures Hits(cfg, calls[..k], ip) <= Hits(cfg, calls, ip)
  {
    if k == |calls| {
      assert calls[..k] == calls;
    } else {
      HitsPrefix(cfg, Front(calls), ip, k);
      assert Front(calls)[..k] == calls[..k];
    }
  }

  lemma HitOfCall(cfg: Config, calls: seq<Call>, ip: Ip, k: nat)
    requires CountedAt(cfg, calls, k, ip)
    ensures HitIndex(cfg, calls, ip, k) < |Hits(cfg, calls, ip)|
    ensures Hits(cfg, calls, ip)[HitIndex(cfg, calls, ip, k)].at == calls[k].at
    ensures forall j | k < j <= |calls| :: HitIndex(cfg, calls, ip, k) < HitIndex(cfg, calls, ip, j)
  {
    var upto := calls[..k + 1];
    assert Front(upto) == calls[..k] && Last(upto) == calls[k];
    HitsPrefix(cfg, calls, ip, k + 1);
    forall j | k < j <= |calls| ensures HitIndex(cfg, calls, ip, k) < HitIndex(cfg, calls, ip, j) {
      HitsPrefix(cfg, calls[..j], ip, k + 1);
      assert calls[..j][..k + 1] == upto;
    }
  }

  /** The logins of ip whose password AdGuard refused in [from, from + window), the one in flight included. */
  function JudgedIn(cfg: Config, s: Server, ip: Ip, from: int): set<LoginId> {
    set id | id in s.phases && WasJudged(s.phases[id]) && s.phases[id].ip == ip &&
             from <= s.phases[id].at < from + cfg.window
  }

  /** p's refusal was counted, and before q's if q's was too. */
  predicate CountedFirst(p: Phase, q: Phase) {
    p.Rejected? && (q.Rejected? ==> p.call < q.call)
  }

  /** j was judged after every other login of d was counted. */
  ghost predicate LastOf(s: Server, d: set<LoginId>, j: LoginId) {
    && j in d && j in s.phases && WasJudged(s.phases[j])
    && forall i | i in d && i != j :: i in s.phases && CountedFirst(s.phases[i], s.phases[j])
  }

  lemma {:induction false} LastJudged(cfg: Config, s: Server, d: set<LoginId>) returns (j: LoginId)
    requires LoginOk(cfg, s) && d != {} && forall i | i in d :: i in s.phases && WasJudged(s.phases[i])
    ensures LastOf(s, d, j)
    decreases |d|
  {
    j :| j in d;
    if d != {j} {
      var rest := d - {j};
      assert d == rest + {j};
      var k := LastJudged(cfg, s, rest);
      OneFirst(cfg, s, j, k);
      if CountedFirst(s.phases[j], s.phases[k]) { j := k; }
    }
  }

  /** Of two refusals one was counted first: only one can be in the slot, and calls are distinct. */
  lemma OneFirst(cfg: Config, s: Server, i: LoginId, j: LoginId)
    requires LoginOk(cfg, s) && i in s.phases && j in s.phases && i != j
    requires WasJudged(s.phases[i]) && WasJudged(s.phases[j])
    ensures CountedFirst(s.phases[i], s.phases[j]) || CountedFirst(s.phases[j], s.phases[i])
  {
    assert InTurn(s.phases, i, j) && InTurn(s.phases, j, i);
  }

  /** Had the last refusal been counted the moment it was made, it would be one hit more. */
  function Hypothetical(s: Server, j: LoginId): seq<Call>
    requires j in s.phases && WasJudged(s.phases[j]) && s.phases[j].seen <= |s.calls|
  {
    s.calls[..s.phases[j].seen] + [Fail(s.phases[j].ip, s.phases[j].at)]
  }

  /** Where among the hits of calls login i is; the last one comes at the end. */
  function Place(cfg: Config, s: Server, calls: seq<Call>, ip: Ip, i: LoginId, j: LoginId): nat
    requires i in s.phases && calls != [] && (i != j ==> s.phases[i].Rejected? && s.phases[i].call < |calls|)
  {
    HitIndex(cfg, calls, ip, if i == j then |calls| - 1 else s.phases[i].call)
  }

  lemma HypotheticalHit(cfg: Config, s: Server, ip: Ip, j: LoginId)
    requires LoginOk(cfg, s) && j in s.phases && WasJudged(s.phases[j]) && s.phases[j].ip == ip
    requires s.phases[j].seen <= |s.calls|
    ensures var calls := Hypothetical(s, j);
            && TimedTo(calls, s.phases[j].at) && CountedAt(cfg, calls, |calls| - 1, ip)
            && calls[|calls| - 1].at == s.phases[j].at
  {
    var calls, p := Hypothetical(s, j), s.phases[j];
    assert JudgedAt(cfg, s.calls, s.now, p);
    assert calls[..|calls| - 1] == s.calls[..p.seen];
    TimedSnoc(s.calls[..p.seen], Fail(ip, p.at));
  }

  /** The others of d are hits of those calls too, at times between their refusal and the last one's. */
  lemma EarlierHit(cfg: Config, s: Server, ip: Ip, d: set<LoginId>, i: LoginId, j: LoginId)
    requires LoginOk(cfg, s) && j in s.phases && LastOf(s, d, j) && i in d && i != j
    requires WasJudged(s.phases[j]) && s.phases[i].ip == ip && s.phases[j].seen <= |s.calls|
    ensures var calls := Hypothetical(s, j);
            && s.phases[i].call < |calls| - 1 && CountedAt(cfg, calls, s.phases[i].call, ip)
            && s.phases[i].at <= calls[s.phases[i].call].at <= s.phases[j].at
  {
    var calls, p, q := Hypothetical(s, j), s.phases[i], s.phases[j];
    assert InTurn(s.phases, i, j) && JudgedAt(cfg, s.calls, s.now, p) && JudgedAt(cfg, s.calls, s.now, q);
    assert calls[..p.call] == s.calls[..p.call] && calls[p.call] == s.calls[p.call];
    TimedBefore(s.calls[..q.seen], q.at, p.call);
  }

  lemma {:induction false} TimedBefore(calls: seq<Call>, t: int, k: nat)
    requires TimedTo(calls, t) && k < |calls|
    ensures calls[k].at <= t
  {
    if k < |calls| - 1 { TimedBefore(Front(calls), Last(calls).at, k); }
  }

  /** The hits of ip in [from, from + window). */
  function HitsIn(cfg: Config, calls: seq<Call>, ip: Ip, from: int): set<nat> {
    var hits := Hits(cfg, calls, ip);
    set i: nat | i < |hits| && from <= hits[i].at < from + cfg.window
  }

  lemma HitsInBounded(cfg: Config, calls: seq<Call>, ip: Ip, t: int, from: int)
    requires Thresholds(cfg) && TimedTo(calls, t)
    ensures |HitsIn(cfg, calls, ip, from)| <= Bound(cfg)
  {
    SlidingWindow(cfg, calls, ip, t, from);
  }

  /** What makes j the end of d: all of d is of ip and in [from, from + window), and j last. */
  ghost predicate Ends(cfg: Config, s: Server, ip: Ip, from: int, d: set<LoginId>, j: LoginId) {
    && LastOf(s, d, j) && s.phases[j].seen <= |s.calls|
    && forall i | i in d :: i in s.phases && s.phases[i].ip == ip && from <= s.phases[i].at < from + cfg.window
  }

  lemma PlaceInside(cfg: Config, s: Server, ip: Ip, from: int, d: set<LoginId>, i: LoginId, j: LoginId)
    requires LoginOk(cfg, s) && Ends(cfg, s, ip, from, d, j) && i in d
    ensures i != j ==> s.phases[i].call < |Hypothetical(s, j)|
    ensures Place(cfg, s, Hypothetical(s, j), ip, i, j) in HitsIn(cfg, Hypothetical(s, j), ip, from)
  {
    var calls := Hypothetical(s, j);
    if i == j {
      HypotheticalHit(cfg, s, ip, j);
      HitOfCall(cfg, calls, ip, |calls| - 1);
    } else {
      EarlierHit(cfg, s, ip, d, i, j);
      HitOfCall(cfg, calls, ip, s.phases[i].call);
    }
  }

  lemma PlacesDiffer(cfg: Config, s: Server, ip: Ip, from: int, d: set<LoginId>, a: LoginId, b: LoginId, j: LoginId)
    requires LoginOk(cfg, s) && Ends(cfg, s, ip, from, d, j) && a in d && b in d && a != b
    requires forall i | i in {a, b} && i != j :: s.phases[i].call < |Hypothetical(s, j)|
    ensures Place(cfg, s, Hypothetical(s, j), ip, a, j) != Place(cfg, s, Hypothetical(s, j), ip, b, j)
  {
    var calls := Hypothetical(s, j);
    if b == j || (a != j && s.phases[a].call < s.phases[b].call) {
      EarlierHit(cfg, s, ip, d, a, j);
      HitOfCall(cfg, calls, ip, s.phases[a].call);
    } else {
      EarlierHit(cfg, s, ip, d, b, j);
      HitOfCall(cfg, calls, ip, s.phases[b].call);
      assert InTurn(s.phases, a, b);
    }
  }

  /** Each of d at its place among the hits. */
  lemma Places(cfg: Config, s: Server, ip: Ip, from: int, d: set<LoginId>, j: LoginId) returns (at: map<LoginId, nat>)
    requires LoginOk(cfg, s) && Ends(cfg, s, ip, from, d, j)
    ensures at.Keys == d && forall i | i in d :: at[i] in HitsIn(cfg, Hypothetical(s, j), ip, from)
    ensures forall a, b | a in d && b in d && a != b :: at[a] != at[b]
  {
    forall i | i in d ensures i != j ==> s.phases[i].call < |Hypothetical(s, j)| {
      PlaceInside(cfg, s, ip, from, d, i, j);
    }
    at := map i | i in d :: Place(cfg, s, Hypothetical(s, j), ip, i, j);
    forall i | i in d ensures at[i] in HitsIn(cfg, Hypothetical(s, j), ip, from) {
      PlaceInside(cfg, s, ip, from, d, i, j);
    }
    forall a, b | a in d && b in d && a != b ensures at[a] != at[b] {
      PlacesDiffer(cfg, s, ip, from, d, a, b, j);
    }
  }

  lemma JudgedBounded(cfg: Config, s: Server, ip: Ip, from: int)
    requires Thresholds(cfg) && LoginOk(cfg, s)
    ensures |JudgedIn(cfg, s, ip, from)| <= Bound(cfg)
  {
    var d := JudgedIn(cfg, s, ip, from);
    if d != {} {
      var j := LastJudged(cfg, s, d);
      assert JudgedAt(cfg, s.calls, s.now, s.phases[j]);
      HypotheticalHit(cfg, s, ip, j);
      HitsInBounded(cfg, Hypothetical(s, j), ip, s.phases[j].at, from);
      var at := Places(cfg, s, ip, from, d, j);
      Injects(d, HitsIn(cfg, Hypothetical(s, j), ip, from), at);
    }
  }

  /** The moves in which AdGuard refused a password tried from ip, in [from, from + window). */
  ghost function GuessesIn(cfg: Config, now: int, ms: seq<Move>, ip: Ip, from: int): set<nat> {
    set k: nat | k < |ms| && GuessAt(cfg, now, ms, k, ip, from)
  }

  ghost predicate GuessAt(cfg: Config, now: int, ms: seq<Move>, k: nat, ip: Ip, from: int)
    requires k < |ms|
  {
    && ms[k].Answered? && ms[k].answer.BadCredentials? && CanRun(cfg, Start(now), ms[..k])
    && var s := AfterMoves(cfg, Start(now), ms[..k]);
       && ms[k].id in s.phases && s.phases[ms[k].id].Cleared? && s.phases[ms[k].id].ip == ip
       && from <= s.now < from + cfg.window
  }

  /** A login is refused at most once. */
  lemma RefusedOnce(cfg: Config, now: int, ms: seq<Move>, a: nat, b: nat, id: LoginId)
    requires cfg.globalFailures >= 1 && CanRun(cfg, Start(now), ms) && Refuses(ms, a, id) && Refuses(ms, b, id)
    ensures b <= a
  {
    RefusalAccounted(cfg, now, ms, b, id);
    if a < b { RefusalAccounted(cfg, now, ms[..b], a, id); }
  }

  /**
   However many clients race, AdGuard refuses at most 2P - 2 passwords from
   one IP in any stretch of one window's length, by the time it refused them.
   */
  lemma GuessesBounded(cfg: Config, now: int, ms: seq<Move>, ip: Ip, from: int)
    requires Thresholds(cfg) && cfg.globalFailures >= 1 && CanRun(cfg, Start(now), ms)
    ensures |GuessesIn(cfg, now, ms, ip, from)| <= Bound(cfg)
  {
    var s := AfterMoves(cfg, Start(now), ms);
    var ks, d := GuessesIn(cfg, now, ms, ip, from), JudgedIn(cfg, s, ip, from);
    StaysOk(cfg, now, ms);
    JudgedBounded(cfg, s, ip, from);
    var of := map k | k in ks :: ms[k].id;
    forall k | k in ks ensures of[k] in d {
      RefusalAccounted(cfg, now, ms, k, ms[k].id);
    }
    forall a, b | a in ks && b in ks && a != b ensures of[a] != of[b] {
      if of[a] == of[b] {
        RefusedOnce(cfg, now, ms, a, b, of[a]);
        RefusedOnce(cfg, now, ms, b, a, of[a]);
      }
    }
    Injects(ks, d, of);
  }

  // ----- which logins reach AdGuard -----

  /** The limiter denies ip now: its last lockout has not ended, or the global window is full. */
  predicate DeniedNow(cfg: Config, s: Server, ip: Ip) {
    InLockout(cfg, s.calls, ip, s.now) || CapReached(cfg, s.calls, s.now)
  }

  /**
   A login is asked of AdGuard exactly when neither check denies it; one denied
   or answered with anything but bad credentials is over, frees the slot and
   counts no failure. Other logins stay where they are.
   */
  lemma AskedIff(cfg: Config, now: int, ms: seq<Move>, m: Move)
    requires cfg.globalFailures >= 1 && CanRun(cfg, Start(now), ms) && CanMove(AfterMoves(cfg, Start(now), ms), m)
    ensures var s := AfterMoves(cfg, Start(now), ms);
            var s' := Moved(cfg, s, m);
            && (m.Arrive? ==> s'.phases == s.phases[m.id := if DeniedNow(cfg, s, m.ip) then Closed else Queued(m.ip)]
                              && s'.slot == s.slot)
            && (m.GiveUp? ==> s'.phases == s.phases[m.id := Closed] && s'.slot == s.slot)
            && (m.Acquire? ==> s.slot == None && s'.slot == Some(m.id) &&
                               s'.phases == s.phases[m.id := Holding(s.phases[m.id].ip)])
            && (m.Recheck? ==>
                  var ip := s.phases[m.id].ip;
                  && s.slot == Some(m.id) && s'.slot == (if DeniedNow(cfg, s, ip) then None else Some(m.id))
                  && s'.phases == s.phases[m.id := if DeniedNow(cfg, s, ip) then Closed else Cleared(ip)])
            && (m.Answered? && !m.answer.BadCredentials? ==>
                  s'.phases == s.phases[m.id := Closed] && s.slot == Some(m.id) && s'.slot == None)
            && (!m.CountFailed? ==> forall k | |s.calls| <= k < |s'.calls| :: !s'.calls[k].Fail?)
  {
    StaysOk(cfg, now, ms);
    var s := AfterMoves(cfg, Start(now), ms);
    if m.Arrive? { CheckExact(cfg, s.calls, m.ip, s.now); }
    if m.Recheck? { CheckExact(cfg, s.calls, s.phases[m.id].ip, s.now); }
  }

  lemma RunMore(cfg: Config, s: Server, ms: seq<Move>, m: Move)
    requires CanRun(cfg, s, ms) && CanMove(AfterMoves(cfg, s, ms), m)
    ensures CanRun(cfg, s, ms + [m]) && AfterMoves(cfg, s, ms + [m]) == Moved(cfg, AfterMoves(cfg, s, ms), m)
  {
    assert Front(ms + [m]) == ms;
  }

  /** Every other login is where it was. */
  ghost predicate OthersStay(s: Server, s': Server, id: LoginId) {
    forall i | i != id && i in s.phases :: i in s'.phases && s'.phases[i] == s.phases[i]
  }

  /** Whoever is in the slot can leave it, in at most two moves of its own. */
  lemma SlotFrees(cfg: Config, s: Server, id: LoginId) returns (ms: seq<Move>)
    requires LoginOk(cfg, s) && s.slot == Some(id)
    ensures |ms| <= 2 && CanRun(cfg, s, ms)
    ensures AfterMoves(cfg, s, ms).slot == None && OthersStay(s, AfterMoves(cfg, s, ms), id)
    ensures AfterMoves(cfg, s, ms).now == s.now
    ensures forall m | m in ms :: m == Recheck(id) || m == Answered(id, Accepts) || m == CountFailed(id)
  {
    assert InSlot(s.phases[id]);
    var first := match s.phases[id]
      case Holding(_) => Recheck(id)
      case Cleared(_) => Answered(id, Accepts)
      case _ => CountFailed(id);
    RunMore(cfg, s, [], first);
    ms := [] + [first];
    var s1 := AfterMoves(cfg, s, ms);
    if s1.slot != None {
      RunMore(cfg, s, ms, Answered(id, Accepts));
      ms := ms + [Answered(id, Accepts)];
    }
  }

  /** No login waits in vain: from every reachable state four moves at most have a waiting one checked again. */
  lemma WaitingIsDecided(cfg: Config, now: int, ms: seq<Move>, id: LoginId) returns (more: seq<Move>)
    requires cfg.globalFailures >= 1 && CanRun(cfg, Start(now), ms)
    requires var s := AfterMoves(cfg, Start(now), ms); id in s.phases && s.phases[id].Queued?
    ensures |more| <= 4 && CanRun(cfg, AfterMoves(cfg, Start(now), ms), more) && more != []
    ensures var s := AfterMoves(cfg, Start(now), ms);
            var s' := AfterMoves(cfg, s, more);
            && Last(more) == Recheck(id) && id in s'.phases && s'.now == s.now
            && (s'.phases[id] == Cleared(s.phases[id].ip) || s'.phases[id] == Closed)
  {
    StaysOk(cfg, now, ms);
    var s := AfterMoves(cfg, Start(now), ms);
    more := [];
    if s.slot.Some? {
      assert InSlot(s.phases[s.slot.value]);
      more := SlotFrees(cfg, s, s.slot.value);
    }
    RunMore(cfg, s, more, Acquire(id));
    var held := more + [Acquire(id)];
    RunMore(cfg, s, held, Recheck(id));
    more := held + [Recheck(id)];
  }

  // ----- how many passwords all IPs together can try -----

  /** One more call, and what the limiter then counts at most, keep the cap. */
  lemma CapStep(cfg: Config, calls: seq<Call>, c: Call)
    requires TimedTo(calls + [c], c.at) && CapKept(cfg, AllHits(cfg, calls))
    requires Exec(cfg, EMPTY, calls + [c]).globalFails <= cfg.globalFailures
    ensures CapKept(cfg, AllHits(cfg, calls + [c]))
  {
    var ts := AllHits(cfg, calls);
    GlobalCounted(cfg, calls + [c], c.at);
    assert Front(calls + [c]) == calls;
    assert AllHits(cfg, calls + [c]) == ts || Front(AllHits(cfg, calls + [c])) == ts;
  }

  lemma {:induction false} CapAlways(cfg: Config, now: int, ms: seq<Move>)
    requires cfg.globalFailures >= 1 && CanRun(cfg, Start(now), ms)
    ensures CapKept(cfg, AllHits(cfg, AfterMoves(cfg, Start(now), ms).calls))
  {
    if ms != [] {
      var s, s' := AfterMoves(cfg, Start(now), Front(ms)), AfterMoves(cfg, Start(now), ms);
      CapAlways(cfg, now, Front(ms));
      StaysOk(cfg, now, ms);
      if s'.calls != s.calls {
        assert s'.calls == s.calls + [Last(s'.calls)];
        CapStep(cfg, s.calls, Last(s'.calls));
      }
    }
  }

  /** The logins, from any IP, whose refusal was counted in [from, from + window). */
  function CountedIn(cfg: Config, s: Server, from: int): set<LoginId> {
    set id | id in s.phases && s.phases[id].Rejected? && s.phases[id].call < |s.calls| &&
             from <= s.calls[s.phases[id].call].at < from + cfg.window
  }

  lemma PlaceAt(cfg: Config, s: Server, from: int, id: LoginId)
    requires LoginOk(cfg, s) && id in CountedIn(cfg, s, from)
    ensures PlaceOf(cfg, s.calls, s.phases[id].call) in Within(cfg, AllHits(cfg, s.calls), from)
    ensures forall j | s.phases[id].call < j < |s.calls| ::
              PlaceOf(cfg, s.calls, s.phases[id].call) < PlaceOf(cfg, s.calls, j)
  {
    assert CountedAt(cfg, s.calls, s.phases[id].call, s.phases[id].ip);
    HitAmongAll(cfg, s.calls, s.now, s.phases[id].call);
  }

  lemma PlacesApart(cfg: Config, s: Server, from: int, a: LoginId, b: LoginId)
    requires LoginOk(cfg, s) && a in CountedIn(cfg, s, from) && b in CountedIn(cfg, s, from) && a != b
    ensures PlaceOf(cfg, s.calls, s.phases[a].call) != PlaceOf(cfg, s.calls, s.phases[b].call)
  {
    assert InTurn(s.phases, a, b);
    PlaceAt(cfg, s, from, a);
    PlaceAt(cfg, s, from, b);
  }

  lemma CountedPlaces(cfg: Config, s: Server, from: int) returns (at: map<LoginId, nat>)
    requires LoginOk(cfg, s)
    ensures at.Keys == CountedIn(cfg, s, from)
    ensures forall id | id in at :: at[id] in Within(cfg, AllHits(cfg, s.calls), from)
    ensures forall a, b | a in at && b in at && a != b :: at[a] != at[b]
  {
    at := map id | id in CountedIn(cfg, s, from) :: PlaceOf(cfg, s.calls, s.phases[id].call);
    forall id | id in at ensures at[id] in Within(cfg, AllHits(cfg, s.calls), from) {
      PlaceAt(cfg, s, from, id);
    }
    forall a, b | a in at && b in at && a != b ensures at[a] != at[b] {
      PlacesApart(cfg, s, from, a, b);
    }
  }

  /**
   However many clients race from however many IPs, at most 2G - 1 refusals are
   counted in any stretch of one window's length, G being the global cap.
   */
  lemma CapBounds(cfg: Config, now: int, ms: seq<Move>, from: int)
    requires cfg.globalFailures >= 1 && cfg.window > 0 && CanRun(cfg, Start(now), ms)
    ensures |CountedIn(cfg, AfterMoves(cfg, Start(now), ms), from)| <= 2 * cfg.globalFailures - 1
  {
    var s := AfterMoves(cfg, Start(now), ms);
    var ids, ts := CountedIn(cfg, s, from), AllHits(cfg, s.calls);
    StaysOk(cfg, now, ms);
    CapAlways(cfg, now, ms);
    GlobalCounted(cfg, s.calls, s.now);
    CapSlides(cfg, ts, s.now, from);
    var at := CountedPlaces(cfg, s, from);
    Injects(ids, Within(cfg, ts, from), at);
  }
}
