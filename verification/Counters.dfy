/**
 The pool's counters against a plain log of requests. Marks and per-incarnation counters are a
 cache; this module proves that what `counts` answers is what the log says.
 */
module Counters {
  import opened Edge
  import opened Pool
  import opened PoolRuns

  /** One entry per install and per counted request; `who` is the incarnation charged, if any. */
  datatype Entry = Snap(at: Time) | Req(who: Option<int>, status: int, connectFailed: bool)

  ghost function EntriesOf(p: Pool, op: Op): seq<Entry> {
    match op
    case Install(_, _, _, now, _) => [Snap(now)]
    case CountRequest(replica, status, failed) => [Req(Holder(p, replica), status, failed)]
    case CountUnrouted => [Req(None, 500, false)]
    case _ => []
  }

  /** The incarnation holding a replica index when a request is counted. */
  ghost function Holder(p: Pool, replica: int): Option<int> {
    match Find(p.targets, replica)
    case None => None
    case Some(i) => Some(p.targets[i].incarnation)
  }

  /** The three numbers kept, and which requests each of them counts. */
  datatype Number = Requests | Status5xx | ConnectFailures {
    function Of(c: Counter): int {
      match this
      case Requests => c.requests
      case Status5xx => c.status5xx
      case ConnectFailures => c.connectFailures
    }

    predicate Counts(status: int, connectFailed: bool) {
      match this
      case Requests => true
      case Status5xx => !connectFailed && status >= 500
      case ConnectFailures => connectFailed
    }
  }

  ghost predicate Hit(e: Entry, who: Option<int>, n: Number) {
    e.Req? && e.who == who && n.Counts(e.status, e.connectFailed)
  }

  /** Where a log has a request charged to `who` that a number counts. */
  ghost function Hits(log: seq<Entry>, who: Option<int>, n: Number): set<nat> {
    set i: nat | i < |log| && Hit(log[i], who, n)
  }

  ghost function Sum(log: seq<Entry>, who: Option<int>, n: Number): nat { |Hits(log, who, n)| }

  /** The plain count of the requests in a log charged to `who`: so many, so many answered 500 or above, so many not connected. */
  ghost function Tally(log: seq<Entry>, who: Option<int>): Counter {
    Counter(Sum(log, who, Requests), Sum(log, who, Status5xx), Sum(log, who, ConnectFailures))
  }

  /** What one more entry adds to the plain count. */
  ghost function Weight(e: Entry, who: Option<int>): Counter {
    Counter(if Hit(e, who, Requests) then 1 else 0, if Hit(e, who, Status5xx) then 1 else 0,
            if Hit(e, who, ConnectFailures) then 1 else 0)
  }

  ghost function TallyOf(log: seq<Entry>, inc: int): Counter { Tally(log, Some(inc)) }

  ghost function Unrouted(log: seq<Entry>): Counter { Tally(log, None) }

  /** The positions of the installs in a log. */
  ghost function Snaps(log: seq<Entry>): (r: seq<nat>)
    ensures forall k :: 0 <= k < |r| ==> r[k] < |log| && log[r[k]].Snap?
    ensures forall j, k :: 0 <= j < k < |r| ==> r[j] < r[k]
  {
    if log == [] then []
    else
      var n := |log| - 1;
      Snaps(log[..n]) + if log[n].Snap? then [n] else []
  }

  // ----- arithmetic of tallies

  lemma SumNone(who: Option<int>, n: Number)
    ensures Sum([], who, n) == 0
  {
    assert Hits([], who, n) == {};
  }

  lemma SumMore(log: seq<Entry>, e: Entry, who: Option<int>, n: Number)
    ensures Sum(log + [e], who, n) == Sum(log, who, n) + if Hit(e, who, n) then 1 else 0
  {
    HitsMore(log, e, who, n);
    hide Hits, Hit;
    var one: set<nat> := if Hit(e, who, n) then {|log|} else {};
    assert |Hits(log, who, n) + one| == |Hits(log, who, n)| + |one|;
  }

  lemma HitsMore(log: seq<Entry>, e: Entry, who: Option<int>, n: Number)
    ensures Hits(log + [e], who, n) == Hits(log, who, n) + if Hit(e, who, n) then {|log|} else {}
    ensures |log| !in Hits(log, who, n)
  {
    hide Hit;
    var m, more := |log|, log + [e];
    forall i: nat ensures i in Hits(more, who, n) <==> i in Hits(log, who, n) || (i == m && Hit(e, who, n)) {
      if i < m { assert more[i] == log[i]; }
    }
  }

  lemma SumLast(log: seq<Entry>, who: Option<int>, n: Number)
    requires log != []
    ensures Sum(log, who, n) == Sum(log[..|log| - 1], who, n) + if Hit(log[|log| - 1], who, n) then 1 else 0
  {
    assert log == log[..|log| - 1] + [log[|log| - 1]];
    SumMore(log[..|log| - 1], log[|log| - 1], who, n);
  }

  lemma {:induction false} SumConcat(a: seq<Entry>, b: seq<Entry>, who: Option<int>, n: Number)
    ensures Sum(a + b, who, n) == Sum(a, who, n) + Sum(b, who, n)
  {
    hide Sum, Hit;
    if b == [] {
      assert a + b == a;
      SumNone(who, n);
    } else {
      SumConcat(a, b[..|b| - 1], who, n);
      SumLast(b, who, n);
      SumMore(a + b[..|b| - 1], b[|b| - 1], who, n);
      assert a + b == a + b[..|b| - 1] + [b[|b| - 1]];
    }
  }

  lemma TallyConcat(a: seq<Entry>, b: seq<Entry>, who: Option<int>)
    ensures Tally(a + b, who) == Tally(a, who).Plus(Tally(b, who))
  {
    hide Sum;
    SumConcat(a, b, who, Requests);
    SumConcat(a, b, who, Status5xx);
    SumConcat(a, b, who, ConnectFailures);
  }

  lemma {:induction false} TallyBounds(log: seq<Entry>, who: Option<int>)
    ensures var c := Tally(log, who);
      0 <= c.status5xx && 0 <= c.connectFailures && c.Errors() <= c.requests
  {
    hide Sum;
    if log == [] {
      SumNone(who, Requests);
      SumNone(who, Status5xx);
      SumNone(who, ConnectFailures);
    } else {
      TallyBounds(log[..|log| - 1], who);
      SumLast(log, who, Requests);
      SumLast(log, who, Status5xx);
      SumLast(log, who, ConnectFailures);
    }
  }

  lemma TallyNone(log: seq<Entry>, inc: int, last: int)
    requires KnownOnly(log, last) && last < inc
    ensures TallyOf(log, inc) == NO_COUNTS
  {
    assert forall n: Number :: Hits(log, Some(inc), n) == {};
  }

  lemma TallyExtend(log: seq<Entry>, e: Entry, who: Option<int>)
    ensures Tally(log + [e], who) == Tally(log, who).Plus(Weight(e, who))
  {
    hide Sum;
    SumMore(log, e, who, Requests);
    SumMore(log, e, who, Status5xx);
    SumMore(log, e, who, ConnectFailures);
  }

  // ----- agreement between a pool and its log

  /** No request was charged to an incarnation not handed out yet. */
  ghost predicate KnownOnly(log: seq<Entry>, last: int) {
    forall i :: 0 <= i < |log| && log[i].Req? && log[i].who.Some? ==> log[i].who.value <= last
  }

  /** A mark taken at log position `pos` holds, for a live slot, what was counted by then. */
  ghost predicate MarkFits(m: CountMark, log: seq<Entry>, pos: nat, s: Slot)
    requires pos < |log|
  {
    if s.t.replica in m.per && m.per[s.t.replica].incarnation == s.incarnation
    then m.per[s.t.replica].counted == TallyOf(log[..pos], s.incarnation)
    else TallyOf(log[..pos], s.incarnation) == NO_COUNTS
  }

  ghost predicate MarkAgrees(m: CountMark, log: seq<Entry>, pos: nat, slots: seq<Slot>)
    requires pos < |log| && log[pos].Snap?
  {
    && m.at == log[pos].at
    && m.unrouted == Unrouted(log[..pos])
    && forall s :: s in slots ==> MarkFits(m, log, pos, s)
  }

  ghost predicate MarkKnown(m: CountMark, last: int) {
    forall r :: r in m.per ==> m.per[r].incarnation <= last
  }

  /** Where the kept marks stand in the log: the last installs, at most MAX_COUNT_MARKS of them. */
  ghost function Kepts(log: seq<Entry>): seq<nat> {
    var s := Snaps(log);
    if |s| > MAX_COUNT_MARKS then s[|s| - MAX_COUNT_MARKS..] else s
  }

  ghost predicate SlotCounts(s: Slot, log: seq<Entry>) { s.counted == TallyOf(log, s.incarnation) }

  ghost predicate Agrees(p: Pool, log: seq<Entry>, last: int) {
    && KnownOnly(log, last)
    && p.unrouted == Unrouted(log)
    && (forall s :: s in p.targets ==> SlotCounts(s, log))
    && (forall m :: m in p.marks ==> MarkKnown(m, last))
    && MarksAgree(p.marks, Kepts(log), log, p.targets)
  }

  ghost predicate MarksAgree(marks: seq<CountMark>, at: seq<nat>, log: seq<Entry>, slots: seq<Slot>) {
    && |marks| == |at|
    && forall k :: 0 <= k < |marks| ==>
         at[k] < |log| && log[at[k]].Snap? && MarkAgrees(marks[k], log, at[k], slots)
  }

  /** Two slots the counters cannot tell apart. */
  ghost predicate SameCounters(s: Slot, t: Slot) {
    s.incarnation == t.incarnation && s.t.replica == t.t.replica && s.counted == t.counted
  }

  /** A step that leaves the counters alone keeps the agreement. */
  lemma QuietStep(p: Pool, q: Pool, log: seq<Entry>, last: int)
    requires Agrees(p, log, last)
    requires q.unrouted == p.unrouted && q.marks == p.marks
    requires forall t :: t in q.targets ==> exists s :: s in p.targets && SameCounters(s, t)
    ensures Agrees(q, log, last)
  {
    hide Sum;
    forall k | 0 <= k < |q.marks| ensures MarkAgrees(q.marks[k], log, Kepts(log)[k], q.targets) {
      forall t | t in q.targets ensures MarkFits(q.marks[k], log, Kepts(log)[k], t) {
        var s :| s in p.targets && SameCounters(s, t);
        assert MarkFits(p.marks[k], log, Kepts(log)[k], s);
      }
    }
    forall t | t in q.targets ensures SlotCounts(t, log) {
      var s :| s in p.targets && SameCounters(s, t);
      assert SlotCounts(s, log);
    }
  }

  lemma SnapsExtend(log: seq<Entry>, e: Entry)
    ensures Snaps(log + [e]) == Snaps(log) + if e.Snap? then [|log|] else []
  {
    assert (log + [e])[..|log|] == log;
  }

  /** A mark does not see what is logged after it. */
  lemma MarkKeeps(m: CountMark, log: seq<Entry>, e: Entry, pos: nat, slots: seq<Slot>)
    requires pos < |log| && log[pos].Snap? && MarkAgrees(m, log, pos, slots)
    ensures MarkAgrees(m, log + [e], pos, slots)
  {
    hide Sum;
    assert (log + [e])[..pos] == log[..pos];
    forall s | s in slots ensures MarkFits(m, log + [e], pos, s) {
      assert MarkFits(m, log, pos, s);
    }
  }

  /** The marks agree with a longer log, and with slots of the same incarnations. */
  lemma MarksKeep(marks: seq<CountMark>, at: seq<nat>, log: seq<Entry>, e: Entry, slots: seq<Slot>, slots': seq<Slot>)
    requires MarksAgree(marks, at, log, slots) && |slots'| == |slots|
    requires forall i :: 0 <= i < |slots| ==>
      slots'[i].incarnation == slots[i].incarnation && slots'[i].t.replica == slots[i].t.replica
    ensures MarksAgree(marks, at, log + [e], slots')
  {
    hide Sum;
    forall k | 0 <= k < |marks| ensures MarkAgrees(marks[k], log + [e], at[k], slots') {
      MarkKeeps(marks[k], log, e, at[k], slots);
      forall t | t in slots' ensures MarkFits(marks[k], log + [e], at[k], t) {
        var i :| 0 <= i < |slots'| && slots'[i] == t;
        assert MarkFits(marks[k], log + [e], at[k], slots[i]);
      }
    }
  }

  /** Counting a request logs it against the incarnation that holds the index, or as unrouted. */
  lemma RequestStep(p: Pool, op: Op, log: seq<Entry>, last: int)
    requires Inv(p, last) && Agrees(p, log, last)
    requires op.CountRequest? || op.CountUnrouted?
    ensures Agrees(Step(p, op).pool, log + EntriesOf(p, op), last)
  {
    hide Step, EntriesOf, Agrees, Inv;
    HolderKnown(p, op, last);
    var q := Step(p, op).pool;
    var e := EntriesOf(p, op)[0];
    forall i | 0 <= i < |p.targets| ensures ChargedBy(e, p.targets[i], q.targets[i]) {
      ChargedOnce(p, op, last, i);
    }
    LoggedRequest(p, q, e, log, last);
    assert EntriesOf(p, op) == [e];
    assert LastAfter(p, op, last) == last;
  }

  ghost predicate ChargedBy(e: Entry, s: Slot, s': Slot) {
    && s'.incarnation == s.incarnation && s'.t == s.t
    && s'.counted == s.counted.Plus(Weight(e, Some(s.incarnation)))
  }

  lemma LoggedRequest(p: Pool, q: Pool, e: Entry, log: seq<Entry>, last: int)
    requires Agrees(p, log, last) && e.Req? && (e.who.Some? ==> e.who.value <= last)
    requires q.unrouted == p.unrouted.Plus(Weight(e, None)) && q.marks == p.marks && |q.targets| == |p.targets|
    requires forall i :: 0 <= i < |p.targets| ==> ChargedBy(e, p.targets[i], q.targets[i])
    ensures Agrees(q, log + [e], last)
  {
    hide MarksAgree, ChargedBy, Kepts, SlotCounts, MarkKnown, Unrouted, Weight;
    KeptsSame(log, e);
    RequestTallied(p, q, e, log);
    SameSlots(e, p.targets, q.targets);
    MarksKeep(p.marks, Kepts(log), log, e, p.targets, q.targets);
  }

  lemma KeptsSame(log: seq<Entry>, e: Entry)
    requires e.Req?
    ensures Kepts(log + [e]) == Kepts(log)
  {
    SnapsExtend(log, e);
  }

  lemma SameSlots(e: Entry, slots: seq<Slot>, slots': seq<Slot>)
    requires |slots'| == |slots| && forall i :: 0 <= i < |slots| ==> ChargedBy(e, slots[i], slots'[i])
    ensures forall i :: 0 <= i < |slots| ==>
      slots'[i].incarnation == slots[i].incarnation && slots'[i].t.replica == slots[i].t.replica
  {
  }

  lemma RequestTallied(p: Pool, q: Pool, e: Entry, log: seq<Entry>)
    requires p.unrouted == Unrouted(log) && forall s :: s in p.targets ==> SlotCounts(s, log)
    requires q.unrouted == p.unrouted.Plus(Weight(e, None)) && |q.targets| == |p.targets|
    requires forall i :: 0 <= i < |p.targets| ==> ChargedBy(e, p.targets[i], q.targets[i])
    ensures q.unrouted == Unrouted(log + [e]) && forall t :: t in q.targets ==> SlotCounts(t, log + [e])
  {
    hide Sum;
    TallyExtend(log, e, None);
    forall t | t in q.targets ensures SlotCounts(t, log + [e]) {
      var i :| 0 <= i < |q.targets| && q.targets[i] == t;
      assert SlotCounts(p.targets[i], log) && ChargedBy(e, p.targets[i], t);
      TallyExtend(log, e, Some(t.incarnation));
    }
  }

  lemma HolderKnown(p: Pool, op: Op, last: int)
    requires Inv(p, last) && (op.CountRequest? || op.CountUnrouted?)
    ensures |EntriesOf(p, op)| == 1
    ensures var e := EntriesOf(p, op)[0]; e.Req? && (e.who.Some? ==> e.who.value <= last)
    ensures var q := Step(p, op).pool;
      && q.unrouted == p.unrouted.Plus(Weight(EntriesOf(p, op)[0], None)) && q.marks == p.marks
      && |q.targets| == |p.targets|
  {
    if op.CountRequest? && Find(p.targets, op.replica).Some? {
      assert SlotOk(p.targets[Find(p.targets, op.replica).value], p.issued, last);
    }
  }

  lemma ChargedOnce(p: Pool, op: Op, last: int, i: nat)
    requires Inv(p, last) && (op.CountRequest? || op.CountUnrouted?) && i < |p.targets|
    ensures |Step(p, op).pool.targets| == |p.targets|
    ensures |EntriesOf(p, op)| == 1 && ChargedBy(EntriesOf(p, op)[0], p.targets[i], Step(p, op).pool.targets[i])
  {
    if op.CountRequest? {
      var f := Find(p.targets, op.replica);
      if f.Some? && f.value != i {
        assert SlotsApart(p.targets[i], p.targets[f.value]);
      }
    }
  }

  // ----- installing

  lemma {:induction false} PerAt(slots: seq<Slot>, i: nat)
    requires Ordered(slots) && i < |slots|
    ensures slots[i].t.replica in PerOf(slots)
    ensures PerOf(slots)[slots[i].t.replica] == MarkEntry(slots[i].incarnation, slots[i].counted)
  {
    if i < |slots| - 1 { PerAt(slots[..|slots| - 1], i); }
  }

  /** A slot after an install carries old counters over, or is new with none. */
  lemma InstallCounters(p: Pool, op: Op, last: int, log: seq<Entry>, t: Slot)
    requires Inv(p, last) && Legal(p, op, last) && op.Install? && KnownOnly(log, last)
    requires t in Step(p, op).pool.targets
    ensures (exists s :: s in p.targets && SameCounters(s, t)) || (t.counted == NO_COUNTS && t.incarnation > last)
  {
    var x, want := InstallOrigin(p, op, last, t);
    if Kept(p.targets, want) {
      assert SameCounters(p.targets[Find(p.targets, want.replica).value], t);
    }
  }

  lemma NewMark(log: seq<Entry>, now: Time, unrouted: Counter, slots: seq<Slot>)
    requires Ordered(slots) && unrouted == Unrouted(log) && forall s :: s in slots ==> SlotCounts(s, log)
    ensures MarkAgrees(CountMark(now, unrouted, PerOf(slots)), log + [Snap(now)], |log|, slots)
  {
    hide Sum;
    var m := CountMark(now, unrouted, PerOf(slots));
    assert (log + [Snap(now)])[..|log|] == log;
    forall s | s in slots ensures MarkFits(m, log + [Snap(now)], |log|, s) {
      var i :| 0 <= i < |slots| && slots[i] == s;
      PerAt(slots, i);
      assert SlotCounts(s, log);
    }
  }

  /** A mark agrees with the slots of an install: kept ones as before, new ones had no requests. */
  lemma MarkOverInstall(m: CountMark, log: seq<Entry>, pos: nat, prior: seq<Slot>, slots: seq<Slot>, last: int)
    requires pos < |log| && log[pos].Snap? && MarkAgrees(m, log, pos, prior) && KnownOnly(log, last)
    requires forall t :: t in slots ==>
      (exists s :: s in prior && SameCounters(s, t)) || (t.counted == NO_COUNTS && t.incarnation > last)
    requires MarkKnown(m, last)
    ensures MarkAgrees(m, log, pos, slots)
  {
    hide Sum;
    forall t | t in slots ensures MarkFits(m, log, pos, t) {
      if t.incarnation > last {
        TallyNone(log[..pos], t.incarnation, last);
      } else {
        var s :| s in prior && SameCounters(s, t);
        assert MarkFits(m, log, pos, s);
      }
    }
  }

  lemma {:induction false} PerKnown(slots: seq<Slot>, last: int)
    requires forall s :: s in slots ==> s.incarnation <= last
    ensures forall r :: r in PerOf(slots) ==> PerOf(slots)[r].incarnation <= last
  {
    if slots != [] { PerKnown(slots[..|slots| - 1], last); }
  }

  lemma KeptsExtend(log: seq<Entry>, now: Time)
    ensures var all := Kepts(log) + [|log|];
      Kepts(log + [Snap(now)]) == if |all| > MAX_COUNT_MARKS then all[1..] else all
  {
    SnapsExtend(log, Snap(now));
  }

  /** Taking a snapshot of an agreeing pool logs an install and keeps the agreement. */
  lemma SnapshotStep(p: Pool, log: seq<Entry>, now: Time, last: int)
    requires Agrees(p, log, last) && Ordered(p.targets)
    requires forall s :: s in p.targets ==> s.incarnation <= last
    ensures Agrees(Snapshot(p, now), log + [Snap(now)], last)
  {
    hide Sum, MarksAgree, SlotCounts, Unrouted, MarkAgrees;
    var m := CountMark(now, p.unrouted, PerOf(p.targets));
    PerKnown(p.targets, last);
    NewMark(log, now, p.unrouted, p.targets);
    NewMarks(p.marks, m, log, now, p.targets);
    SnapLogged(p, log, now, last);
    forall x | x in Snapshot(p, now).marks ensures MarkKnown(x, last) {
      assert x == m || x in p.marks;
    }
  }

  /** An install's entry in the log charges nothing. */
  lemma SnapLogged(p: Pool, log: seq<Entry>, now: Time, last: int)
    requires KnownOnly(log, last) && p.unrouted == Unrouted(log) && forall s :: s in p.targets ==> SlotCounts(s, log)
    ensures KnownOnly(log + [Snap(now)], last) && p.unrouted == Unrouted(log + [Snap(now)])
    ensures forall s :: s in p.targets ==> SlotCounts(s, log + [Snap(now)])
  {
    hide Sum;
    TallySnap(log, now, None);
    forall s | s in p.targets ensures SlotCounts(s, log + [Snap(now)]) {
      assert SlotCounts(s, log);
      TallySnap(log, now, Some(s.incarnation));
    }
  }

  lemma TallySnap(log: seq<Entry>, now: Time, who: Option<int>)
    ensures Tally(log + [Snap(now)], who) == Tally(log, who)
  {
    hide Sum;
    TallyExtend(log, Snap(now), who);
    assert Weight(Snap(now), who) == NO_COUNTS;
  }

  lemma NewMarks(marks: seq<CountMark>, m: CountMark, log: seq<Entry>, now: Time, slots: seq<Slot>)
    requires MarksAgree(marks, Kepts(log), log, slots) && MarkAgrees(m, log + [Snap(now)], |log|, slots)
    ensures var all := marks + [m];
      MarksAgree(if |all| > MAX_COUNT_MARKS then all[1..] else all, Kepts(log + [Snap(now)]), log + [Snap(now)], slots)
  {
    hide Sum;
    MarksKeep(marks, Kepts(log), log, Snap(now), slots, slots);
    KeptsExtend(log, now);
    hide MarkAgrees, Kepts;
    assert MarksAgree(marks + [m], Kepts(log) + [|log|], log + [Snap(now)], slots);
  }

  /** The pool an install leaves, before its snapshot, agrees with the log so far. */
  lemma InstallStep(p: Pool, op: Op, log: seq<Entry>, last: int)
    requires Inv(p, last) && Legal(p, op, last) && op.Install? && Agrees(p, log, last)
    ensures Agrees(Step(p, op).pool, log + EntriesOf(p, op), LastAfter(p, op, last))
  {
    hide Sum;
    var q := Step(p, op).pool;
    var last' := LastAfter(p, op, last);
    StepInv(p, op, last);
    var mid := q.(marks := p.marks);
    assert q == Snapshot(mid, op.now);
    forall t | t in q.targets
      ensures (exists s :: s in p.targets && SameCounters(s, t)) || (t.counted == NO_COUNTS && t.incarnation > last)
    {
      InstallCounters(p, op, last, log, t);
    }
    CountsKept(p, mid, log, last, last');
    forall s | s in q.targets ensures s.incarnation <= last' {
      assert SlotOk(s, q.issued, last');
    }
    SnapshotStep(mid, log, op.now, last');
  }

  lemma CountsKept(p: Pool, q: Pool, log: seq<Entry>, last: int, last': int)
    requires Agrees(p, log, last) && last <= last' && q.unrouted == p.unrouted && q.marks == p.marks
    requires forall t :: t in q.targets ==>
      (exists s :: s in p.targets && SameCounters(s, t)) || (t.counted == NO_COUNTS && t.incarnation > last)
    ensures Agrees(q, log, last')
  {
    hide Sum;
    forall k | 0 <= k < |q.marks| ensures MarkAgrees(q.marks[k], log, Kepts(log)[k], q.targets) {
      MarkOverInstall(p.marks[k], log, Kepts(log)[k], p.targets, q.targets, last);
    }
    forall t | t in q.targets ensures SlotCounts(t, log) {
      if t.incarnation > last {
        TallyNone(log, t.incarnation, last);
        if s :| s in p.targets && SameCounters(s, t) { assert SlotCounts(s, log); }
      } else {
        var s :| s in p.targets && SameCounters(s, t);
        assert SlotCounts(s, log);
      }
    }
  }

  /** Every legal step keeps the counters in agreement with the log. */
  lemma StepAgrees(p: Pool, op: Op, log: seq<Entry>, last: int)
    requires Inv(p, last) && Legal(p, op, last) && Agrees(p, log, last)
    ensures Agrees(Step(p, op).pool, log + EntriesOf(p, op), LastAfter(p, op, last))
  {
    hide Sum;
    if op.Install? {
      InstallStep(p, op, log, last);
    } else if op.CountRequest? || op.CountUnrouted? {
      RequestStep(p, op, log, last);
    } else {
      assert log + EntriesOf(p, op) == log;
      var q := Step(p, op).pool;
      QuietOps(p, op);
      forall t | t in q.targets ensures exists s :: s in p.targets && SameCounters(s, t) {
        var i :| 0 <= i < |q.targets| && q.targets[i] == t;
        assert SameCounters(p.targets[i], t);
      }
      QuietStep(p, q, log, last);
    }
  }

  lemma QuietOps(p: Pool, op: Op)
    requires !op.Install? && !op.CountRequest? && !op.CountUnrouted?
    ensures var q := Step(p, op).pool;
      && q.unrouted == p.unrouted && q.marks == p.marks && |q.targets| == |p.targets|
      && forall i :: 0 <= i < |p.targets| ==> SameCounters(p.targets[i], q.targets[i])
  {
  }

  // ----- what `counts` answers

  datatype TargetCounts = TargetCounts(replica: int, counted: Counter)

  datatype HostCounts = HostCounts(host: string, total: Counter, unrouted: Counter, targets: seq<TargetCounts>)

  /** How many leading marks are not after `since`. */
  function Leading(marks: seq<CountMark>, since: Time): (n: nat)
    ensures n <= |marks|
    ensures forall k :: 0 <= k < n ==> marks[k].at <= since
    ensures n < |marks| ==> marks[n].at > since
  {
    if marks == [] || marks[0].at > since then 0 else 1 + Leading(marks[1..], since)
  }

  /** The mark to count from: the last one before the first after `since`, else the oldest. */
  function MarkAt(marks: seq<CountMark>, since: Time): (m: Option<nat>)
    ensures m.Some? <==> marks != []
    ensures m.Some? ==> m.value < |marks|
  {
    if marks == [] then None
    else if Leading(marks, since) == 0 then Some(0) else Some(Leading(marks, since) - 1)
  }

  function Since(s: Slot, m: Option<CountMark>): Counter {
    if m.Some? && s.t.replica in m.value.per && m.value.per[s.t.replica].incarnation == s.incarnation
    then s.counted.Sub(m.value.per[s.t.replica].counted) else s.counted
  }

  function Marked(p: Pool, since: Time): Option<CountMark> {
    match MarkAt(p.marks, since)
    case None => None
    case Some(k) => Some(p.marks[k])
  }

  function OwnCounts(p: Pool, since: Time): Counter {
    match Marked(p, since)
    case None => p.unrouted
    case Some(m) => p.unrouted.Sub(m.unrouted)
  }

  function TargetsOf(slots: seq<Slot>, m: Option<CountMark>): (r: seq<TargetCounts>)
    ensures |r| == |slots|
    ensures forall i :: 0 <= i < |slots| ==> r[i] == TargetCounts(slots[i].t.replica, Since(slots[i], m))
  {
    seq(|slots|, i requires 0 <= i < |slots| => TargetCounts(slots[i].t.replica, Since(slots[i], m)))
  }

  function AddUp(targets: seq<TargetCounts>): Counter {
    if targets == [] then NO_COUNTS else AddUp(targets[..|targets| - 1]).Plus(targets[|targets| - 1].counted)
  }

  lemma AddUpNone(own: Counter)
    ensures own.Plus(AddUp([])) == own
  {
  }

  lemma AddUpMore(own: Counter, targets: seq<TargetCounts>, one: TargetCounts)
    ensures own.Plus(AddUp(targets + [one])) == own.Plus(AddUp(targets)).Plus(one.counted)
  {
    assert (targets + [one])[..|targets|] == targets;
  }

  function CountsOf(p: Pool, since: Time): HostCounts {
    var targets := TargetsOf(p.targets, Marked(p, since));
    HostCounts(p.host, OwnCounts(p, since).Plus(AddUp(targets)), OwnCounts(p, since), targets)
  }

  /** The part of the log the answer covers: from the chosen install on, or all of it if none. */
  ghost function Window(log: seq<Entry>, p: Pool, since: Time): seq<Entry>
    requires |p.marks| == |Kepts(log)|
  {
    match MarkAt(p.marks, since)
    case None => log
    case Some(k) => log[Kepts(log)[k]..]
  }

  ghost predicate LogForward(log: seq<Entry>) {
    forall i, j :: 0 <= i < j < |log| && log[i].Snap? && log[j].Snap? ==> log[i].at <= log[j].at
  }

  /** Position `pos` is the latest kept install not after `since`, or the oldest kept one. */
  ghost predicate Chosen(log: seq<Entry>, since: Time, pos: nat) {
    && pos in Kepts(log) && pos < |log| && log[pos].Snap?
    && (forall q :: q in Kepts(log) && q > pos ==> q < |log| && log[q].Snap? && log[q].at > since)
    && (log[pos].at <= since || forall q :: q in Kepts(log) ==> q >= pos)
  }

  /** With a clock that never goes back, the chosen mark is the one the answer promises. */
  lemma WindowStartsAtChosen(p: Pool, log: seq<Entry>, last: int, since: Time)
    requires Agrees(p, log, last) && LogForward(log) && p.marks != []
    ensures exists pos: nat :: Chosen(log, since, pos) && Window(log, p, since) == log[pos..]
  {
    hide Sum;
    var k := MarkAt(p.marks, since).value;
    var at := Kepts(log);
    forall j | 0 <= j < |at| ensures at[j] < |log| && log[at[j]].Snap? && p.marks[j].at == log[at[j]].at {
      assert MarkAgrees(p.marks[j], log, at[j], p.targets);
    }
    ChosenMark(p.marks, at, log, since, k);
    assert Chosen(log, since, at[k]);
  }

  lemma ChosenMark(marks: seq<CountMark>, at: seq<nat>, log: seq<Entry>, since: Time, k: nat)
    requires LogForward(log) && |marks| == |at| && MarkAt(marks, since) == Some(k)
    requires forall i, j :: 0 <= i < j < |at| ==> at[i] < at[j]
    requires forall j :: 0 <= j < |at| ==> at[j] < |log| && log[at[j]].Snap? && marks[j].at == log[at[j]].at
    ensures forall q :: q in at && q > at[k] ==> log[q].at > since
    ensures log[at[k]].at <= since || forall q :: q in at ==> q >= at[k]
  {
    forall q | q in at && q > at[k] ensures log[q].at > since {
      var j :| 0 <= j < |at| && at[j] == q;
      var n := Leading(marks, since);
      assert n <= j && log[at[n]].at > since;
    }
  }

  lemma SubSplits(log: seq<Entry>, pos: nat, who: Option<int>)
    requires pos <= |log|
    ensures Tally(log, who).Sub(Tally(log[..pos], who)) == Tally(log[pos..], who)
    ensures Tally(log, who) == Tally(log[..pos], who).Plus(Tally(log[pos..], who))
  {
    hide Sum;
    assert log == log[..pos] + log[pos..];
    TallyConcat(log[..pos], log[pos..], who);
    TallyBounds(log[pos..], who);
  }

  /** Each live target's answer is the plain count of its incarnation's requests in the window. */
  lemma TargetCountsAreLogged(p: Pool, log: seq<Entry>, last: int, since: Time, i: nat)
    requires Agrees(p, log, last) && i < |p.targets|
    ensures CountsOf(p, since).targets[i]
         == TargetCounts(p.targets[i].t.replica, TallyOf(Window(log, p, since), p.targets[i].incarnation))
  {
    hide Sum;
    var s := p.targets[i];
    assert SlotCounts(s, log);
    var k := MarkAt(p.marks, since);
    if k.Some? {
      var pos := Kepts(log)[k.value];
      assert MarkAgrees(p.marks[k.value], log, pos, p.targets);
      assert MarkFits(p.marks[k.value], log, pos, s);
      SubSplits(log, pos, Some(s.incarnation));
    }
  }

  /** The unrouted part is the plain count of requests no target took in the window. */
  lemma UnroutedCountsAreLogged(p: Pool, log: seq<Entry>, last: int, since: Time)
    requires Agrees(p, log, last)
    ensures CountsOf(p, since).unrouted == Unrouted(Window(log, p, since))
  {
    hide Sum;
    var k := MarkAt(p.marks, since);
    if k.Some? {
      assert MarkAgrees(p.marks[k.value], log, Kepts(log)[k.value], p.targets);
      SubSplits(log, Kepts(log)[k.value], None);
    }
  }

  // ----- host totals

  predicate Sane(c: Counter) {
    0 <= c.status5xx && 0 <= c.connectFailures && c.Errors() <= c.requests
  }

  /** A request some live target, or no target, was charged for. */
  ghost predicate Charged(e: Entry, slots: seq<Slot>) {
    e.Req? && (e.who.None? || exists s :: s in slots && s.incarnation == e.who.value)
  }

  ghost predicate LiveHit(e: Entry, slots: seq<Slot>, n: Number) {
    Charged(e, slots) && n.Counts(e.status, e.connectFailed)
  }

  /** Every request of the log charged to a live target or to none, each counted once. */
  ghost function LiveSum(log: seq<Entry>, slots: seq<Slot>, n: Number): nat {
    |set i: nat | i < |log| && LiveHit(log[i], slots, n)|
  }

  lemma LiveSumNone(log: seq<Entry>, n: Number)
    ensures LiveSum(log, [], n) == Sum(log, None, n)
  {
    assert (set i: nat | i < |log| && LiveHit(log[i], [], n)) == Hits(log, None, n);
  }

  lemma LiveSumExtend(log: seq<Entry>, slots: seq<Slot>, s: Slot, n: Number)
    requires forall t :: t in slots ==> t.incarnation != s.incarnation
    ensures LiveSum(log, slots + [s], n) == LiveSum(log, slots, n) + Sum(log, Some(s.incarnation), n)
  {
    var all := set i: nat | i < |log| && LiveHit(log[i], slots + [s], n);
    var some := set i: nat | i < |log| && LiveHit(log[i], slots, n);
    var more := Hits(log, Some(s.incarnation), n);
    forall i: nat | i < |log|
      ensures i in all <==> i in some || i in more
      ensures !(i in some && i in more)
    {
      ChargedExtend(log[i], slots, s);
    }
    assert all == some + more && some !! more;
  }

  lemma ChargedExtend(e: Entry, slots: seq<Slot>, s: Slot)
    requires forall t :: t in slots ==> t.incarnation != s.incarnation
    ensures Charged(e, slots + [s]) <==> Charged(e, slots) || (e.Req? && e.who == Some(s.incarnation))
    ensures !(Charged(e, slots) && e.who == Some(s.incarnation))
  {
    assert s in slots + [s];
    assert forall t :: t in slots ==> t in slots + [s];
  }

  lemma {:induction false} AddUpIsLiveSum(log: seq<Entry>, targets: seq<TargetCounts>, slots: seq<Slot>, n: Number)
    requires |targets| == |slots|
    requires forall i :: 0 <= i < |slots| ==> n.Of(targets[i].counted) == Sum(log, Some(slots[i].incarnation), n)
    requires forall i, j :: 0 <= i < j < |slots| ==> slots[i].incarnation != slots[j].incarnation
    ensures Sum(log, None, n) + n.Of(AddUp(targets)) == LiveSum(log, slots, n)
  {
    if slots == [] {
      LiveSumNone(log, n);
    } else {
      var k := |slots| - 1;
      AddUpIsLiveSum(log, targets[..k], slots[..k], n);
      LiveSumExtend(log, slots[..k], slots[k], n);
      assert slots[..k] + [slots[k]] == slots;
      AddUpLast(targets, n);
    }
  }

  lemma AddUpLast(targets: seq<TargetCounts>, n: Number)
    requires targets != []
    ensures n.Of(AddUp(targets)) == n.Of(AddUp(targets[..|targets| - 1])) + n.Of(targets[|targets| - 1].counted)
  {
  }

  /** The host total counts every request of the window once, bar those of targets dropped since. */
  lemma TotalIsLogged(p: Pool, log: seq<Entry>, last: int, since: Time, n: Number)
    requires Inv(p, last) && Agrees(p, log, last)
    ensures n.Of(CountsOf(p, since).total) == LiveSum(Window(log, p, since), p.targets, n)
  {
    forall i | 0 <= i < |p.targets|
      ensures n.Of(CountsOf(p, since).targets[i].counted)
           == Sum(Window(log, p, since), Some(p.targets[i].incarnation), n)
    {
      TargetNumber(p, log, last, since, i, n);
    }
    DistinctIncarnations(p, last);
    AddUpIsLiveSum(Window(log, p, since), CountsOf(p, since).targets, p.targets, n);
    TotalNumber(p, log, last, since, n);
  }

  lemma TargetNumber(p: Pool, log: seq<Entry>, last: int, since: Time, i: nat, n: Number)
    requires Agrees(p, log, last) && i < |p.targets|
    ensures n.Of(CountsOf(p, since).targets[i].counted)
         == Sum(Window(log, p, since), Some(p.targets[i].incarnation), n)
    ensures Sane(CountsOf(p, since).targets[i].counted)
  {
    hide Sum;
    TargetCountsAreLogged(p, log, last, since, i);
    TallyBounds(Window(log, p, since), Some(p.targets[i].incarnation));
  }

  lemma TotalNumber(p: Pool, log: seq<Entry>, last: int, since: Time, n: Number)
    requires Agrees(p, log, last)
    ensures n.Of(CountsOf(p, since).total)
         == Sum(Window(log, p, since), None, n) + n.Of(AddUp(CountsOf(p, since).targets))
  {
    hide Sum;
    UnroutedCountsAreLogged(p, log, last, since);
  }

  lemma DistinctIncarnations(p: Pool, last: int)
    requires Inv(p, last)
    ensures forall i, j :: 0 <= i < j < |p.targets| ==> p.targets[i].incarnation != p.targets[j].incarnation
  {
    forall i, j | 0 <= i < j < |p.targets| ensures p.targets[i].incarnation != p.targets[j].incarnation {
      assert SlotsApart(p.targets[i], p.targets[j]);
    }
  }

  // ----- rates

  function TargetNamed(h: HostCounts, replica: int): (r: Option<TargetCounts>)
    ensures r.Some? ==> r.value in h.targets && r.value.replica == replica
    ensures r.None? ==> forall t :: t in h.targets ==> t.replica != replica
  {
    FirstFor(h.targets, replica)
  }

  function FirstFor(targets: seq<TargetCounts>, replica: int): (r: Option<TargetCounts>)
    ensures r.Some? ==> r.value in targets && r.value.replica == replica
    ensures r.None? ==> forall t :: t in targets ==> t.replica != replica
  {
    if targets == [] then None
    else if targets[0].replica == replica then Some(targets[0])
    else FirstFor(targets[1..], replica)
  }

  function ReplicasSum(h: HostCounts, replicas: seq<int>): Counter {
    if replicas == [] then NO_COUNTS
    else
      var init := ReplicasSum(h, replicas[..|replicas| - 1]);
      match TargetNamed(h, replicas[|replicas| - 1])
      case None => init
      case Some(t) => init.Plus(t.counted)
  }

  /** Adds up the named replicas; one the host does not have adds nothing. */
  method Replicas(h: HostCounts, replicas: seq<int>) returns (out: Counter)
    ensures out == ReplicasSum(h, replicas)
  {
    out := NO_COUNTS;
    for i := 0 to |replicas|
      invariant out == ReplicasSum(h, replicas[..i])
    {
      assert replicas[..i + 1][..i] == replicas[..i];
      var t := TargetNamed(h, replicas[i]);
      if t.None? { continue; }
      out := out.Plus(t.value.counted);
    }
    assert replicas[..|replicas|] == replicas;
  }

  lemma {:induction false} SaneSum(h: HostCounts, replicas: seq<int>)
    requires forall t :: t in h.targets ==> Sane(t.counted)
    ensures Sane(ReplicasSum(h, replicas))
  {
    if replicas != [] { SaneSum(h, replicas[..|replicas| - 1]); }
  }

  /** What the edge answers never has more errors than requests, whichever replicas are asked for. */
  lemma ErrorsWithinRequests(p: Pool, log: seq<Entry>, last: int, since: Time, replicas: seq<int>)
    requires Agrees(p, log, last)
    ensures Sane(CountsOf(p, since).unrouted) && Sane(ReplicasSum(CountsOf(p, since), replicas))
  {
    hide Sum;
    UnroutedCountsAreLogged(p, log, last, since);
    TallyBounds(Window(log, p, since), None);
    var h := CountsOf(p, since);
    forall i | 0 <= i < |h.targets| ensures Sane(h.targets[i].counted) {
      TargetNumber(p, log, last, since, i, Requests);
    }
    SaneSum(h, replicas);
  }

  /** The whole answer of `counts` against the log: per live target, unrouted, and in total. */
  ghost predicate Faithful(p: Pool, h: HostCounts, w: seq<Entry>) {
    && |h.targets| == |p.targets|
    && h.unrouted == Unrouted(w)
    && (forall i :: 0 <= i < |p.targets| ==>
          h.targets[i] == TargetCounts(p.targets[i].t.replica, TallyOf(w, p.targets[i].incarnation)))
    && (forall n: Number :: n.Of(h.total) == LiveSum(w, p.targets, n))
  }

  lemma CountsAreFaithful(p: Pool, log: seq<Entry>, last: int, since: Time)
    requires Inv(p, last) && Agrees(p, log, last)
    ensures Faithful(p, CountsOf(p, since), Window(log, p, since))
  {
    hide Sum;
    UnroutedCountsAreLogged(p, log, last, since);
    forall i | 0 <= i < |p.targets|
      ensures CountsOf(p, since).targets[i]
           == TargetCounts(p.targets[i].t.replica, TallyOf(Window(log, p, since), p.targets[i].incarnation))
    {
      TargetCountsAreLogged(p, log, last, since, i);
    }
    forall n: Number ensures n.Of(CountsOf(p, since).total) == LiveSum(Window(log, p, since), p.targets, n) {
      TotalIsLogged(p, log, last, since, n);
    }
  }
}
