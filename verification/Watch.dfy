/**
 The watch after the switch. A run of it is a sequence of beats: what one turn of the loop reads
 from the edge, the containers and the clock, and which signal then woke it up.
 */
module Watch {
  import opened Edge

  const MIN_ERROR_REQUESTS: int := 20

  /** A negative `maxRate` turns the error check off. */
  datatype Policy = Policy(window: int, manual: bool, maxRate: real)

  datatype Seen = Seen(since: Time, requests: int, errors: int)

  datatype Signal = Tick | PromoteSignal | RollbackSignal | Cancelled

  /** `seen` is None when the edge could not be asked; `countAt` and `now` are two clock readings. */
  datatype Beat = Beat(seen: Option<Seen>, down: bool, countAt: Time, now: Time, signal: Signal)

  datatype Why = Breach | ReplicaDown | ByHand

  datatype Verdict =
    | Promoted(byHand: bool) | RolledBack(why: Why)
    | HandedOff | CommanderGone | Abandoned | Pending

  // ----- what one beat tells

  function Rate(requests: int, errors: int): real {
    if requests > 0 then errors as real / requests as real else 0.0
  }

  predicate Breached(p: Policy, b: Beat) {
    && b.seen.Some? && b.seen.value.requests >= MIN_ERROR_REQUESTS && p.maxRate >= 0.0
    && Rate(b.seen.value.requests, b.seen.value.errors) > p.maxRate
  }

  /** The edge may have restarted: counting starts where it did, but never later than now. */
  function CountFrom(flippedAt: Time, countedFrom: Time, b: Beat): Time {
    if b.seen.None? then countedFrom
    else
      var from := if countedFrom == ZERO_TIME then flippedAt else countedFrom;
      var since := b.seen.value.since;
      if since == ZERO_TIME || since <= from then from
      else
        var capped := if since > b.countAt then b.countAt else since;
        if capped <= from then from else capped
  }

  function Elapsed(flippedAt: Time, now: Time): int {
    if flippedAt == ZERO_TIME then 0 else now - flippedAt
  }

  function Counted(flippedAt: Time, countedFrom: Time, now: Time): int {
    if countedFrom == ZERO_TIME then Elapsed(flippedAt, now) else now - countedFrom
  }

  predicate Over(p: Policy, flippedAt: Time, countedFrom: Time, now: Time) {
    Counted(flippedAt, countedFrom, now) >= p.window || Elapsed(flippedAt, now) >= 2 * p.window
  }

  /** A watch in progress: since when it runs, what it counts from, and whether it is detached. */
  datatype Run = Run(policy: Policy, flippedAt: Time, countedFrom: Time, detached: bool)

  function Polled(r: Run, b: Beat): Run {
    r.(countedFrom := CountFrom(r.flippedAt, r.countedFrom, b))
  }

  function Interrupted(r: Run): Verdict { if r.detached then Abandoned else CommanderGone }

  /** What a beat decides in the watch loop, before its signal is looked at. */
  function Judged(r: Run, b: Beat): Verdict {
    if Breached(r.policy, b) then RolledBack(Breach)
    else if b.down then RolledBack(ReplicaDown)
    else if !Over(r.policy, r.flippedAt, r.countedFrom, b.now) then Pending
    else if r.policy.manual then HandedOff else Promoted(false)
  }

  function Signalled(r: Run, b: Beat): Verdict {
    match b.signal
    case Tick => Pending
    case PromoteSignal => Promoted(true)
    case RollbackSignal => RolledBack(ByHand)
    case Cancelled => Interrupted(r)
  }

  /** The end of a watch: its verdict, the run as it stands, and how many beats it took. */
  datatype Ended = Ended(verdict: Verdict, run: Run, used: nat)

  function Later(e: Ended): Ended { e.(used := e.used + 1) }

  function WatchLoop(r: Run, beats: seq<Beat>): (e: Ended)
    ensures e.used <= |beats| && e.run == r.(countedFrom := e.run.countedFrom)
    decreases |beats|
  {
    if beats == [] then Ended(Pending, r, 0)
    else
      var r' := Polled(r, beats[0]);
      var v := Judged(r', beats[0]);
      var w := Signalled(r', beats[0]);
      if !v.Pending? then Ended(v, r', 1)
      else if !w.Pending? then Ended(w, r', 1)
      else Later(WatchLoop(r', beats[1..]))
  }

  /** Waiting for a promote or a rollback: the signal is looked at first, and time never decides. */
  function AwaitLoop(r: Run, beats: seq<Beat>): (e: Ended)
    ensures e.used <= |beats| && e.run == r.(countedFrom := e.run.countedFrom)
    decreases |beats|
  {
    if beats == [] then Ended(Pending, r, 0)
    else
      var w := Signalled(r, beats[0]);
      var r' := Polled(r, beats[0]);
      if !w.Pending? then Ended(w, r, 1)
      else if Breached(r.policy, beats[0]) then Ended(RolledBack(Breach), r', 1)
      else if beats[0].down then Ended(RolledBack(ReplicaDown), r', 1)
      else Later(AwaitLoop(r', beats[1..]))
  }

  function Then(e: Ended, f: Ended): Ended { f.(used := e.used + f.used) }

  /** The daemon's side: watch, wait by hand if the policy says so, and outlive the commander. */
  function WatchAll(r: Run, beats: seq<Beat>): (e: Ended)
    ensures e.used <= |beats|
    decreases !r.detached
  {
    var e := WatchLoop(r, beats);
    if e.verdict.HandedOff? then Then(e, AwaitLoop(e.run, beats[e.used..]))
    else if e.verdict.CommanderGone? && !r.detached then
      Then(e, WatchAll(e.run.(detached := true), beats[e.used..]))
    else e
  }

  /** A whole watch as a deploy runs it: by its commander, or handed to the daemon. */
  function Life(r: Run, noWatch: bool, beats: seq<Beat>): (e: Ended)
    ensures e.used <= |beats|
  {
    var e := WatchLoop(r.(detached := noWatch), beats);
    var handed := e.run.(detached := true);
    if e.verdict.HandedOff? then Then(e, AwaitLoop(handed, beats[e.used..]))
    else if e.verdict.CommanderGone? then Then(e, WatchAll(handed, beats[e.used..]))
    else e
  }

  // ----- the loops

  /** The watch loop of a deploy, over what it meets. */
  method WatchBeats(r: Run, beats: seq<Beat>) returns (e: Ended)
    ensures e == WatchLoop(r, beats)
  {
    var run := r;
    var i := 0;
    while i < |beats|
      invariant 0 <= i <= |beats|
      invariant WatchLoop(r, beats) == Then(Ended(Pending, run, i), WatchLoop(run, beats[i..]))
    {
      var b := beats[i];
      assert beats[i..][1..] == beats[i + 1..];
      run := Polled(run, b);
      if Breached(run.policy, b) { return Ended(RolledBack(Breach), run, i + 1); }
      if b.down { return Ended(RolledBack(ReplicaDown), run, i + 1); }
      if Over(run.policy, run.flippedAt, run.countedFrom, b.now) {
        return Ended(if run.policy.manual then HandedOff else Promoted(false), run, i + 1);
      }
      match b.signal {
        case Cancelled => return Ended(Interrupted(run), run, i + 1);
        case PromoteSignal => return Ended(Promoted(true), run, i + 1);
        case RollbackSignal => return Ended(RolledBack(ByHand), run, i + 1);
        case Tick =>
      }
      i := i + 1;
    }
    return Ended(Pending, run, |beats|);
  }

  method AwaitBeats(r: Run, beats: seq<Beat>) returns (e: Ended)
    ensures e == AwaitLoop(r, beats)
  {
    var run := r;
    var i := 0;
    while i < |beats|
      invariant 0 <= i <= |beats|
      invariant AwaitLoop(r, beats) == Then(Ended(Pending, run, i), AwaitLoop(run, beats[i..]))
    {
      var b := beats[i];
      assert beats[i..][1..] == beats[i + 1..];
      match b.signal {
        case Cancelled => return Ended(Interrupted(run), run, i + 1);
        case PromoteSignal => return Ended(Promoted(true), run, i + 1);
        case RollbackSignal => return Ended(RolledBack(ByHand), run, i + 1);
        case Tick =>
      }
      run := Polled(run, b);
      if Breached(run.policy, b) { return Ended(RolledBack(Breach), run, i + 1); }
      if b.down { return Ended(RolledBack(ReplicaDown), run, i + 1); }
      i := i + 1;
    }
    return Ended(Pending, run, |beats|);
  }

  method WatchToEnd(r: Run, noWatch: bool, beats: seq<Beat>) returns (e: Ended)
    ensures e == Life(r, noWatch, beats)
  {
    var run := r.(detached := noWatch);
    var first := WatchBeats(run, beats);
    if first.verdict.HandedOff? {
      var second := AwaitBeats(first.run.(detached := true), beats[first.used..]);
      return Then(first, second);
    }
    if first.verdict.CommanderGone? {
      var second := WatchBeats(first.run.(detached := true), beats[first.used..]);
      if second.verdict.HandedOff? {
        var third := AwaitBeats(second.run, beats[first.used..][second.used..]);
        return Then(first, Then(second, third));
      }
      return Then(first, second);
    }
    return first;
  }

  // ----- what the clock promises

  /** Readings never go back, and none is before the switch. */
  ghost predicate ClockForward(flippedAt: Time, beats: seq<Beat>) {
    && (forall i :: 0 <= i < |beats| ==> ZERO_TIME < flippedAt <= beats[i].countAt <= beats[i].now)
    && (forall i, j :: 0 <= i < j < |beats| ==> beats[i].now <= beats[j].countAt)
  }

  /** Counting has not begun, or it began at or after the switch and not later than `now`. */
  ghost predicate CountsWithin(r: Run, now: Time) {
    r.countedFrom == ZERO_TIME || r.flippedAt <= r.countedFrom <= now
  }

  ghost predicate NotBefore(r: Run, r': Run) {
    r.countedFrom == ZERO_TIME || (r'.countedFrom != ZERO_TIME && r.countedFrom <= r'.countedFrom)
  }

  /** What a poll does to where counting starts: it only moves forward, and never past the clock. */
  lemma PollMovesForward(r: Run, b: Beat, now: Time)
    requires ZERO_TIME < r.flippedAt <= b.countAt <= b.now && now <= b.countAt && CountsWithin(r, now)
    ensures CountsWithin(Polled(r, b), b.now) && NotBefore(r, Polled(r, b))
    ensures b.seen.Some? ==> Polled(r, b).countedFrom != ZERO_TIME
  {
  }

  /** `ClockForward` of the beats still to come, seen from the beat before. */
  lemma ClockTail(flippedAt: Time, beats: seq<Beat>)
    requires ClockForward(flippedAt, beats) && beats != []
    ensures ClockForward(flippedAt, beats[1..])
    ensures |beats| > 1 ==> beats[0].now <= beats[1].countAt
  {
  }

  ghost function LastNow(now: Time, beats: seq<Beat>, used: nat): Time
    requires used <= |beats|
  {
    if used == 0 then now else beats[used - 1].now
  }

  /** Where counting starts only moves forward and stays between the switch and the last reading. */
  lemma {:induction false} WatchCountsForward(r: Run, beats: seq<Beat>, now: Time)
    requires ClockForward(r.flippedAt, beats) && CountsWithin(r, now) && (beats != [] ==> now <= beats[0].countAt)
    ensures var e := WatchLoop(r, beats); CountsWithin(e.run, LastNow(now, beats, e.used)) && NotBefore(r, e.run)
    decreases |beats|
  {
    if beats != [] {
      PollMovesForward(r, beats[0], now);
      ClockTail(r.flippedAt, beats);
      WatchCountsForward(Polled(r, beats[0]), beats[1..], beats[0].now);
    }
  }

  lemma {:induction false} AwaitCountsForward(r: Run, beats: seq<Beat>, now: Time)
    requires ClockForward(r.flippedAt, beats) && CountsWithin(r, now) && (beats != [] ==> now <= beats[0].countAt)
    ensures var e := AwaitLoop(r, beats); CountsWithin(e.run, LastNow(now, beats, e.used)) && NotBefore(r, e.run)
    decreases |beats|
  {
    if beats != [] {
      PollMovesForward(r, beats[0], now);
      ClockTail(r.flippedAt, beats);
      AwaitCountsForward(Polled(r, beats[0]), beats[1..], beats[0].now);
    }
  }

  lemma ClockSuffix(flippedAt: Time, beats: seq<Beat>, n: nat)
    requires ClockForward(flippedAt, beats) && n <= |beats|
    ensures ClockForward(flippedAt, beats[n..])
    ensures 0 < n < |beats| ==> beats[n - 1].now <= beats[n..][0].countAt
  {
  }

  lemma WatchAllCountsForward(r: Run, beats: seq<Beat>, now: Time)
    requires ClockForward(r.flippedAt, beats) && CountsWithin(r, now) && (beats != [] ==> now <= beats[0].countAt) && r.detached
    ensures var e := WatchAll(r, beats); CountsWithin(e.run, LastNow(now, beats, e.used)) && NotBefore(r, e.run)
  {
    hide ClockForward, WatchLoop, AwaitLoop;
    var e := WatchLoop(r, beats);
    WatchCountsForward(r, beats, now);
    if e.verdict.HandedOff? {
      ClockSuffix(r.flippedAt, beats, e.used);
      assert e.used == 0 ==> beats[0..] == beats;
      AwaitCountsForward(e.run, beats[e.used..], LastNow(now, beats, e.used));
    }
  }

  /** The same of a whole watch, through every hand-off. */
  lemma LifeCountsForward(r: Run, noWatch: bool, beats: seq<Beat>, now: Time)
    requires ClockForward(r.flippedAt, beats) && CountsWithin(r, now) && (beats != [] ==> now <= beats[0].countAt)
    ensures var e := Life(r, noWatch, beats); CountsWithin(e.run, LastNow(now, beats, e.used)) && NotBefore(r, e.run)
  {
    hide ClockForward, WatchLoop, AwaitLoop, WatchAll;
    var r0 := r.(detached := noWatch);
    var e := WatchLoop(r0, beats);
    WatchCountsForward(r0, beats, now);
    ClockSuffix(r.flippedAt, beats, e.used);
    assert e.used == 0 ==> beats[0..] == beats;
    var handed := e.run.(detached := true);
    if e.verdict.HandedOff? {
      AwaitCountsForward(handed, beats[e.used..], LastNow(now, beats, e.used));
    } else if e.verdict.CommanderGone? {
      WatchAllCountsForward(handed, beats[e.used..], LastNow(now, beats, e.used));
    }
  }

  // ----- what each verdict means

  /** What a beat shows when the watch loop neither decides nor is signalled on it. */
  ghost predicate GoesOn(r: Run, b: Beat) {
    && !Breached(r.policy, b) && !b.down && b.signal == Tick
    && Elapsed(r.flippedAt, b.now) < 2 * r.policy.window
  }

  /** What the last beat of a watch loop shows for each verdict, and what the others showed. */
  ghost predicate WatchVerdict(e: Ended, beats: seq<Beat>)
    requires e.used <= |beats|
  {
    && (e.verdict.Pending? ==> e.used == |beats|)
    && (!e.verdict.Pending? ==> e.used > 0)
    && (forall i :: 0 <= i < e.used && (i < e.used - 1 || e.verdict.Pending?) ==> GoesOn(e.run, beats[i]))
    && (!e.verdict.Pending? ==> Explains(e, beats[e.used - 1]))
  }

  ghost predicate Explains(e: Ended, last: Beat) {
    match e.verdict
    case Promoted(byHand) =>
      && !Breached(e.run.policy, last) && !last.down
      && (if byHand then last.signal == PromoteSignal
          else !e.run.policy.manual && Over(e.run.policy, e.run.flippedAt, e.run.countedFrom, last.now))
    case RolledBack(why) =>
      (match why
       case Breach => Breached(e.run.policy, last)
       case ReplicaDown => last.down
       case ByHand => last.signal == RollbackSignal)
    case HandedOff => e.run.policy.manual && Over(e.run.policy, e.run.flippedAt, e.run.countedFrom, last.now)
    case CommanderGone =>
      && !e.run.detached && last.signal == Cancelled && Elapsed(e.run.flippedAt, last.now) < 2 * e.run.policy.window
      && !Breached(e.run.policy, last) && !last.down
    case Abandoned => e.run.detached && last.signal == Cancelled
    case Pending => true
  }

  /** Every verdict of the watch loop is explained by its last beat, and every earlier beat passed. */
  lemma {:induction false} WatchIsExplained(r: Run, beats: seq<Beat>)
    ensures WatchVerdict(WatchLoop(r, beats), beats)
    decreases |beats|
  {
    if beats != [] {
      var r' := Polled(r, beats[0]);
      if Judged(r', beats[0]).Pending? && Signalled(r', beats[0]).Pending? {
        WatchIsExplained(r', beats[1..]);
        var e := WatchLoop(r, beats);
        forall i | 0 <= i < e.used && (i < e.used - 1 || e.verdict.Pending?) ensures GoesOn(e.run, beats[i]) {
          if i > 0 { assert beats[1..][i - 1] == beats[i]; }
        }
      }
    }
  }

  /**
   An automatic watch decides in time, however often the edge restarts: once a beat is 2 x window
   after the switch, the watch has ended at that beat or before.
   */
  lemma AutomaticWatchDecides(r: Run, beats: seq<Beat>, i: nat)
    requires i < |beats| && r.flippedAt != ZERO_TIME && beats[i].now - r.flippedAt >= 2 * r.policy.window
    ensures var e := WatchLoop(r, beats);
      !e.verdict.Pending? && e.used <= i + 1 && (!r.policy.manual ==> !e.verdict.HandedOff?)
  {
    WatchIsExplained(r, beats);
    var e := WatchLoop(r, beats);
    assert e.verdict.Pending? || e.used > i + 1 ==> GoesOn(e.run, beats[i]);
  }

  /** Promoted without a signal: no replica was seen down, the last poll was clean, the window over. */
  lemma UnsignalledPromotion(r: Run, beats: seq<Beat>)
    requires WatchLoop(r, beats).verdict == Promoted(false)
    ensures var e := WatchLoop(r, beats);
      && e.used > 0 && !r.policy.manual
      && (forall i :: 0 <= i < e.used ==> !Breached(r.policy, beats[i]) && !beats[i].down)
      && (Counted(r.flippedAt, e.run.countedFrom, beats[e.used - 1].now) >= r.policy.window
          || Elapsed(r.flippedAt, beats[e.used - 1].now) >= 2 * r.policy.window)
  {
    WatchIsExplained(r, beats);
    var e := WatchLoop(r, beats);
    forall i | 0 <= i < e.used ensures !Breached(r.policy, beats[i]) && !beats[i].down {
      if i < e.used - 1 { assert GoesOn(e.run, beats[i]); }
    }
  }

  /** The same through the commander leaving: no beat of either part was breached or saw a replica down. */
  lemma UnsignalledLife(r: Run, noWatch: bool, beats: seq<Beat>)
    requires Life(r, noWatch, beats).verdict == Promoted(false)
    ensures var e := Life(r, noWatch, beats);
      && e.used > 0 && !r.policy.manual
      && (forall i :: 0 <= i < e.used ==> !Breached(r.policy, beats[i]) && !beats[i].down)
      && (Counted(r.flippedAt, e.run.countedFrom, beats[e.used - 1].now) >= r.policy.window
          || Elapsed(r.flippedAt, beats[e.used - 1].now) >= 2 * r.policy.window)
  {
    hide WatchLoop, AwaitLoop, Counted;
    var r0 := r.(detached := noWatch);
    var e := WatchLoop(r0, beats);
    var handed := e.run.(detached := true);
    var rest := beats[e.used..];
    if e.verdict.HandedOff? {
      AwaitPromotesOnlyBySignal(handed, rest);
      assert false;
    } else if e.verdict.CommanderGone? {
      var f := WatchLoop(handed, rest);
      if f.verdict.HandedOff? {
        AwaitPromotesOnlyBySignal(f.run, rest[f.used..]);
        assert false;
      }
      UnsignalledPromotion(handed, rest);
      WatchIsExplained(r0, beats);
      forall i | 0 <= i < e.used + f.used ensures !Breached(r.policy, beats[i]) && !beats[i].down {
        if i < e.used {
          assert i < e.used - 1 ==> GoesOn(e.run, beats[i]);
        } else {
          assert rest[i - e.used] == beats[i];
        }
      }
      assert rest[f.used - 1] == beats[e.used + f.used - 1];
    } else {
      UnsignalledPromotion(r0, beats);
    }
  }

  lemma {:induction false} AwaitPromotesOnlyBySignal(r: Run, beats: seq<Beat>)
    requires AwaitLoop(r, beats).verdict.Promoted?
    ensures var e := AwaitLoop(r, beats);
      e.verdict.byHand && e.used > 0 && beats[e.used - 1].signal == PromoteSignal
    decreases |beats|
  {
    var r' := Polled(r, beats[0]);
    if Signalled(r, beats[0]).Pending? {
      AwaitPromotesOnlyBySignal(r', beats[1..]);
    }
  }

  lemma WatchPromotesOnlyBySignal(r: Run, beats: seq<Beat>)
    requires r.policy.manual && WatchLoop(r, beats).verdict.Promoted?
    ensures var e := WatchLoop(r, beats);
      e.verdict.byHand && e.used > 0 && beats[e.used - 1].signal == PromoteSignal
  {
    WatchIsExplained(r, beats);
  }

  lemma AllPromotesOnlyBySignal(r: Run, beats: seq<Beat>)
    requires r.policy.manual && r.detached && WatchAll(r, beats).verdict.Promoted?
    ensures var e := WatchAll(r, beats);
      e.verdict.byHand && e.used > 0 && beats[e.used - 1].signal == PromoteSignal
  {
    var e := WatchLoop(r, beats);
    if e.verdict.HandedOff? {
      AwaitPromotesOnlyBySignal(e.run, beats[e.used..]);
    } else {
      WatchPromotesOnlyBySignal(r, beats);
    }
  }

  /** Under a manual policy a deploy is promoted only by a promote signal, and consumes it. */
  lemma ManualPromotionIsSignalled(r: Run, noWatch: bool, beats: seq<Beat>)
    requires r.policy.manual && Life(r, noWatch, beats).verdict.Promoted?
    ensures var e := Life(r, noWatch, beats);
      e.verdict.byHand && e.used > 0 && beats[e.used - 1].signal == PromoteSignal
  {
    var e := WatchLoop(r.(detached := noWatch), beats);
    var handed := e.run.(detached := true);
    if e.verdict.HandedOff? {
      AwaitPromotesOnlyBySignal(handed, beats[e.used..]);
    } else if e.verdict.CommanderGone? {
      AllPromotesOnlyBySignal(handed, beats[e.used..]);
    } else {
      WatchPromotesOnlyBySignal(r.(detached := noWatch), beats);
    }
  }

  /** A whole automatic watch, through the commander leaving, ends by 2 x window after the switch. */
  lemma AutomaticLifeDecides(r: Run, noWatch: bool, beats: seq<Beat>, i: nat)
    requires !r.policy.manual && r.flippedAt != ZERO_TIME
    requires i < |beats| && beats[i].now - r.flippedAt >= 2 * r.policy.window
    ensures var e := Life(r, noWatch, beats);
      (e.verdict.Promoted? || e.verdict.RolledBack? || e.verdict.Abandoned?) && e.used <= i + 1
  {
    var r0 := r.(detached := noWatch);
    var e := WatchLoop(r0, beats);
    AutomaticWatchDecides(r0, beats, i);
    WatchIsExplained(r0, beats);
    if e.verdict.CommanderGone? {
      var rest := beats[e.used..];
      assert e.used <= i && rest[i - e.used] == beats[i];
      AutomaticWatchDecides(e.run.(detached := true), rest, i - e.used);
      WatchIsExplained(e.run.(detached := true), rest);
    }
  }
}
