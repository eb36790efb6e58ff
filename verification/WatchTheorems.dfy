/** When a watch ends, in readings of the clock, and what every beat it let pass showed. */
module WatchTheorems {
  import opened Edge
  import opened Watch

  // ----- where counting starts

  /** When a beat says the edge began to count, if it could be asked and knows: no later than the reading then. */
  ghost function Began(b: Beat): Option<Time> {
    if b.seen.None? || b.seen.value.since == ZERO_TIME then None
    else if b.seen.value.since <= b.countAt then Some(b.seen.value.since) else Some(b.countAt)
  }

  ghost function LaterOf(t: Time, b: Beat): Time {
    if Began(b).Some? && Began(b).value > t then Began(b).value else t
  }

  /** The latest of a first time and of what the beats say. */
  ghost function Latest(first: Time, beats: seq<Beat>): Time {
    if beats == [] then first else LaterOf(Latest(first, beats[..|beats| - 1]), beats[|beats| - 1])
  }

  lemma {:induction false} LatestIsLatest(first: Time, beats: seq<Beat>)
    ensures var t := Latest(first, beats);
      && t >= first && (forall i :: 0 <= i < |beats| && Began(beats[i]).Some? ==> t >= Began(beats[i]).value)
      && (t == first || exists i :: 0 <= i < |beats| && Began(beats[i]) == Some(t))
  {
    if beats != [] {
      var n := |beats| - 1;
      LatestIsLatest(first, beats[..n]);
      assert forall i :: 0 <= i < n ==> beats[..n][i] == beats[i];
    }
  }

  /** From when a run counts: the switch, until a poll said otherwise. */
  ghost function Start(r: Run): Time { if r.countedFrom == ZERO_TIME then r.flippedAt else r.countedFrom }

  lemma StartPolled(r: Run, b: Beat)
    requires Start(r) > ZERO_TIME
    ensures Start(Polled(r, b)) == LaterOf(Start(r), b)
  {
  }

  lemma LatestMore(first: Time, beats: seq<Beat>, b: Beat)
    ensures Latest(first, beats + [b]) == LaterOf(Latest(first, beats), b)
  {
    assert (beats + [b])[..|beats|] == beats;
  }

  lemma {:induction false} LatestFirst(first: Time, b: Beat, beats: seq<Beat>)
    ensures Latest(first, [b] + beats) == Latest(LaterOf(first, b), beats)
  {
    if beats == [] {
      LatestMore(first, [], b);
      assert [] + [b] == [b] + beats;
    } else {
      hide LaterOf, Latest;
      var init, last := beats[..|beats| - 1], beats[|beats| - 1];
      LatestFirst(first, b, init);
      LatestMore(first, [b] + init, last);
      LatestMore(LaterOf(first, b), init, last);
      assert init + [last] == beats && [b] + init + [last] == [b] + beats;
    }
  }

  // ----- when a watch is over

  ghost predicate Clean(p: Policy, b: Beat) { !Breached(p, b) && !b.down && b.signal == Tick }

  /** At beat `j` the window has passed since counting started, or twice the window since the switch. */
  ghost predicate Due(r: Run, beats: seq<Beat>, j: nat)
    requires j < |beats|
  {
    || beats[j].now - Latest(Start(r), beats[..j + 1]) >= r.policy.window
    || beats[j].now - r.flippedAt >= 2 * r.policy.window
  }

  lemma DueFirst(r: Run, beats: seq<Beat>)
    requires beats != [] && r.flippedAt > ZERO_TIME && Start(r) > ZERO_TIME
    ensures Due(r, beats, 0) <==> Over(r.policy, r.flippedAt, Polled(r, beats[0]).countedFrom, beats[0].now)
  {
    StartPolled(r, beats[0]);
    LatestFirst(Start(r), beats[0], []);
    assert beats[..1] == [beats[0]] + [];
  }

  lemma DueLater(r: Run, beats: seq<Beat>, j: nat)
    requires 0 < j < |beats| && Start(r) > ZERO_TIME
    ensures Due(r, beats, j) <==> Due(Polled(r, beats[0]), beats[1..], j - 1)
  {
    StartPolled(r, beats[0]);
    LatestFirst(Start(r), beats[0], beats[1..j + 1]);
    assert beats[..j + 1] == [beats[0]] + beats[1..j + 1] && beats[1..][..j] == beats[1..j + 1];
  }

  /** With clean beats up to the first that is due, the watch ends there: promoted, or handed over if the policy is manual. */
  lemma {:induction false} EndsWhenDue(r: Run, beats: seq<Beat>, j: nat)
    requires j < |beats| && r.flippedAt > ZERO_TIME && Start(r) > ZERO_TIME
    requires (forall i :: 0 <= i <= j ==> Clean(r.policy, beats[i])) && (forall i :: 0 <= i < j ==> !Due(r, beats, i))
    ensures var e := WatchLoop(r, beats);
      if Due(r, beats, j) then e.used == j + 1 && e.verdict == (if r.policy.manual then HandedOff else Promoted(false))
      else e.used > j + 1 || e.verdict.Pending?
    decreases j
  {
    hide Due;
    DueFirst(r, beats);
    var r' := Polled(r, beats[0]);
    if j > 0 {
      StartPolled(r, beats[0]);
      forall i | 0 < i <= j ensures Due(r, beats, i) <==> Due(r', beats[1..], i - 1) { DueLater(r, beats, i); }
      assert forall i :: 0 <= i < j ==> beats[1..][i] == beats[i + 1];
      forall i | 0 <= i < j - 1 ensures !Due(r', beats[1..], i) { assert !Due(r, beats, i + 1); }
      EndsWhenDue(r', beats[1..], j - 1);
    } else if !Due(r, beats, 0) {
      assert Judged(r', beats[0]).Pending? && Signalled(r', beats[0]).Pending?;
      WatchIsExplained(r', beats[1..]);
    }
  }

  ghost predicate AnyDue(r: Run, beats: seq<Beat>, i: nat)
    requires i < |beats|
  {
    exists j :: 0 <= j <= i && Due(r, beats, j)
  }

  /**
   If no beat up to `i` is breached, sees a replica down or is signalled, a watch has ended by beat `i`
   if and only if by then the window had passed since counting started, or twice the window since the
   switch.
   */
  lemma EndsIffDue(r: Run, beats: seq<Beat>, i: nat)
    requires i < |beats| && r.flippedAt > ZERO_TIME && Start(r) > ZERO_TIME
    requires forall j :: 0 <= j <= i ==> Clean(r.policy, beats[j])
    ensures var e := WatchLoop(r, beats); !e.verdict.Pending? && e.used <= i + 1 <==> AnyDue(r, beats, i)
  {
    hide Due;
    if AnyDue(r, beats, i) {
      var j := FirstDue(r, beats, i);
      EndsWhenDue(r, beats, j);
    } else {
      EndsWhenDue(r, beats, i);
    }
  }

  lemma {:induction false} FirstDue(r: Run, beats: seq<Beat>, i: nat) returns (j: nat)
    requires i < |beats| && AnyDue(r, beats, i)
    ensures j <= i && Due(r, beats, j) && forall k :: 0 <= k < j ==> !Due(r, beats, k)
  {
    hide Due;
    if i > 0 && AnyDue(r, beats, i - 1) {
      j := FirstDue(r, beats, i - 1);
    } else {
      j := i;
    }
  }

  /** What the watch makes of its last beat, in this order: a breach, a replica down, the time, the signal. */
  ghost function Decision(r: Run, b: Beat, due: bool): Verdict {
    if Breached(r.policy, b) then RolledBack(Breach)
    else if b.down then RolledBack(ReplicaDown)
    else if due then (if r.policy.manual then HandedOff else Promoted(false))
    else match b.signal
      case Tick => Pending
      case PromoteSignal => Promoted(true)
      case RollbackSignal => RolledBack(ByHand)
      case Cancelled => if r.detached then Abandoned else CommanderGone
  }

  /** A watch ends at the first beat that decides, as that beat decides; or it has seen every beat and goes on. */
  lemma {:induction false} EndsAtFirstDecision(r: Run, beats: seq<Beat>)
    requires r.flippedAt > ZERO_TIME && Start(r) > ZERO_TIME
    ensures var e := WatchLoop(r, beats);
      && (forall i :: 0 <= i < e.used - 1 ==> Decision(r, beats[i], Due(r, beats, i)).Pending?)
      && (e.used > 0 ==> e.verdict == Decision(r, beats[e.used - 1], Due(r, beats, e.used - 1)))
      && (e.verdict.Pending? ==> e.used == |beats|) && (beats != [] ==> e.used > 0)
    decreases |beats|
  {
    hide Due;
    if beats != [] {
      DueFirst(r, beats);
      var r' := Polled(r, beats[0]);
      StartPolled(r, beats[0]);
      if Judged(r', beats[0]).Pending? && Signalled(r', beats[0]).Pending? {
        EndsAtFirstDecision(r', beats[1..]);
        var e := WatchLoop(r, beats);
        forall i | 0 < i < e.used
          ensures Decision(r, beats[i], Due(r, beats, i)) == Decision(r', beats[1..][i - 1], Due(r', beats[1..], i - 1))
        {
          DueLater(r, beats, i);
        }
      }
    }
  }

  /** The edge never said that it began to count after the switch. */
  ghost predicate NeverRestarted(r: Run, beats: seq<Beat>) {
    r.countedFrom == ZERO_TIME && forall i :: 0 <= i < |beats| && Began(beats[i]).Some? ==> Began(beats[i]).value <= r.flippedAt
  }

  /** With an edge that never restarts a clean automatic watch promotes at the first beat a window after the switch. */
  lemma CleanWatchPromotes(r: Run, beats: seq<Beat>, j: nat)
    requires j < |beats| && r.flippedAt > ZERO_TIME && r.policy.window >= 0 && !r.policy.manual && NeverRestarted(r, beats)
    requires forall i :: 0 <= i <= j ==> Clean(r.policy, beats[i])
    requires beats[j].now >= r.flippedAt + r.policy.window && forall i :: 0 <= i < j ==> beats[i].now < r.flippedAt + r.policy.window
    ensures WatchLoop(r, beats).verdict == Promoted(false) && WatchLoop(r, beats).used == j + 1
    ensures forall noWatch :: Life(r, noWatch, beats).verdict == Promoted(false) && Life(r, noWatch, beats).used == j + 1
  {
    forall i | 0 <= i <= j ensures Due(r, beats, i) <==> i == j {
      LatestIsLatest(r.flippedAt, beats[..i + 1]);
    }
    EndsWhenDue(r, beats, j);
    forall noWatch ensures Life(r, noWatch, beats).verdict == Promoted(false) && Life(r, noWatch, beats).used == j + 1 {
      var r0 := r.(detached := noWatch);
      forall i | 0 <= i <= j ensures Due(r0, beats, i) <==> Due(r, beats, i) { }
      EndsWhenDue(r0, beats, j);
    }
  }

  // ----- breaches

  lemma AboveRate(errors: int, requests: int, rate: real)
    requires requests > 0
    ensures errors as real / requests as real > rate <==> errors as real > rate * requests as real
  {
    var q, n := errors as real / requests as real, requests as real;
    assert q * n == errors as real;
    ScaledUp(q, rate, n);
  }

  lemma ScaledUp(q: real, r: real, n: real)
    requires n > 0.0
    ensures q > r <==> q * n > r * n
  {
    if q > r { assert (q - r) * n > 0.0; } else { assert (r - q) * n >= 0.0; }
  }

  /** A beat is breached if and only if the edge saw at least twenty requests and more than the allowed part of them failed. */
  lemma BreachedIff(p: Policy, b: Beat)
    requires b.seen.Some?
    ensures Breached(p, b) <==>
      && p.maxRate >= 0.0 && b.seen.value.requests >= 20
      && b.seen.value.errors as real > p.maxRate * b.seen.value.requests as real
  {
    if b.seen.value.requests > 0 { AboveRate(b.seen.value.errors, b.seen.value.requests, p.maxRate); }
  }

  // ----- waiting by hand

  /** What the last beat of the waiting loop showed, and what every beat it let pass showed. */
  ghost predicate AwaitVerdict(r: Run, e: Ended, beats: seq<Beat>)
    requires e.used <= |beats|
  {
    && (e.verdict.Pending? ==> e.used == |beats|) && (!e.verdict.Pending? ==> e.used > 0)
    && (forall i :: 0 <= i < e.used && (i < e.used - 1 || e.verdict.Pending?) ==> Clean(r.policy, beats[i]))
    && (!e.verdict.Pending? ==> AwaitExplains(r, e.verdict, beats[e.used - 1]))
  }

  ghost predicate AwaitExplains(r: Run, v: Verdict, last: Beat) {
    match last.signal
    case PromoteSignal => v == Promoted(true)
    case RollbackSignal => v == RolledBack(ByHand)
    case Cancelled => v == if r.detached then Abandoned else CommanderGone
    case Tick => if Breached(r.policy, last) then v == RolledBack(Breach) else last.down && v == RolledBack(ReplicaDown)
  }

  /**
   While waiting by hand a signal decides at once; without one the first beat that is breached or sees
   a replica down rolls back; and nothing else ends the wait, however long it takes.
   */
  lemma {:induction false} AwaitIsExplained(r: Run, beats: seq<Beat>)
    ensures AwaitVerdict(r, AwaitLoop(r, beats), beats)
    decreases |beats|
  {
    if beats != [] && Clean(r.policy, beats[0]) {
      var r' := Polled(r, beats[0]);
      AwaitIsExplained(r', beats[1..]);
      var e := AwaitLoop(r, beats);
      forall i | 0 <= i < e.used && (i < e.used - 1 || e.verdict.Pending?) ensures Clean(r.policy, beats[i]) {
        if i > 0 { assert beats[1..][i - 1] == beats[i]; }
      }
    }
  }

  /** A whole watch never ends in between: what is handed over or left by its commander is taken up again. */
  lemma LifeGoesOn(r: Run, noWatch: bool, beats: seq<Beat>)
    ensures var v := Life(r, noWatch, beats).verdict; !v.HandedOff? && !v.CommanderGone?
  {
    var r0 := r.(detached := noWatch);
    var e := WatchLoop(r0, beats);
    var handed, rest := e.run.(detached := true), beats[e.used..];
    if e.verdict.HandedOff? {
      AwaitEnds(handed, rest);
    } else if e.verdict.CommanderGone? {
      var f := WatchLoop(handed, rest);
      WatchIsExplained(handed, rest);
      if f.verdict.HandedOff? { AwaitEnds(f.run, rest[f.used..]); }
    }
  }

  lemma AwaitEnds(r: Run, beats: seq<Beat>)
    requires r.detached
    ensures var v := AwaitLoop(r, beats).verdict; !v.HandedOff? && !v.CommanderGone?
  {
    AwaitIsExplained(r, beats);
  }
}
