/**
 The event broker: a bounded history, bounded per-subscriber queues, and subscribers that are
 dropped when they fall behind. Consumers run on their own, so every interleaving is a run.
 */
module Broker {
  import opened Edge

  const HISTORY_LIMIT: nat := 512
  const SUBSCRIBER_BUFFER: nat := 256

  /** What the broker needs of an event: when it happened, and which one it is. */
  datatype Notice = Notice(at: Time, event: int)

  /** A Go channel: sending needs room and an open channel, closing an open one. */
  datatype Channel = Channel(buffer: seq<Notice>, closed: bool) {
    predicate HasRoom() { |buffer| < SUBSCRIBER_BUFFER }

    function Send(e: Notice): Channel
      requires !closed && HasRoom()
    {
      Channel(buffer + [e], false)
    }

    function Close(): Channel
      requires !closed
    {
      Channel(buffer, true)
    }

    function Receive(): Channel
      requires buffer != []
    {
      Channel(buffer[1..], closed)
    }
  }

  /** A subscription: the replay still to hand over, the channel, and what was handed over so far. */
  datatype Subscriber = Subscriber(replay: seq<Notice>, ch: Channel, lagged: bool, delivered: seq<Notice>) {
    /** All it has been or will be given unless more is sent. */
    function Stream(): seq<Notice> { delivered + replay + ch.buffer }
  }

  /** An event without a time gets the present one; nothing else about it changes. */
  function Stamped(e: Notice, now: Time): (r: Notice)
    ensures r.event == e.event && r.at == if e.at == ZERO_TIME then now else e.at
  {
    if e.at == ZERO_TIME then e.(at := now) else e
  }

  function LastKept(history: seq<Notice>): (r: seq<Notice>)
    ensures |r| <= HISTORY_LIMIT
  {
    if |history| > HISTORY_LIMIT then history[|history| - HISTORY_LIMIT..] else history
  }

  /** What is kept is the newest 512 events, or all of them if there are fewer. */
  lemma KeptAreNewest(history: seq<Notice>)
    ensures var r := LastKept(history);
      |r| == (if |history| < 512 then |history| else 512) && r == history[|history| - |r|..]
  {
  }

  /** The events not before `since`; with no `since` there is no replay. */
  function From(history: seq<Notice>, since: Time): seq<Notice> {
    if since == ZERO_TIME || history == [] then []
    else
      var n := |history| - 1;
      From(history[..n], since) + if history[n].at >= since then [history[n]] else []
  }

  /** Publishing to one subscriber: queue it, or give the subscriber up when its queue is full. */
  function Offered(s: Subscriber, e: Notice): Subscriber {
    if s.lagged then s
    else if s.ch.HasRoom() then s.(ch := s.ch.(buffer := s.ch.buffer + [e]))
    else s.(lagged := true, ch := s.ch.(closed := true))
  }

  function Closed(s: Subscriber): Subscriber {
    if s.lagged then s else s.(lagged := true, ch := s.ch.(closed := true))
  }

  /** What a subscriber is owed: its filtered history, then a contiguous run of later events. */
  ghost predicate Owed(s: Subscriber, published: seq<Notice>, since: Time, from: nat, upto: nat) {
    && from <= upto <= |published|
    && s.Stream() == From(LastKept(published[..from]), since) + published[from..upto]
  }

  /** Where a subscription stands in the published log. */
  datatype Place = Place(since: Time, from: nat, upto: nat)

  /** What holds of one subscription at any time; `live` while the broker still offers it events. */
  ghost predicate SubOk(s: Subscriber, p: Place, published: seq<Notice>, live: bool) {
    && s.lagged == s.ch.closed && |s.ch.buffer| <= SUBSCRIBER_BUFFER
    && Owed(s, published, p.since, p.from, p.upto)
    && (live && !s.lagged ==> p.upto == |published|)
  }

  /** The place of a subscriber after an event: one further if the event was queued. */
  ghost function Moved(s: Subscriber, p: Place): Place {
    if !s.lagged && s.ch.HasRoom() then p.(upto := p.upto + 1) else p
  }

  lemma TrimAppend(published: seq<Notice>, e: Notice)
    ensures LastKept(published + [e]) == LastKept(LastKept(published) + [e])
  {
  }

  lemma OwedLonger(s: Subscriber, published: seq<Notice>, p: Place, e: Notice)
    requires Owed(s, published, p.since, p.from, p.upto)
    ensures Owed(s, published + [e], p.since, p.from, p.upto)
  {
    assert (published + [e])[..p.from] == published[..p.from];
    assert (published + [e])[p.from..p.upto] == published[p.from..p.upto];
  }

  /** Offering an event extends a live subscriber's run by exactly that event, or ends it. */
  lemma OfferKeeps(s: Subscriber, published: seq<Notice>, p: Place, e: Notice)
    requires SubOk(s, p, published, true)
    ensures SubOk(Offered(s, e), Moved(s, p), published + [e], true)
  {
    OwedLonger(s, published, p, e);
    if !s.lagged && s.ch.HasRoom() {
      var run := published[p.from..p.upto];
      assert (published + [e])[p.from..p.upto + 1] == run + [e];
      assert (published + [e])[..p.from] == published[..p.from];
      var replayed := From(LastKept(published[..p.from]), p.since);
      assert replayed + (run + [e]) == replayed + run + [e];
      assert Offered(s, e).Stream() == s.Stream() + [e];
    }
  }

  /** A subscriber is given up if and only if 256 events are waiting for it already; otherwise it gets the event. */
  lemma FallsBehindIff(s: Subscriber, published: seq<Notice>, p: Place, e: Notice)
    requires SubOk(s, p, published, true) && !s.lagged
    ensures Offered(s, e).lagged <==> |s.ch.buffer| == 256
    ensures !Offered(s, e).lagged ==> Offered(s, e).Stream() == s.Stream() + [e] && Moved(s, p).upto == p.upto + 1
  {
    if s.ch.HasRoom() { assert Offered(s, e).Stream() == s.Stream() + [e]; }
  }

  /** A consumer takes its next event: from the replay first, then from its channel. */
  function Taken(s: Subscriber): Subscriber {
    if s.replay != [] then s.(delivered := s.delivered + [s.replay[0]], replay := s.replay[1..])
    else if s.ch.buffer != [] then s.(delivered := s.delivered + [s.ch.buffer[0]], ch := s.ch.Receive())
    else s
  }

  lemma TakeKeeps(s: Subscriber)
    ensures Taken(s).Stream() == s.Stream() && Taken(s).lagged == s.lagged && Taken(s).ch.closed == s.ch.closed
    ensures |Taken(s).ch.buffer| <= |s.ch.buffer|
  {
    if s.replay != [] {
      assert s.replay == [s.replay[0]] + s.replay[1..];
    } else if s.ch.buffer != [] {
      assert s.ch.buffer == [s.ch.buffer[0]] + s.ch.buffer[1..];
    }
  }

  /**
   No gap, duplicate or reordering: what was handed over is a prefix of the filtered history
   followed by everything published after the subscription.
   */
  lemma DeliveredIsPrefix(s: Subscriber, p: Place, published: seq<Notice>, live: bool)
    requires SubOk(s, p, published, live)
    ensures s.delivered <= From(LastKept(published[..p.from]), p.since) + published[p.from..]
  {
    var owed := From(LastKept(published[..p.from]), p.since) + published[p.from..];
    assert published[p.from..] == published[p.from..p.upto] + published[p.upto..];
    assert s.Stream() <= owed;
    assert s.delivered <= s.Stream();
  }

  /** Once a subscriber has drained its queue, it has been given all its run and nothing else. */
  lemma DrainedIsComplete(s: Subscriber, p: Place, published: seq<Notice>, live: bool)
    requires SubOk(s, p, published, live) && s.replay == [] && s.ch.buffer == []
    ensures s.delivered == From(LastKept(published[..p.from]), p.since) + published[p.from..p.upto]
    ensures live && !s.lagged ==> s.delivered == From(LastKept(published[..p.from]), p.since) + published[p.from..]
  {
    assert s.Stream() == s.delivered;
    assert published[p.from..|published|] == published[p.from..];
  }

  /** The filtered history: exactly the events not before `since`, in order. */
  lemma {:induction false} FromFilters(history: seq<Notice>, since: Time, e: Notice)
    requires since != ZERO_TIME
    ensures multiset(From(history, since))[e] == if e.at >= since then multiset(history)[e] else 0
  {
    if history != [] {
      var n := |history| - 1;
      FromFilters(history[..n], since, e);
      assert history == history[..n] + [history[n]];
    }
  }

  // ----- all subscriptions at once

  type Subs = map<int, Subscriber>
  type Places = map<int, Place>

  ghost predicate SubsOk(subs: Subs, places: Places, published: seq<Notice>, registered: set<int>) {
    && registered <= subs.Keys == places.Keys
    && forall id :: id in subs ==> SubOk(subs[id], places[id], published, id in registered)
  }

  function OfferedAll(subs: Subs, ids: set<int>, e: Notice): Subs {
    map id | id in subs :: if id in ids then Offered(subs[id], e) else subs[id]
  }

  ghost function MovedAll(subs: Subs, places: Places, ids: set<int>): Places
    requires subs.Keys == places.Keys
  {
    map id | id in places :: if id in ids then Moved(subs[id], places[id]) else places[id]
  }

  function ClosedAll(subs: Subs, ids: set<int>): Subs {
    map id | id in subs :: if id in ids then Closed(subs[id]) else subs[id]
  }

  lemma PublishKeeps(subs: Subs, places: Places, published: seq<Notice>, registered: set<int>, e: Notice)
    requires SubsOk(subs, places, published, registered)
    ensures SubsOk(OfferedAll(subs, registered, e), MovedAll(subs, places, registered), published + [e], registered)
  {
    hide Owed, Offered, Moved;
    forall id | id in subs
      ensures SubOk(OfferedAll(subs, registered, e)[id], MovedAll(subs, places, registered)[id], published + [e],
                    id in registered)
    {
      if id in registered {
        OfferKeeps(subs[id], published, places[id], e);
      } else {
        OwedLonger(subs[id], published, places[id], e);
      }
    }
  }

  lemma CloseKeeps(subs: Subs, places: Places, published: seq<Notice>, registered: set<int>)
    requires SubsOk(subs, places, published, registered)
    ensures SubsOk(ClosedAll(subs, registered), places, published, {})
  {
    forall id | id in subs ensures SubOk(ClosedAll(subs, registered)[id], places[id], published, false) {
      assert Closed(subs[id]).Stream() == subs[id].Stream();
    }
  }

  lemma TakeKeepsAll(subs: Subs, places: Places, published: seq<Notice>, registered: set<int>, id: int)
    requires SubsOk(subs, places, published, registered) && id in subs
    ensures SubsOk(subs[id := Taken(subs[id])], places, published, registered)
  {
    TakeKeeps(subs[id]);
  }

  lemma SubscribeKeeps(subs: Subs, places: Places, published: seq<Notice>, registered: set<int>, id: int, since: Time)
    requires SubsOk(subs, places, published, registered) && id !in subs
    ensures SubsOk(subs[id := Subscriber(From(LastKept(published), since), Channel([], false), false, [])],
                   places[id := Place(since, |published|, |published|)], published, registered + {id})
  {
    var s := Subscriber(From(LastKept(published), since), Channel([], false), false, []);
    assert published[..|published|] == published && published[|published|..|published|] == [];
    assert s.Stream() == s.replay;
  }

  lemma LeaveKeeps(subs: Subs, places: Places, published: seq<Notice>, registered: set<int>, id: int)
    requires SubsOk(subs, places, published, registered)
    ensures SubsOk(subs, places, published, registered - {id})
  {
  }

  class Broker {
    var next: int
    var registered: set<int>
    var subs: Subs
    var history: seq<Notice>
    var closed: bool

    ghost var published: seq<Notice>
    ghost var places: Places

    /** The history is the tail of what was published, and every subscription is in order. */
    ghost predicate Valid()
      reads this
    {
      && history == LastKept(published)
      && SubsOk(subs, places, published, registered)
      && (forall id :: id in subs ==> id < next)
      && (closed ==> registered == {})
    }

    constructor ()
      ensures Valid() && published == [] && subs == map[] && !closed
    {
      next, registered, subs, history, closed := 0, {}, map[], [], false;
      published, places := [], map[];
    }

    /** Publishes one event: it enters the history and is offered to every subscriber. */
    method Publish(event: Notice, now: Time)
      requires Valid()
      modifies this
      ensures Valid() && closed == old(closed) && registered == old(registered)
      ensures closed ==> published == old(published) && subs == old(subs) && places == old(places)
      ensures !closed ==>
        && published == old(published) + [Stamped(event, now)] && history == LastKept(published)
        && subs == OfferedAll(old(subs), registered, Stamped(event, now))
        && old(subs).Keys == old(places).Keys && places == MovedAll(old(subs), old(places), registered)
    {
      var e := Stamped(event, now);
      if closed { return; }
      PublishKeeps(subs, places, published, registered, e);
      TrimAppend(published, e);
      OfferAll(e);
      hide SubsOk, OfferedAll, MovedAll;
      history := history + [e];
      if |history| > HISTORY_LIMIT {
        history := history[|history| - HISTORY_LIMIT..];
      }
      places := MovedAll(old(subs), places, registered);
      published := published + [e];
    }

    /** Sends to every registered subscriber; a channel is sent to or closed only while open. */
    method OfferAll(e: Notice)
      requires SubsOk(subs, places, published, registered)
      modifies this`subs
      ensures subs == OfferedAll(old(subs), registered, e) && subs.Keys == old(subs).Keys
    {
      var rest := registered;
      while rest != {}
        invariant rest <= registered && subs.Keys == old(subs).Keys
        invariant forall id :: id in subs ==>
          subs[id] == if id in registered && id !in rest then Offered(old(subs)[id], e) else old(subs)[id]
      {
        assert (forall id :: id !in rest) ==> rest == {};
        var id :| id in rest;
        var s := subs[id];
        assert SubOk(s, places[id], published, id in registered);
        if !s.lagged {
          if s.ch.HasRoom() {
            s := s.(ch := s.ch.Send(e));
          } else {
            s := s.(lagged := true, ch := s.ch.Close());
          }
        }
        subs := subs[id := s];
        rest := rest - {id};
      }
      assert forall id :: id in subs ==> subs[id] == OfferedAll(old(subs), registered, e)[id];
    }

    /** Subscribing captures the replay and registers a queue in one step; a closed broker refuses. */
    method Subscribe(since: Time) returns (id: Option<int>)
      requires Valid()
      modifies this
      ensures Valid() && published == old(published) && history == old(history) && closed == old(closed)
      ensures id.None? <==> closed
      ensures id.None? ==> subs == old(subs) && registered == old(registered)
      ensures id.Some? ==>
        && id.value !in old(subs) && registered == old(registered) + {id.value}
        && subs == old(subs)[id.value := Subscriber(From(history, since), Channel([], false), false, [])]
        && places == old(places)[id.value := Place(since, |published|, |published|)]
    {
      if closed { return None; }
      hide SubsOk;
      var replay := Replay(since);
      var n := next;
      SubscribeKeeps(subs, places, published, registered, n, since);
      next := next + 1;
      subs := subs[n := Subscriber(replay, Channel([], false), false, [])];
      registered := registered + {n};
      places := places[n := Place(since, |published|, |published|)];
      return Some(n);
    }

    method Replay(since: Time) returns (replay: seq<Notice>)
      ensures replay == From(history, since)
    {
      replay := [];
      if since == ZERO_TIME { return; }
      for i := 0 to |history|
        invariant replay == From(history[..i], since)
      {
        assert history[..i + 1][..i] == history[..i];
        if history[i].at >= since { replay := replay + [history[i]]; }
      }
      assert history[..|history|] == history;
    }

    /** The consumer of a subscription receives its next event, if there is one. */
    method Take(id: int) returns (e: Option<Notice>)
      requires Valid() && id in subs
      modifies this`subs
      ensures Valid() && subs == old(subs)[id := Taken(old(subs)[id])]
      ensures subs[id].delivered == old(subs)[id].delivered + if e.Some? then [e.value] else []
      ensures e.None? <==> old(subs)[id].replay == [] && old(subs)[id].ch.buffer == []
    {
      hide SubsOk;
      TakeKeepsAll(subs, places, published, registered, id);
      var s := subs[id];
      e := None;
      if s.replay != [] {
        e := Some(s.replay[0]);
        s := s.(delivered := s.delivered + [s.replay[0]], replay := s.replay[1..]);
      } else if s.ch.buffer != [] {
        e := Some(s.ch.buffer[0]);
        s := s.(delivered := s.delivered + [s.ch.buffer[0]], ch := s.ch.Receive());
      }
      subs := subs[id := s];
    }

    /** A consumer that returns takes its subscription off the broker. */
    method Leave(id: int)
      requires Valid()
      modifies this`registered
      ensures Valid() && registered == old(registered) - {id}
    {
      LeaveKeeps(subs, places, published, registered, id);
      registered := registered - {id};
    }

    /** Shutting down closes every channel still open, once, and forgets the subscribers. */
    method Close()
      requires Valid()
      modifies this
      ensures Valid() && closed && registered == {} && published == old(published) && places == old(places)
      ensures subs == ClosedAll(old(subs), old(registered))
    {
      CloseKeeps(subs, places, published, registered);
      if closed {
        assert subs == ClosedAll(subs, registered);
        return;
      }
      closed := true;
      CloseChannels();
      hide SubsOk, ClosedAll;
      registered := {};
    }

    method CloseChannels()
      requires SubsOk(subs, places, published, registered)
      modifies this`subs
      ensures subs == ClosedAll(old(subs), registered) && subs.Keys == old(subs).Keys
    {
      var rest := registered;
      while rest != {}
        invariant rest <= registered && subs.Keys == old(subs).Keys
        invariant forall id :: id in subs ==>
          subs[id] == if id in registered && id !in rest then Closed(old(subs)[id]) else old(subs)[id]
      {
        assert (forall id :: id !in rest) ==> rest == {};
        var id :| id in rest;
        var s := subs[id];
        assert SubOk(s, places[id], published, id in registered);
        if !s.lagged {
          subs := subs[id := s.(lagged := true, ch := s.ch.Close())];
        }
        rest := rest - {id};
      }
      assert forall id :: id in subs ==> subs[id] == ClosedAll(old(subs), registered)[id];
    }
  }
}
