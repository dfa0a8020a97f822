/**
 A task's event log and its subscribers. Events are appended under the lock and offered to the
 subscribers' channels after it is released, so emits, offers, subscriptions and reads interleave.
 */
module EventLog {
  import opened Basics

  datatype Event = Event(id: nat, kind: string)

  const CHANNEL_CAPACITY := 32

  /** The events of the log after lastId, in order. */
  function Newer(events: seq<Event>, lastId: int): seq<Event> {
    if events == [] then []
    else
      var last := events[|events| - 1];
      Newer(events[..|events| - 1], lastId) + if last.id > lastId then [last] else []
  }

  /** What the agent keeps of one task's events: whether the task is listed, its log, and who watches. */
  datatype Board = Board(listed: bool, events: seq<Event>, watchers: set<nat>)

  function Emitted(b: Board, kind: string): Board {
    if b.listed then b.(events := b.events + [Event(|b.events| + 1, kind)]) else b
  }

  function Joined(b: Board, channel: nat): Board {
    if b.listed then b.(watchers := b.watchers + {channel}) else b
  }

  /** The part of the agent that emit, Subscribe and the reaper change under the lock, for one task. */
  class Hub {
    var listed: bool
    var events: seq<Event>
    var watchers: set<nat>

    ghost function Value(): Board
      reads this
    {
      Board(listed, events, watchers)
    }

    constructor ()
      ensures Value() == Board(true, [], {})
    {
      listed, events, watchers := true, [], {};
    }

    /** emit up to its unlock: the event, and the watchers it is then offered to. */
    method Append(kind: string) returns (event: Option<Event>, targets: set<nat>)
      modifies this
      ensures Value() == Emitted(old(Value()), kind)
      ensures event == if listed then Some(Event(|old(events)| + 1, kind)) else None
      ensures targets == if listed then watchers else {}
    {
      if !listed {
        return None, {};
      }
      var appended := Event(|events| + 1, kind);
      events := events + [appended];
      return Some(appended), watchers;
    }

    /** The history for a new channel, or a refusal when the task is unknown. */
    method Subscribe(channel: nat, lastId: int) returns (history: Option<seq<Event>>)
      modifies this
      ensures Value() == Joined(old(Value()), channel)
      ensures history == if listed then Some(Newer(events, lastId)) else None
    {
      if !listed {
        return None;
      }
      watchers := watchers + {channel};
      var found: seq<Event> := [];
      for i := 0 to |events|
        invariant listed && events == old(events) && watchers == old(watchers) + {channel}
        invariant found == Newer(events[..i], lastId)
      {
        assert events[..i + 1][..i] == events[..i];
        if events[i].id > lastId {
          found := found + [events[i]];
        }
      }
      assert events[..|events|] == events;
      history := Some(found);
    }

    method Unsubscribe(channel: nat)
      modifies this
      ensures Value() == old(Value()).(watchers := old(watchers) - {channel})
    {
      watchers := watchers - {channel};
    }

    method Reap()
      modifies this
      ensures Value() == old(Value()).(listed := false)
    {
      listed := false;
    }
  }

  // ----- The interleaved system -----

  /**
   A subscription: the log length when it joined and when it closed, its history, the events waiting in
   its channel, those read from it in order, and counts of those offered to it and lost to a full channel.
   */
  datatype Subscriber = Subscriber(
    joined: nat,
    closed: Option<nat>,
    lastId: int,
    history: seq<Event>,
    buffer: seq<Event>,
    offered: multiset<Event>,
    received: seq<Event>,
    lost: multiset<Event>)

  /** sending[k] are the channels that the emitter of event k has still to try. */
  datatype State = State(
    listed: bool,
    events: seq<Event>,
    subscribers: map<nat, Subscriber>,
    sending: map<nat, set<nat>>)

  datatype Action =
    | Emits(kind: string)
    | Offers(k: nat, channel: nat)
    | Reads(channel: nat)
    | Subscribes(channel: nat, lastId: int)
    | Closes(channel: nat)
    | Reaps

  function Watchers(s: State): set<nat> {
    set c | c in s.subscribers && s.subscribers[c].closed.None?
  }

  predicate Possible(s: State, a: Action) {
    match a
    case Emits(_) => true
    case Offers(k, c) => k < |s.events| && k in s.sending && c in s.sending[k] && c in s.subscribers
    case Reads(c) => c in s.subscribers && s.subscribers[c].buffer != []
    case Subscribes(c, _) => s.listed && c !in s.subscribers
    case Closes(c) => c in Watchers(s)
    case Reaps => true
  }

  /** The non-blocking send. */
  function Offer(u: Subscriber, e: Event): Subscriber {
    var u' := u.(offered := u.offered + multiset{e});
    if |u.buffer| < CHANNEL_CAPACITY then u'.(buffer := u.buffer + [e])
    else u'.(lost := u.lost + multiset{e})
  }

  function Apply(s: State, a: Action): State
    requires Possible(s, a)
  {
    match a
    case Emits(kind) =>
      if !s.listed then s
      else
        var n := |s.events|;
        s.(events := s.events + [Event(n + 1, kind)], sending := s.sending[n := Watchers(s)])
    case Offers(k, c) =>
      s.(subscribers := s.subscribers[c := Offer(s.subscribers[c], s.events[k])],
         sending := s.sending[k := s.sending[k] - {c}])
    case Reads(c) =>
      var u := s.subscribers[c];
      s.(subscribers := s.subscribers[c := u.(buffer := u.buffer[1..], received := u.received + [u.buffer[0]])])
    case Subscribes(c, lastId) =>
      s.(subscribers := s.subscribers[c :=
        Subscriber(|s.events|, None, lastId, Newer(s.events, lastId), [], multiset{}, [], multiset{})])
    case Closes(c) =>
      s.(subscribers := s.subscribers[c := s.subscribers[c].(closed := Some(|s.events|))])
    case Reaps => s.(listed := false)
  }

  function BoardOf(s: State): Board {
    Board(s.listed, s.events, Watchers(s))
  }

  /**
   Each action changes the board as the agent's own section does, offers go to the watchers that the
   section names, and a new subscriber gets the history that its section returns.
   */
  lemma BoardSteps(s: State, a: Action)
    requires Possible(s, a)
    ensures var s' := Apply(s, a);
      match a
      case Emits(kind) =>
        && BoardOf(s') == Emitted(BoardOf(s), kind)
        && (s.listed ==> |s.events| in s'.sending && s'.sending[|s.events|] == BoardOf(s).watchers)
        && (!s.listed ==> s' == s)
      case Subscribes(c, lastId) =>
        BoardOf(s') == Joined(BoardOf(s), c) && s'.subscribers[c].history == Newer(s.events, lastId)
      case Closes(c) => BoardOf(s') == BoardOf(s).(watchers := BoardOf(s).watchers - {c})
      case Reaps => BoardOf(s') == BoardOf(s).(listed := false)
      case _ => BoardOf(s') == BoardOf(s)
  {
    var s' := Apply(s, a);
    match a
    case Subscribes(c, _) =>
      assert forall d | d in s.subscribers :: s'.subscribers[d] == s.subscribers[d];
      assert Watchers(s') == Watchers(s) + {c};
    case Closes(c) => assert Watchers(s') == Watchers(s) - {c};
    case Offers(_, c) => assert Watchers(s') == Watchers(s);
    case Reads(c) => assert Watchers(s') == Watchers(s);
    case _ =>
  }

  const EMPTY := State(true, [], map[], map[])

  ghost predicate IsRun(states: seq<State>, actions: seq<Action>) {
    && |states| == |actions| + 1
    && states[0] == EMPTY
    && forall i | 0 <= i < |actions| :: Possible(states[i], actions[i]) && states[i + 1] == Apply(states[i], actions[i])
  }

  /** Event k belongs to the time in which the subscription was open. */
  predicate Covers(u: Subscriber, k: nat) {
    u.joined <= k && (u.closed.Some? ==> k < u.closed.value)
  }

  function InFlight(s: State, c: nat, k: nat): nat {
    if k in s.sending && c in s.sending[k] then 1 else 0
  }

  ghost predicate Numbered(events: seq<Event>) {
    forall k | 0 <= k < |events| :: events[k].id == k + 1
  }

  /** Offers made and offers outstanding account for each event exactly when it is covered. */
  ghost predicate Accounted(s: State, c: nat, k: nat)
    requires c in s.subscribers && k < |s.events|
  {
    s.subscribers[c].offered[s.events[k]] + InFlight(s, c, k) == if Covers(s.subscribers[c], k) then 1 else 0
  }

  ghost predicate Kept(events: seq<Event>, u: Subscriber) {
    && u.joined <= |events|
    && (u.closed.Some? ==> u.joined <= u.closed.value <= |events|)
    && u.history == Newer(events[..u.joined], u.lastId)
    && u.offered == multiset(u.received) + multiset(u.buffer) + u.lost
    && (forall e | e in u.offered :: e in events)
    && |u.buffer| <= CHANNEL_CAPACITY
  }

  ghost predicate Inv(s: State) {
    && Numbered(s.events)
    && (forall k | k in s.sending :: k < |s.events| && s.sending[k] <= s.subscribers.Keys)
    && (forall c | c in s.subscribers :: Kept(s.events, s.subscribers[c]))
    && (forall c, k: nat | c in s.subscribers && k < |s.events| :: Accounted(s, c, k))
  }

  lemma LogGrows(events: seq<Event>, u: Subscriber, e: Event)
    requires Kept(events, u)
    ensures Kept(events + [e], u)
  {
    assert (events + [e])[..u.joined] == events[..u.joined];
    assert forall x | x in u.offered :: x in events + [e];
  }

  /** The new event is still to be offered to exactly those who watch. */
  lemma NewestAccounted(s: State, kind: string, c: nat)
    requires Inv(s) && s.listed && c in s.subscribers
    ensures Accounted(Apply(s, Emits(kind)), c, |s.events|)
  {
    var e, u := Event(|s.events| + 1, kind), s.subscribers[c];
    assert Kept(s.events, u);
    assert e !in s.events && e !in u.offered;
    assert Covers(u, |s.events|) == (c in Watchers(s));
  }

  lemma EmitsKept(s: State, kind: string)
    requires Inv(s) && s.listed
    ensures Inv(Apply(s, Emits(kind)))
  {
    var s' := Apply(s, Emits(kind));
    var n, e := |s.events|, Event(|s.events| + 1, kind);
    forall c | c in s'.subscribers ensures Kept(s'.events, s'.subscribers[c]) {
      LogGrows(s.events, s.subscribers[c], e);
    }
    forall c, k: nat | c in s'.subscribers && k < |s'.events| ensures Accounted(s', c, k) {
      if k < n {
        assert Accounted(s, c, k);
      } else {
        NewestAccounted(s, kind, c);
      }
    }
  }

  lemma OfferKept(events: seq<Event>, u: Subscriber, e: Event)
    requires Kept(events, u) && e in events
    ensures Kept(events, Offer(u, e))
  {
    assert multiset(u.buffer + [e]) == multiset(u.buffer) + multiset{e};
  }

  lemma OffersKept(s: State, k: nat, c: nat)
    requires Inv(s) && Possible(s, Offers(k, c))
    ensures Inv(Apply(s, Offers(k, c)))
  {
    var s' := Apply(s, Offers(k, c));
    OfferKept(s.events, s.subscribers[c], s.events[k]);
    forall d, j: nat | d in s'.subscribers && j < |s'.events| ensures Accounted(s', d, j) {
      OfferAccounted(s, k, c, d, j);
    }
  }

  lemma OfferAccounted(s: State, k: nat, c: nat, d: nat, j: nat)
    requires Numbered(s.events) && Possible(s, Offers(k, c))
    requires d in s.subscribers && j < |s.events| && Accounted(s, d, j)
    ensures Accounted(Apply(s, Offers(k, c)), d, j)
  {
    if j != k {
      assert s.events[j].id != s.events[k].id;
    }
  }

  lemma ReadKept(events: seq<Event>, u: Subscriber)
    requires Kept(events, u) && u.buffer != []
    ensures Kept(events, u.(buffer := u.buffer[1..], received := u.received + [u.buffer[0]]))
  {
    assert u.buffer == [u.buffer[0]] + u.buffer[1..];
  }

  lemma ReadsKept(s: State, c: nat)
    requires Inv(s) && Possible(s, Reads(c))
    ensures Inv(Apply(s, Reads(c)))
  {
    ReadKept(s.events, s.subscribers[c]);
    SameAccounts(s, Apply(s, Reads(c)));
  }

  /** Neither offers nor subscriptions changed. */
  lemma SameAccounts(s: State, s': State)
    requires Inv(s) && s'.events == s.events && s'.sending == s.sending && s'.subscribers.Keys == s.subscribers.Keys
    requires forall c | c in s.subscribers ::
      var u, u' := s.subscribers[c], s'.subscribers[c];
      Kept(s.events, u') && u'.offered == u.offered
      && forall k: nat | k < |s.events| :: Covers(u', k) == Covers(u, k)
    ensures Inv(s')
  {
    forall d, j: nat | d in s'.subscribers && j < |s'.events| ensures Accounted(s', d, j) {
      assert Accounted(s, d, j);
    }
  }

  lemma SubscribesKept(s: State, c: nat, lastId: int)
    requires Inv(s) && Possible(s, Subscribes(c, lastId))
    ensures Inv(Apply(s, Subscribes(c, lastId)))
  {
    var s' := Apply(s, Subscribes(c, lastId));
    assert s.events[..|s.events|] == s.events;
    assert Kept(s'.events, s'.subscribers[c]);
    forall d, j: nat | d in s'.subscribers && j < |s'.events| ensures Accounted(s', d, j) {
      if d != c {
        assert Accounted(s, d, j);
      } else {
        assert j in s.sending ==> c !in s.sending[j];
      }
    }
  }

  lemma ClosesKept(s: State, c: nat)
    requires Inv(s) && Possible(s, Closes(c))
    ensures Inv(Apply(s, Closes(c)))
  {
    var u := s.subscribers[c];
    assert Kept(s.events, u);
    ClosingKept(s.events, u);
    SameAccounts(s, Apply(s, Closes(c)));
  }

  lemma ClosingKept(events: seq<Event>, u: Subscriber)
    requires Kept(events, u) && u.closed.None?
    ensures Kept(events, u.(closed := Some(|events|)))
  {
  }

  lemma InvKept(s: State, a: Action)
    requires Inv(s) && Possible(s, a)
    ensures Inv(Apply(s, a))
  {
    match a
    case Emits(kind) => if s.listed { EmitsKept(s, kind); }
    case Offers(k, c) => OffersKept(s, k, c);
    case Reads(c) => ReadsKept(s, c);
    case Subscribes(c, lastId) => SubscribesKept(s, c, lastId);
    case Closes(c) => ClosesKept(s, c);
    case Reaps => SameAccounts(s, Apply(s, a));
  }

  lemma {:induction false} RunInv(states: seq<State>, actions: seq<Action>, i: nat)
    requires IsRun(states, actions) && i < |states|
    ensures Inv(states[i])
  {
    if i > 0 {
      RunInv(states, actions, i - 1);
      InvKept(states[i - 1], actions[i - 1]);
    }
  }

  lemma {:induction false} NewerExact(events: seq<Event>, lastId: int, e: Event)
    ensures multiset(Newer(events, lastId))[e] == if e.id > lastId then multiset(events)[e] else 0
  {
    if events != [] {
      var n := |events| - 1;
      assert events == events[..n] + [events[n]];
      NewerExact(events[..n], lastId, e);
    }
  }

  lemma {:induction false} NumberedOnce(events: seq<Event>, k: nat)
    requires Numbered(events) && k < |events|
    ensures multiset(events)[events[k]] == 1
  {
    var n := |events| - 1;
    assert events == events[..n] + [events[n]];
    if k < n {
      NumberedOnce(events[..n], k);
      assert events[n].id != events[k].id;
    } else {
      assert events[n] !in events[..n];
    }
  }

  /**
   Event k has ID k+1. For every subscriber an event appended before it joined is in its history exactly
   once when its ID is past lastId and never offered; an event appended while it was subscribed is offered
   exactly once, already or still to come, and is not in its history.
   */
  lemma EachEventOnce(states: seq<State>, actions: seq<Action>, i: nat, c: nat, k: nat)
    requires IsRun(states, actions) && i < |states|
    requires c in states[i].subscribers && k < |states[i].events|
    ensures var s := states[i];
      var u, e := s.subscribers[c], s.events[k];
      && e.id == k + 1
      && multiset(u.history)[e] == (if k < u.joined && e.id > u.lastId then 1 else 0)
      && u.offered[e] + InFlight(s, c, k) == (if Covers(u, k) then 1 else 0)
  {
    RunInv(states, actions, i);
    var s := states[i];
    var u, e := s.subscribers[c], s.events[k];
    assert Kept(s.events, u) && Accounted(s, c, k);
    var before := s.events[..u.joined];
    NewerExact(before, u.lastId, e);
    if k < u.joined {
      NumberedOnce(before, k);
      assert before[k] == e;
    } else {
      assert e !in before;
    }
  }

  lemma LossStep(s: State, a: Action, c: nat)
    requires Possible(s, a) && c in s.subscribers
    ensures c in Apply(s, a).subscribers
    ensures Apply(s, a).subscribers[c].lost != s.subscribers[c].lost ==>
      |s.subscribers[c].buffer| >= CHANNEL_CAPACITY && a.Offers? && a.channel == c
  {
  }

  /** A full channel is the only loss: each offer is read, still buffered, or was made to a full channel. */
  lemma LossOnlyWhenFull(states: seq<State>, actions: seq<Action>, i: nat, c: nat)
    requires IsRun(states, actions) && i < |actions| && c in states[i].subscribers
    ensures c in states[i + 1].subscribers
    ensures var u, u' := states[i].subscribers[c], states[i + 1].subscribers[c];
      && u'.offered == multiset(u'.received) + multiset(u'.buffer) + u'.lost
      && (u'.lost != u.lost ==> |u.buffer| == 32 && actions[i].Offers? && actions[i].channel == c)
  {
    LossStep(states[i], actions[i], c);
    SubscriberKept(states, actions, i, c);
    SubscriberKept(states, actions, i + 1, c);
  }

  lemma SubscriberKept(states: seq<State>, actions: seq<Action>, i: nat, c: nat)
    requires IsRun(states, actions) && i < |states| && c in states[i].subscribers
    ensures Kept(states[i].events, states[i].subscribers[c])
  {
    RunInv(states, actions, i);
  }

  // ----- Order -----

  /** How many of the first m events have an ID up to lastId. */
  function Skipped(m: nat, lastId: int): nat {
    if lastId < 0 then 0 else if lastId < m then lastId else m
  }

  lemma SliceSnoc(events: seq<Event>, k: nat, m: nat)
    requires k < m <= |events|
    ensures events[k..m] == events[k..m - 1] + [events[m - 1]]
  {
  }

  lemma {:induction false} NewerIsSuffix(events: seq<Event>, lastId: int, m: nat)
    requires Numbered(events) && m <= |events|
    ensures Newer(events[..m], lastId) == events[Skipped(m, lastId)..m]
  {
    if m > 0 {
      NewerIsSuffix(events, lastId, m - 1);
      assert events[..m][..m - 1] == events[..m - 1] && events[..m][m - 1] == events[m - 1];
      if lastId < m {
        SliceSnoc(events, Skipped(m, lastId), m);
      }
    }
  }

  /** The history of a subscriber is the end of the log as it joined, oldest first, from the first ID past lastId on. */
  lemma HistoryInOrder(states: seq<State>, actions: seq<Action>, i: nat, c: nat)
    requires IsRun(states, actions) && i < |states| && c in states[i].subscribers
    ensures var s, u := states[i], states[i].subscribers[c];
      && u.joined <= |s.events|
      && u.history == s.events[Skipped(u.joined, u.lastId)..u.joined]
      && forall k | 0 <= k < |u.history| :: u.history[k].id == u.joined - |u.history| + k + 1
  {
    SubscriberKept(states, actions, i, c);
    RunInv(states, actions, i);
    NewerIsSuffix(states[i].events, states[i].subscribers[c].lastId, states[i].subscribers[c].joined);
  }

  /** Through the channel, in the order of the accepted offers. */
  function Through(u: Subscriber): seq<Event> { u.received + u.buffer }

  lemma ThroughStep(s: State, a: Action, c: nat)
    requires Possible(s, a) && c in s.subscribers
    ensures c in Apply(s, a).subscribers
    ensures var u, u' := s.subscribers[c], Apply(s, a).subscribers[c];
      && u.received <= u'.received
      && (Through(u') == Through(u)
          || (a.Offers? && a.channel == c && |u.buffer| < 32 && Through(u') == Through(u) + [s.events[a.k]]))
  {
    var u := s.subscribers[c];
    if a.Reads? && a.channel == c {
      assert u.buffer == [u.buffer[0]] + u.buffer[1..];
    }
  }

  /** What the subscriber has read, and what came through its channel, only grew at the end. */
  ghost predicate Extends(u: Subscriber, u': Subscriber) {
    u.received <= u'.received && Through(u) <= Through(u')
  }

  lemma ExtendsItself(u: Subscriber)
    ensures Extends(u, u)
  {
  }

  lemma ExtendsOn(u: Subscriber, v: Subscriber, w: Subscriber)
    requires Extends(u, v) && Extends(v, w)
    ensures Extends(u, w)
  {
  }

  lemma ExtendsStep(states: seq<State>, actions: seq<Action>, k: nat, c: nat)
    requires IsRun(states, actions) && k < |actions| && c in states[k].subscribers
    ensures c in states[k + 1].subscribers && Extends(states[k].subscribers[c], states[k + 1].subscribers[c])
  {
    ThroughStep(states[k], actions[k], c);
  }

  lemma ExtendsFurther(states: seq<State>, actions: seq<Action>, i: nat, j: nat, c: nat)
    requires IsRun(states, actions) && i <= j < |actions| && c in states[i].subscribers && c in states[j].subscribers
    requires Extends(states[i].subscribers[c], states[j].subscribers[c])
    ensures c in states[j + 1].subscribers && Extends(states[i].subscribers[c], states[j + 1].subscribers[c])
  {
    ExtendsStep(states, actions, j, c);
    ExtendsOn(states[i].subscribers[c], states[j].subscribers[c], states[j + 1].subscribers[c]);
  }

  /** First in, first out: what a subscriber has read and has waiting only grows at its end. */
  lemma {:induction false} FirstInFirstOut(states: seq<State>, actions: seq<Action>, i: nat, j: nat, c: nat)
    requires IsRun(states, actions) && i <= j < |states| && c in states[i].subscribers
    ensures c in states[j].subscribers && Extends(states[i].subscribers[c], states[j].subscribers[c])
    decreases j
  {
    if i < j {
      FirstInFirstOut(states, actions, i, j - 1, c);
      ExtendsFurther(states, actions, i, j - 1, c);
    } else {
      ExtendsItself(states[i].subscribers[c]);
    }
  }
}
