/** The publish/subscribe bus: publishers, subscribers and unsubscribers interleave; sends and
    closes of a channel happen in separate steps. */
module PubSub {
  import opened Prelude

  const DEFAULT_BUFFER: nat := 16

  function BufferFor(size: int): nat {
    if size <= 0 then DEFAULT_BUFFER else size
  }

  /** Made: not registered yet. Leaving: inside the once, before the lock. Removed: off the
      map, not closed yet. */
  datatype Stage = Made | Live | Leaving | Removed | Closed

  /** A subscriber's channel. `queue` is its buffer; `taken` and `dropped` are histories of what
      its reader got and of what found the buffer full; `from` and `upto` date its stay on the
      map. Values are told apart by the publish they came from. */
  datatype Chan = Chan(topic: string, stage: Stage, closed: bool, queue: seq<nat>, taken: seq<nat>, dropped: seq<nat>,
                       from: nat, upto: Option<nat>)

  /** A call of Publish: the channels its range has visited, and when it took and gave back the
      read lock. */
  datatype Pub = Pub(topic: string, visited: set<nat>, from: nat, upto: Option<nat>)

  datatype State = State(buffer: nat, clock: nat, subs: map<string, set<nat>>, chans: map<nat, Chan>,
                         pubs: map<nat, Pub>, panicked: bool)

  datatype Event =
    | Make(c: nat, topic: string)
    | Insert(c: nat)
    | Unsubscribe(c: nat)
    | Remove(c: nat)
    | Close(c: nat)
    | Take(c: nat)
    | Begin(p: nat, topic: string)
    | Send(p: nat, c: nat)
    | End(p: nat)

  function Init(size: int): State {
    State(BufferFor(size), 0, map[], map[], map[], false)
  }

  function SubsOf(s: State, topic: string): set<nat> {
    if topic in s.subs then s.subs[topic] else {}
  }

  /** Some publisher holds the read lock. */
  ghost predicate ReadLocked(s: State) {
    exists p :: p in s.pubs && s.pubs[p].upto.None?
  }

  ghost predicate Enabled(s: State, e: Event) {
    match e
    case Make(c, _) => c !in s.chans
    case Insert(c) => c in s.chans && s.chans[c].stage == Made && !ReadLocked(s)
    case Unsubscribe(c) => c in s.chans && s.chans[c].stage != Made
    case Remove(c) => c in s.chans && s.chans[c].stage == Leaving && !ReadLocked(s)
    case Close(c) => c in s.chans && s.chans[c].stage == Removed
    case Take(c) => c in s.chans && s.chans[c].queue != []
    case Begin(p, _) => p !in s.pubs
    case Send(p, c) =>
      p in s.pubs && s.pubs[p].upto.None? && c in SubsOf(s, s.pubs[p].topic) - s.pubs[p].visited && c in s.chans
    case End(p) => p in s.pubs && s.pubs[p].upto.None? && SubsOf(s, s.pubs[p].topic) <= s.pubs[p].visited
  }

  function Registered(s: State, topic: string, c: nat): map<string, set<nat>> {
    s.subs[topic := SubsOf(s, topic) + {c}]
  }

  function Unregistered(s: State, topic: string, c: nat): map<string, set<nat>> {
    var left := SubsOf(s, topic) - {c};
    if left == {} then s.subs - {topic} else s.subs[topic := left]
  }

  /** A send that does not block: dropped when the buffer is full. */
  function Offered(ch: Chan, p: nat, buffer: nat): Chan {
    if |ch.queue| < buffer then ch.(queue := ch.queue + [p]) else ch.(dropped := ch.dropped + [p])
  }

  function ChanAfter(s: State, e: Event, c: nat): Chan
    requires c in s.chans
  {
    var ch := s.chans[c];
    match e
    case Insert(_) => ch.(stage := Live, from := s.clock)
    case Unsubscribe(_) => if ch.stage == Live then ch.(stage := Leaving) else ch
    case Remove(_) => ch.(stage := Removed, upto := Some(s.clock))
    case Close(_) => ch.(stage := Closed, closed := true)
    case Take(_) => if ch.queue == [] then ch else ch.(queue := ch.queue[1..], taken := ch.taken + [ch.queue[0]])
    case Send(p, _) => Offered(ch, p, s.buffer)
    case _ => ch
  }

  function Apply(s: State, e: Event): State
    requires Enabled(s, e)
  {
    match e
    case Make(c, topic) =>
      s.(clock := s.clock + 1, chans := s.chans[c := Chan(topic, Made, false, [], [], [], 0, None)])
    case Insert(c) =>
      s.(clock := s.clock + 1, chans := s.chans[c := ChanAfter(s, e, c)], subs := Registered(s, s.chans[c].topic, c))
    case Remove(c) =>
      s.(clock := s.clock + 1, chans := s.chans[c := ChanAfter(s, e, c)], subs := Unregistered(s, s.chans[c].topic, c))
    case Unsubscribe(c) => s.(clock := s.clock + 1, chans := s.chans[c := ChanAfter(s, e, c)])
    case Close(c) =>
      s.(clock := s.clock + 1, chans := s.chans[c := ChanAfter(s, e, c)], panicked := s.panicked || s.chans[c].closed)
    case Take(c) => s.(clock := s.clock + 1, chans := s.chans[c := ChanAfter(s, e, c)])
    case Begin(p, topic) => s.(clock := s.clock + 1, pubs := s.pubs[p := Pub(topic, {}, s.clock, None)])
    case Send(p, c) =>
      s.(clock := s.clock + 1, chans := s.chans[c := ChanAfter(s, e, c)],
         pubs := s.pubs[p := s.pubs[p].(visited := s.pubs[p].visited + {c})],
         panicked := s.panicked || s.chans[c].closed)
    case End(p) => s.(clock := s.clock + 1, pubs := s.pubs[p := s.pubs[p].(upto := Some(s.clock))])
  }

  ghost predicate Possible(size: int, evs: seq<Event>)
    decreases |evs|, 0
  {
    evs == [] || (Possible(size, Front(evs)) && Enabled(Run(size, Front(evs)), evs[|evs| - 1]))
  }

  ghost function Run(size: int, evs: seq<Event>): State
    requires Possible(size, evs)
    decreases |evs|, 1
  {
    if evs == [] then Init(size) else Apply(Run(size, Front(evs)), evs[|evs| - 1])
  }

  // ----- Invariant -----

  predicate OnMap(ch: Chan) {
    ch.stage == Live || ch.stage == Leaving
  }

  /** The values that entered the buffer, in order. */
  function Accepted(ch: Chan): seq<nat> {
    ch.taken + ch.queue
  }

  ghost predicate MapOk(s: State) {
    && (forall topic :: topic in s.subs ==> s.subs[topic] != {})
    && (forall topic, c :: topic in s.subs && c in s.subs[topic] ==>
          c in s.chans && s.chans[c].topic == topic && OnMap(s.chans[c]))
    && (forall c :: c in s.chans && OnMap(s.chans[c]) ==> c in SubsOf(s, s.chans[c].topic))
  }

  predicate ChanOk(s: State, c: nat) {
    c in s.chans ==>
      var ch := s.chans[c];
      && |ch.queue| <= s.buffer
      && (ch.dropped != [] ==> |ch.taken| + |ch.queue| >= s.buffer)
      && (ch.closed <==> ch.stage == Closed)
      && (ch.upto.Some? <==> ch.stage == Removed || ch.stage == Closed)
      && (ch.stage != Made ==> ch.from < s.clock)
      && (ch.upto.Some? ==> ch.from < ch.upto.value < s.clock)
  }

  predicate PubOk(s: State, p: nat) {
    p in s.pubs ==>
      var pub := s.pubs[p];
      && pub.from < s.clock
      && (pub.upto.Some? ==> pub.from < pub.upto.value < s.clock)
  }

  /** The publish lay within the subscriber's stay on the map. */
  predicate Within(pub: Pub, ch: Chan) {
    && ch.topic == pub.topic && ch.stage != Made && ch.from < pub.from
    && (ch.upto.Some? ==> pub.from < ch.upto.value)
  }

  /** A publish visits exactly the channels whose stay on the map it lies within, and the map
      does not change while it runs. */
  predicate PairOk(s: State, p: nat, c: nat) {
    p in s.pubs && c in s.chans ==>
      var pub, ch := s.pubs[p], s.chans[c];
      && (c in pub.visited ==> Within(pub, ch))
      && (pub.upto.Some? && Within(pub, ch) ==> c in pub.visited && (ch.upto.Some? ==> pub.upto.value < ch.upto.value))
      && (pub.upto.None? && ch.stage != Made ==> ch.from < pub.from)
      && (pub.upto.None? && ch.upto.Some? ==> ch.upto.value < pub.from)
  }

  /** A channel was offered exactly the publishes that visited it. */
  predicate OfferOk(s: State, p: nat, c: nat) {
    p in s.pubs && c in s.chans ==>
      (c in s.pubs[p].visited <==> p in Accepted(s.chans[c]) || p in s.chans[c].dropped)
  }

  predicate Before(a: Pub, b: Pub) {
    a.upto.Some? && a.upto.value < b.from
  }

  /** The history of a channel: every value from a known publish, at most once, accepted or
      dropped but not both, and in no order that contradicts real time. */
  ghost predicate HistoryOk(s: State, c: nat) {
    c in s.chans ==>
      var ch := s.chans[c];
      && NoDup(Accepted(ch)) && NoDup(ch.dropped)
      && (forall p :: p in Accepted(ch) ==> p in s.pubs && p !in ch.dropped)
      && (forall p :: p in ch.dropped ==> p in s.pubs)
      && InOrder(Accepted(ch), s.pubs)
  }

  ghost predicate InOrder(sent: seq<nat>, pubs: map<nat, Pub>) {
    forall i, j :: 0 <= i < j < |sent| && sent[i] in pubs && sent[j] in pubs ==> !Before(pubs[sent[j]], pubs[sent[i]])
  }

  ghost predicate Inv(s: State) {
    && MapOk(s) && !s.panicked
    && (forall c {:trigger ChanOk(s, c)} :: ChanOk(s, c))
    && (forall p {:trigger PubOk(s, p)} :: PubOk(s, p))
    && (forall p, c {:trigger PairOk(s, p, c)} :: PairOk(s, p, c))
    && (forall p, c {:trigger OfferOk(s, p, c)} :: OfferOk(s, p, c))
    && (forall c {:trigger HistoryOk(s, c)} :: HistoryOk(s, c))
    && (forall p, c :: p in s.pubs && c in s.pubs[p].visited ==> c in s.chans)
  }

  /** Only the buffer and its histories differ. */
  predicate SamePlace(a: Chan, b: Chan) {
    a.topic == b.topic && OnMap(a) == OnMap(b)
  }

  /** The map is right for any channels that are registered as these are. */
  lemma SamePlacesKeepMap(s: State, s': State)
    requires MapOk(s) && s'.subs == s.subs && s.chans.Keys <= s'.chans.Keys
    requires forall c {:trigger s'.chans[c]} :: c in s'.chans ==>
      if c in s.chans then SamePlace(s.chans[c], s'.chans[c]) else !OnMap(s'.chans[c])
    ensures MapOk(s')
  {
  }

  lemma RegisterKeepsMap(s: State, s': State, c: nat)
    requires MapOk(s) && c in s'.chans && OnMap(s'.chans[c]) && (c in s.chans ==> !OnMap(s.chans[c]))
    requires s'.chans == s.chans[c := s'.chans[c]] && s'.subs == Registered(s, s'.chans[c].topic, c)
    ensures MapOk(s')
  {
  }

  lemma UnregisterKeepsMap(s: State, s': State, c: nat)
    requires MapOk(s) && c in s.chans && OnMap(s.chans[c]) && c in s'.chans && !OnMap(s'.chans[c])
    requires s'.chans == s.chans[c := s'.chans[c]] && s'.subs == Unregistered(s, s.chans[c].topic, c)
    ensures MapOk(s')
  {
  }

  lemma StepMap(s: State, e: Event)
    requires Inv(s) && Enabled(s, e)
    ensures MapOk(Apply(s, e))
  {
    match e
    case Insert(c) => RegisterKeepsMap(s, Apply(s, e), c);
    case Remove(c) => UnregisterKeepsMap(s, Apply(s, e), c);
    case _ => SamePlacesKeepMap(s, Apply(s, e));
  }

  lemma StepPanic(s: State, e: Event)
    requires Inv(s) && Enabled(s, e)
    ensures !Apply(s, e).panicked
  {
    if e.Send? || e.Close? {
      assert ChanOk(s, e.c);
    }
  }

  lemma StepChan(s: State, e: Event, c: nat)
    requires Inv(s) && Enabled(s, e)
    ensures ChanOk(Apply(s, e), c)
  {
    assert ChanOk(s, c);
  }

  lemma StepPub(s: State, e: Event, p: nat)
    requires Inv(s) && Enabled(s, e)
    ensures PubOk(Apply(s, e), p)
  {
    assert PubOk(s, p);
  }

  lemma OfferedMeans(ch: Chan, p: nat, buffer: nat, q: nat)
    ensures var ch' := Offered(ch, p, buffer);
      q in Accepted(ch') || q in ch'.dropped <==> q == p || q in Accepted(ch) || q in ch.dropped
  {
    assert Accepted(ch.(queue := ch.queue + [p])) == Accepted(ch) + [p];
  }

  lemma TakenMeans(ch: Chan)
    requires ch.queue != []
    ensures Accepted(ch.(queue := ch.queue[1..], taken := ch.taken + [ch.queue[0]])) == Accepted(ch)
  {
  }

  /** The map changes only while no publisher is at work. */
  lemma MapStepPair(s: State, e: Event, p: nat)
    requires Inv(s) && Enabled(s, e) && (e.Insert? || e.Remove?)
    ensures PairOk(Apply(s, e), p, e.c)
  {
    assert PairOk(s, p, e.c) && ChanOk(s, e.c) && PubOk(s, p);
  }

  /** The other steps of a channel do not touch its stay on the map. */
  lemma ChanStepPair(s: State, e: Event, p: nat)
    requires Inv(s) && Enabled(s, e) && (e.Make? || e.Unsubscribe? || e.Close? || e.Take?)
    ensures PairOk(Apply(s, e), p, e.c)
  {
    assert PairOk(s, p, e.c);
  }

  lemma PubStepPair(s: State, e: Event, c: nat)
    requires Inv(s) && Enabled(s, e) && (e.Begin? || e.End?)
    ensures PairOk(Apply(s, e), e.p, c)
  {
    assert PairOk(s, e.p, c) && ChanOk(s, c) && PubOk(s, e.p);
  }

  lemma SendPair(s: State, e: Event, p: nat, c: nat)
    requires Inv(s) && Enabled(s, e) && e.Send?
    ensures PairOk(Apply(s, e), p, c)
  {
    assert PairOk(s, p, c) && ChanOk(s, c);
  }

  lemma StepPair(s: State, e: Event, p: nat, c: nat)
    requires Inv(s) && Enabled(s, e)
    ensures PairOk(Apply(s, e), p, c)
  {
    if (e.Insert? || e.Remove?) && e.c == c {
      MapStepPair(s, e, p);
    } else if (e.Make? || e.Unsubscribe? || e.Close? || e.Take?) && e.c == c {
      ChanStepPair(s, e, p);
    } else if (e.Begin? || e.End?) && e.p == p {
      PubStepPair(s, e, c);
    } else if e.Send? {
      SendPair(s, e, p, c);
    } else {
      assert PairOk(s, p, c);
    }
  }

  lemma StepOffer(s: State, e: Event, p: nat, c: nat)
    requires Inv(s) && Enabled(s, e)
    ensures OfferOk(Apply(s, e), p, c)
  {
    assert OfferOk(s, p, c) && HistoryOk(s, c);
    if e.Take? && e.c == c {
      TakenMeans(s.chans[c]);
    } else if e.Send? && e.c == c {
      OfferedMeans(s.chans[c], e.p, s.buffer, p);
    }
  }

  lemma StepVisited(s: State, e: Event, p: nat, c: nat)
    requires Inv(s) && Enabled(s, e)
    ensures p in Apply(s, e).pubs && c in Apply(s, e).pubs[p].visited ==> c in Apply(s, e).chans
  {
  }

  lemma StepHistory(s: State, e: Event, c: nat)
    requires Inv(s) && Enabled(s, e)
    ensures HistoryOk(Apply(s, e), c)
  {
    assert HistoryOk(s, c);
    if e.Take? && e.c == c {
      TakenHistory(s, e);
    } else if e.Send? && e.c == c {
      StepSent(s, e);
    } else if e.End? && c in s.chans {
      StepOrder(s, e, c);
    } else if c in s.chans {
      OtherHistory(s, e, c);
    }
  }

  lemma TakenHistory(s: State, e: Event)
    requires Inv(s) && Enabled(s, e) && e.Take?
    ensures HistoryOk(Apply(s, e), e.c)
  {
    assert HistoryOk(s, e.c);
    TakenMeans(s.chans[e.c]);
  }

  lemma OtherHistory(s: State, e: Event, c: nat)
    requires c in s.chans && HistoryOk(s, c) && Enabled(s, e) && !e.End? && (e.Take? || e.Send? ==> e.c != c)
    ensures HistoryOk(Apply(s, e), c)
  {
    assert Accepted(Apply(s, e).chans[c]) == Accepted(s.chans[c]);
  }

  lemma StepSent(s: State, e: Event)
    requires Inv(s) && Enabled(s, e) && e.Send?
    ensures HistoryOk(Apply(s, e), e.c)
  {
    var c, ch := e.c, s.chans[e.c];
    assert HistoryOk(s, c) && OfferOk(s, e.p, c);
    assert Accepted(ch.(queue := ch.queue + [e.p])) == Accepted(ch) + [e.p];
  }

  lemma StepOrder(s: State, e: Event, c: nat)
    requires Inv(s) && Enabled(s, e) && e.End? && c in s.chans
    ensures InOrder(Accepted(s.chans[c]), Apply(s, e).pubs)
  {
    assert HistoryOk(s, c);
    var sent := Accepted(s.chans[c]);
    forall i, j | 0 <= i < j < |sent| && sent[i] in s.pubs && sent[j] in s.pubs
      ensures !Before(Apply(s, e).pubs[sent[j]], Apply(s, e).pubs[sent[i]])
    {
      assert PubOk(s, sent[i]);
    }
  }

  lemma {:induction false} RunInv(size: int, evs: seq<Event>)
    requires Possible(size, evs)
    ensures Inv(Run(size, evs))
    ensures Run(size, evs).buffer == BufferFor(size) && Run(size, evs).clock == |evs|
  {
    if evs != [] {
      var s, e := Run(size, Front(evs)), evs[|evs| - 1];
      RunInv(size, Front(evs));
      StepMap(s, e);
      StepPanic(s, e);
      forall c ensures ChanOk(Apply(s, e), c) { StepChan(s, e, c); }
      forall p ensures PubOk(Apply(s, e), p) { StepPub(s, e, p); }
      forall p, c ensures PairOk(Apply(s, e), p, c) { StepPair(s, e, p, c); }
      forall p, c ensures OfferOk(Apply(s, e), p, c) { StepOffer(s, e, p, c); }
      forall c ensures HistoryOk(Apply(s, e), c) { StepHistory(s, e, c); }
      forall p, c | p in Apply(s, e).pubs && c in Apply(s, e).pubs[p].visited
        ensures c in Apply(s, e).chans
      {
        StepVisited(s, e, p, c);
      }
    }
  }

  // ----- Main results -----

  /** No send on a closed channel, no channel closed twice, no topic kept for nobody, no
      queue longer than the buffer; and the map holds exactly the registered channels. */
  lemma ChannelsAreSafe(size: int, evs: seq<Event>)
    requires Possible(size, evs)
    ensures var s := Run(size, evs);
      && !s.panicked
      && (forall topic :: topic in s.subs ==> s.subs[topic] != {})
      && (forall topic, c :: c in SubsOf(s, topic) <==> c in s.chans && OnMap(s.chans[c]) && s.chans[c].topic == topic)
      && (forall c :: c in s.chans ==> |s.chans[c].queue| <= BufferFor(size))
  {
    RunInv(size, evs);
    var s := Run(size, evs);
    forall c | c in s.chans
      ensures |s.chans[c].queue| <= BufferFor(size)
    {
      assert ChanOk(s, c);
    }
  }

  /** A finished publish reached exactly the subscribers of its topic that were registered when
      it began: each was offered the value exactly once, and got it or had a full buffer. */
  lemma EachSubscriberIsOfferedOnce(size: int, evs: seq<Event>, p: nat, c: nat)
    requires Possible(size, evs) && p in Run(size, evs).pubs && c in Run(size, evs).chans
    requires Run(size, evs).pubs[p].upto.Some?
    ensures var s := Run(size, evs);
      && (p in Accepted(s.chans[c]) || p in s.chans[c].dropped <==> Within(s.pubs[p], s.chans[c]))
      && !(p in Accepted(s.chans[c]) && p in s.chans[c].dropped)
      && NoDup(Accepted(s.chans[c])) && NoDup(s.chans[c].dropped)
  {
    RunInv(size, evs);
    var s := Run(size, evs);
    assert PairOk(s, p, c) && OfferOk(s, p, c) && HistoryOk(s, c);
  }

  /** What a reader takes comes in an order that real time allows: a publish that ended before
      another began is never taken after it. */
  lemma ReadersSeePublishOrder(size: int, evs: seq<Event>, c: nat, i: nat, j: nat)
    requires Possible(size, evs) && c in Run(size, evs).chans
    requires i < |Run(size, evs).chans[c].taken| && j < |Run(size, evs).chans[c].taken|
    ensures var s := Run(size, evs);
      var p, q := s.chans[c].taken[i], s.chans[c].taken[j];
      p in s.pubs && q in s.pubs && (Before(s.pubs[p], s.pubs[q]) ==> i < j)
  {
    hide Apply;
    hide Enabled;
    RunInv(size, evs);
    var s := Run(size, evs);
    var ch := s.chans[c];
    assert HistoryOk(s, c);
    assert Accepted(ch)[i] == ch.taken[i] && Accepted(ch)[j] == ch.taken[j];
    assert PubOk(s, ch.taken[i]);
  }

  /** A value is dropped exactly if the subscriber's buffer is full at that moment, and it is the
      value that came last that goes; any other joins the end of the queue, and readers take
      from its front. */
  lemma DroppedExactlyWhenFull(size: int, evs: seq<Event>, p: nat, c: nat)
    requires Possible(size, evs) && Enabled(Run(size, evs), Send(p, c))
    ensures var ch, ch' := Run(size, evs).chans[c], Apply(Run(size, evs), Send(p, c)).chans[c];
      if |ch.queue| < if size > 0 then size else 16
      then ch' == ch.(queue := ch.queue + [p])
      else ch' == ch.(dropped := ch.dropped + [p])
    ensures var s := Apply(Run(size, evs), Send(p, c));
      s.chans[c].queue != [] ==>
        var ch' := Apply(s, Take(c)).chans[c];
        ch'.taken == s.chans[c].taken + [s.chans[c].queue[0]] && ch'.queue == s.chans[c].queue[1..]
  {
    RunInv(size, evs);
  }

  /** Nobody who is offered no more values than the size the bus was built with, or sixteen if
      that is not positive, loses one, read or not. */
  lemma BurstsFit(size: int, evs: seq<Event>, c: nat)
    requires Possible(size, evs) && c in Run(size, evs).chans
    requires |Accepted(Run(size, evs).chans[c])| + |Run(size, evs).chans[c].dropped| <= if size > 0 then size else 16
    ensures Run(size, evs).chans[c].dropped == []
  {
    RunInv(size, evs);
    assert ChanOk(Run(size, evs), c);
  }

  /** Two readers that took two values in opposite orders took them from overlapping publishes. */
  lemma DisagreementMeansOverlap(size: int, evs: seq<Event>, c: nat, d: nat, i: nat, j: nat, k: nat, l: nat)
    requires Possible(size, evs) && c in Run(size, evs).chans && d in Run(size, evs).chans
    requires i < j < |Run(size, evs).chans[c].taken| && k < l < |Run(size, evs).chans[d].taken|
    requires Run(size, evs).chans[c].taken[i] == Run(size, evs).chans[d].taken[l]
    requires Run(size, evs).chans[c].taken[j] == Run(size, evs).chans[d].taken[k]
    ensures var s := Run(size, evs);
      var p, q := s.chans[c].taken[i], s.chans[c].taken[j];
      p in s.pubs && q in s.pubs && !Before(s.pubs[p], s.pubs[q]) && !Before(s.pubs[q], s.pubs[p])
  {
    ReadersSeePublishOrder(size, evs, c, j, i);
    ReadersSeePublishOrder(size, evs, d, l, k);
  }

  // ----- Everything comes to its end -----

  /** What the events say of a channel. */
  ghost predicate Told(evs: seq<Event>, s: State, c: nat) {
    && (Unsubscribe(c) in evs <==> c in s.chans && (s.chans[c].stage in {Leaving, Removed, Closed}))
    && (Remove(c) in evs <==> c in s.chans && s.chans[c].stage in {Removed, Closed})
    && (Close(c) in evs <==> c in s.chans && s.chans[c].stage == Closed)
  }

  lemma StepTold(evs: seq<Event>, s: State, e: Event, c: nat)
    requires Told(evs, s, c) && Enabled(s, e)
    ensures Told(evs + [e], Apply(s, e), c)
  {
    assert forall x :: x in evs + [e] <==> x in evs || x == e;
  }

  lemma {:induction false} RunTold(size: int, evs: seq<Event>, c: nat)
    requires Possible(size, evs)
    ensures Told(evs, Run(size, evs), c)
  {
    hide Apply;
    hide Enabled;
    if evs != [] {
      RunTold(size, Front(evs), c);
      StepTold(Front(evs), Run(size, Front(evs)), evs[|evs| - 1], c);
      assert evs == Front(evs) + [evs[|evs| - 1]];
    }
  }

  /** Unsubscribing ends a subscription: from then on its removal can follow as soon as no
      publisher is at work, and then its close; and nothing else ever closes a channel. */
  lemma UnsubscribeCloses(size: int, evs: seq<Event>, c: nat)
    requires Possible(size, evs)
    ensures var s := Run(size, evs);
      && (Unsubscribe(c) in evs ==>
            || (Remove(c) !in evs && (ReadLocked(s) || Enabled(s, Remove(c))))
            || (Remove(c) in evs && Close(c) !in evs && Enabled(s, Close(c)))
            || (Close(c) in evs && c in s.chans && s.chans[c].closed))
      && (c in s.chans && s.chans[c].closed ==> Unsubscribe(c) in evs && Remove(c) in evs && Close(c) in evs)
  {
    RunTold(size, evs, c);
    RunInv(size, evs);
    assert ChanOk(Run(size, evs), c);
  }

  /** A publish under way is never held up: it can offer the value to one more subscriber, or
      end. */
  lemma PublishGoesOn(size: int, evs: seq<Event>, p: nat)
    requires Possible(size, evs) && p in Run(size, evs).pubs && Run(size, evs).pubs[p].upto.None?
    ensures Enabled(Run(size, evs), End(p)) || exists c :: Enabled(Run(size, evs), Send(p, c))
  {
    RunInv(size, evs);
    var s := Run(size, evs);
    if !(SubsOf(s, s.pubs[p].topic) <= s.pubs[p].visited) {
      var c :| c in SubsOf(s, s.pubs[p].topic) && c !in s.pubs[p].visited;
      assert Enabled(s, Send(p, c));
    }
  }

  // ----- Overlapping publishes have no common order -----

  lemma RunSnoc(size: int, evs: seq<Event>, e: Event)
    requires Possible(size, evs) && Enabled(Run(size, evs), e)
    ensures Possible(size, evs + [e]) && Run(size, evs + [e]) == Apply(Run(size, evs), e)
  {
    assert Front(evs + [e]) == evs;
  }

  /** Two registered subscribers with room, and two publishers at work that have visited neither. */
  ghost predicate Poised(s: State, c: nat, d: nat, p: nat, q: nat) {
    && c != d && p != q && c in s.chans && d in s.chans && p in s.pubs && q in s.pubs
    && s.pubs[p].upto.None? && s.pubs[q].upto.None? && s.pubs[p].topic == s.pubs[q].topic
    && {c, d} <= SubsOf(s, s.pubs[p].topic)
    && c !in s.pubs[p].visited + s.pubs[q].visited && d !in s.pubs[p].visited + s.pubs[q].visited
    && |s.chans[c].queue| + 2 <= s.buffer && |s.chans[d].queue| + 2 <= s.buffer
  }

  function Crossing(c: nat, d: nat, p: nat, q: nat): seq<Event> {
    [Send(p, c)] + [Send(q, c)] + [Send(q, d)] + [Send(p, d)]
  }

  lemma SendHop(size: int, evs: seq<Event>, p: nat, c: nat)
    requires Possible(size, evs) && Enabled(Run(size, evs), Send(p, c))
    requires |Run(size, evs).chans[c].queue| < Run(size, evs).buffer
    ensures Possible(size, evs + [Send(p, c)])
    ensures var s, s' := Run(size, evs), Run(size, evs + [Send(p, c)]);
      && s'.chans == s.chans[c := s.chans[c].(queue := s.chans[c].queue + [p])]
      && s'.pubs == s.pubs[p := s.pubs[p].(visited := s.pubs[p].visited + {c})]
      && s'.subs == s.subs && s'.buffer == s.buffer
  {
    RunSnoc(size, evs, Send(p, c));
  }

  ghost predicate CanSend(s: State, p: nat, c: nat) {
    Enabled(s, Send(p, c))
  }

  lemma TwoSends(size: int, evs: seq<Event>, p: nat, q: nat, c: nat)
    requires Possible(size, evs) && p != q
    requires CanSend(Run(size, evs), p, c) && CanSend(Run(size, evs), q, c)
    requires |Run(size, evs).chans[c].queue| + 2 <= Run(size, evs).buffer
    ensures Possible(size, evs + [Send(p, c)] + [Send(q, c)])
    ensures var s, s' := Run(size, evs), Run(size, evs + [Send(p, c)] + [Send(q, c)]);
      && s'.chans == s.chans[c := s.chans[c].(queue := s.chans[c].queue + [p, q])]
      && s'.pubs == s.pubs[p := s.pubs[p].(visited := s.pubs[p].visited + {c})]
                          [q := s.pubs[q].(visited := s.pubs[q].visited + {c})]
      && s'.subs == s.subs && s'.buffer == s.buffer
  {
    SendHop(size, evs, p, c);
    SendHop(size, evs + [Send(p, c)], q, c);
    assert Run(size, evs).chans[c].queue + [p] + [q] == Run(size, evs).chans[c].queue + [p, q];
  }

  /** There is no order that all subscribers see: two publishers at work at once may reach two
      subscribers in opposite orders. */
  lemma OverlappingPublishesMayCross(size: int, evs: seq<Event>, c: nat, d: nat, p: nat, q: nat)
    requires Possible(size, evs) && Poised(Run(size, evs), c, d, p, q)
    ensures var evs' := evs + Crossing(c, d, p, q);
      && Possible(size, evs')
      && c in Run(size, evs').chans && d in Run(size, evs').chans
      && Run(size, evs').chans[c].queue == Run(size, evs).chans[c].queue + [p, q]
      && Run(size, evs').chans[d].queue == Run(size, evs).chans[d].queue + [q, p]
  {
    TwoSends(size, evs, p, q, c);
    var half := evs + [Send(p, c)] + [Send(q, c)];
    TwoSends(size, half, q, p, d);
    assert half + [Send(q, d)] + [Send(p, d)] == evs + Crossing(c, d, p, q);
  }

  /** Such a moment is reached in every bus with room for two. */
  lemma PoisedIsReachable(size: int, topic: string) returns (evs: seq<Event>)
    requires BufferFor(size) >= 2
    ensures Possible(size, evs) && Poised(Run(size, evs), 0, 1, 0, 1)
  {
    evs := [];
    RunSnoc(size, evs, Make(0, topic));
    evs := evs + [Make(0, topic)];
    RunSnoc(size, evs, Make(1, topic));
    evs := evs + [Make(1, topic)];
    RunSnoc(size, evs, Insert(0));
    evs := evs + [Insert(0)];
    RunSnoc(size, evs, Insert(1));
    evs := evs + [Insert(1)];
    RunSnoc(size, evs, Begin(0, topic));
    evs := evs + [Begin(0, topic)];
    RunSnoc(size, evs, Begin(1, topic));
    evs := evs + [Begin(1, topic)];
  }

  // ----- The bus itself, one call at a time -----

  /** The channels in `done` have been offered `v` since, the others are as they were. */
  ghost predicate Offering(was: map<nat, Chan>, now: map<nat, Chan>, done: set<nat>, v: nat, buffer: nat) {
    && now.Keys == was.Keys
    && forall c {:trigger now[c]} :: c in now ==> now[c] == if c in done then Offered(was[c], v, buffer) else was[c]
  }

  lemma OfferOne(was: map<nat, Chan>, now: map<nat, Chan>, done: set<nat>, c: nat, v: nat, buffer: nat)
    requires Offering(was, now, done, v, buffer) && c in now && c !in done
    ensures Offering(was, now[c := Offered(now[c], v, buffer)], done + {c}, v, buffer)
  {
  }

  class Bus {
    const buffer: nat
    var subs: map<string, set<nat>>
    var chans: map<nat, Chan>
    var next: nat

    function View(): State
      reads this
    {
      State(buffer, 0, subs, chans, map[], false)
    }

    ghost predicate Valid()
      reads this
    {
      && MapOk(View())
      && (forall c :: c in chans ==> c < next && |chans[c].queue| <= buffer && (chans[c].closed <==> !OnMap(chans[c])))
    }

    constructor (size: int)
      ensures Valid() && View() == Init(size)
    {
      buffer := BufferFor(size);
      subs, chans, next := map[], map[], 0;
    }

    /** Each subscriber of the topic is offered the value; nobody else notices. */
    method Publish(topic: string, v: nat)
      requires Valid()
      modifies this`chans
      ensures Valid()
      ensures chans.Keys == old(chans.Keys)
      ensures forall c :: c in chans ==>
        chans[c] == if c in SubsOf(View(), topic) then Offered(old(chans)[c], v, buffer) else old(chans)[c]
    {
      var todo := if topic in subs then subs[topic] else {};
      ghost var all := todo;
      while todo != {}
        invariant todo <= all == SubsOf(View(), topic)
        invariant Offering(old(chans), chans, all - todo, v, buffer)
        decreases todo
      {
        var c :| c in todo;
        var ch := chans[c];
        OfferOne(old(chans), chans, all - todo, c, v, buffer);
        assert all - todo + {c} == all - (todo - {c});
        if |ch.queue| < buffer {
          chans := chans[c := ch.(queue := ch.queue + [v])];
        } else {
          chans := chans[c := ch.(dropped := ch.dropped + [v])];
        }
        todo := todo - {c};
      }
      SamePlacesKeepMap(old(View()), View());
    }

    method Subscribe(topic: string) returns (c: nat)
      requires Valid()
      modifies this
      ensures Valid()
      ensures c !in old(chans)
      ensures chans == old(chans)[c := Chan(topic, Live, false, [], [], [], 0, None)]
      ensures subs == Registered(old(View()), topic, c)
    {
      c := next;
      next := next + 1;
      chans := chans[c := Chan(topic, Live, false, [], [], [], 0, None)];
      var others := if topic in subs then subs[topic] else {};
      subs := subs[topic := others + {c}];
      RegisterKeepsMap(old(View()), View(), c);
    }

    /** The second call of the returned function finds the channel gone and does nothing. */
    method Unsubscribe(c: nat)
      requires Valid() && c in chans
      modifies this`subs, this`chans
      ensures Valid()
      ensures if old(chans)[c].closed then View() == old(View())
              else
                && chans == old(chans)[c := old(chans)[c].(stage := Closed, closed := true)]
                && subs == Unregistered(old(View()), old(chans)[c].topic, c)
    {
      if chans[c].closed {
        return;
      }
      var topic := chans[c].topic;
      subs := subs[topic := subs[topic] - {c}];
      if |subs[topic]| == 0 {
        subs := subs - {topic};
      }
      chans := chans[c := chans[c].(stage := Closed, closed := true)];
      UnregisterKeepsMap(old(View()), View(), c);
    }

    method Subscribers(topic: string) returns (n: nat)
      requires Valid()
      ensures n == |set c | c in chans && OnMap(chans[c]) && chans[c].topic == topic|
    {
      n := if topic in subs then |subs[topic]| else 0;
      assert SubsOf(View(), topic) == set c | c in chans && OnMap(chans[c]) && chans[c].topic == topic;
    }

    method Topics() returns (n: nat)
      requires Valid()
      ensures n == |set c | c in chans && OnMap(chans[c]) :: chans[c].topic|
    {
      n := |subs|;
      forall topic | topic in subs
        ensures exists c :: c in chans && OnMap(chans[c]) && chans[c].topic == topic
      {
        var c :| c in subs[topic];
        assert c in View().chans && View().chans[c].topic == topic;
      }
      assert subs.Keys == set c | c in chans && OnMap(chans[c]) :: chans[c].topic;
    }
  }
}
