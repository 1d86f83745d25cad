/** The agent's event and datagram queues and their binary wake tokens.  A token is a lock that a
    producer releases outside the agent lock and a consumer acquires to sleep; its flag, changed
    only under the agent lock, says that a release was promised. */
module WakeTokens {
  import opened Counting
  import opened Datagrams
  import opened Sequences

  datatype Event = StateEvent(state: int) | CandidateEvent(text: string) | GatheringDoneEvent

  /** What the agent lock protects, and the two token locks. */
  datatype Shared = Shared(
    events: seq<Event>, receives: seq<Datagram>,
    eventSignaled: bool, receiveSignaled: bool,
    eventAvailable: bool, receiveAvailable: bool)

  // The critical sections.  Each returns the new shared state and which tokens to release after
  // the agent lock is dropped.

  datatype Section = Section(shared: Shared, signalReceive: bool, signalEvent: bool)

  function QueueEvent(s: Shared, event: Event): Section {
    Section(s.(events := s.events + [event], eventSignaled := true), false, !s.eventSignaled)
  }

  function QueueReceive(s: Shared, datagram: Datagram): Section {
    Section(s.(receives := s.receives + [datagram], receiveSignaled := true, eventSignaled := true),
            !s.receiveSignaled, !s.eventSignaled)
  }

  /** popReceiveLocked on a non-empty queue. */
  function PopReceive(s: Shared): Section
    requires s.receives != []
  {
    var rest := s.receives[1..];
    var taken := s.receiveSignaled && s.receiveAvailable;
    var flag := s.receiveSignaled && !taken;
    Section(s.(receives := rest,
               receiveAvailable := s.receiveAvailable && !taken,
               receiveSignaled := flag || rest != []),
            rest != [] && !flag, false)
  }

  function EventCount(s: Shared, maxEvents: nat): nat {
    if |s.events| <= maxEvents then |s.events| else maxEvents
  }

  function ReceiveCount(s: Shared, maxEvents: nat): nat {
    var room := maxEvents - EventCount(s, maxEvents);
    if |s.receives| <= room then |s.receives| else room
  }

  /** drainEvents: up to `maxEvents` entries, events before datagrams; tokens are consumed first and
      promised again for whatever is left. */
  function Drain(s: Shared, maxEvents: nat): Section {
    var eventTaken := s.eventSignaled && s.eventAvailable;
    var eventFlag := s.eventSignaled && !eventTaken;
    var events := s.events[EventCount(s, maxEvents)..];
    var receives := s.receives[ReceiveCount(s, maxEvents)..];
    var receiveTaken := ReceiveCount(s, maxEvents) > 0 && s.receiveSignaled && s.receiveAvailable;
    var receiveFlag := s.receiveSignaled && !receiveTaken;
    Section(
      Shared(events, receives,
             eventFlag || events != [] || receives != [],
             receiveFlag || receives != [],
             s.eventAvailable && !eventTaken,
             s.receiveAvailable && !receiveTaken),
      receives != [] && !receiveFlag,
      (events != [] || receives != []) && !eventFlag)
  }

  lemma DrainCounts(s: Shared, maxEvents: nat, first: nat, firstReceives: nat)
    requires first == (if |s.events| <= maxEvents then |s.events| else maxEvents)
    requires firstReceives
          == (if |s.receives| <= maxEvents - first then |s.receives| else maxEvents - first)
    ensures first == EventCount(s, maxEvents) && firstReceives == ReceiveCount(s, maxEvents)
  {
  }

  /** Drain, field by field. */
  lemma DrainIs(s: Shared, maxEvents: nat, r: Section)
    requires r.shared.events == s.events[EventCount(s, maxEvents)..]
    requires r.shared.receives == s.receives[ReceiveCount(s, maxEvents)..]
    requires r.shared.eventAvailable == (s.eventAvailable && !s.eventSignaled)
    requires var left := s.eventSignaled && !s.eventAvailable;
             var more := r.shared.events != [] || r.shared.receives != [];
             r.shared.eventSignaled == (left || more) && r.signalEvent == (more && !left)
    requires var taken := ReceiveCount(s, maxEvents) > 0;
             var left := s.receiveSignaled && !(taken && s.receiveAvailable);
             var more := r.shared.receives != [];
             && r.shared.receiveAvailable == (s.receiveAvailable && !(taken && s.receiveSignaled))
             && r.shared.receiveSignaled == (left || more) && r.signalReceive == (more && !left)
    ensures r == Drain(s, maxEvents)
  {
  }

  /** A drain leaves something behind only when it is full, and datagrams only wait behind events. */
  lemma DrainTakesAll(s: Shared, maxEvents: nat)
    ensures EventCount(s, maxEvents) + ReceiveCount(s, maxEvents) <= maxEvents
    ensures EventCount(s, maxEvents) + ReceiveCount(s, maxEvents) < maxEvents ==>
      Drain(s, maxEvents).shared.events == [] && Drain(s, maxEvents).shared.receives == []
    ensures Drain(s, maxEvents).shared.events != [] ==> Drain(s, maxEvents).shared.receives == s.receives
  {
  }

  /** The same sections as the code runs them: queues, flags and loops. */
  class Agent {
    var events: seq<Event>
    var receives: seq<Datagram>
    var eventSignaled: bool
    var receiveSignaled: bool
    var eventAvailable: bool
    var receiveAvailable: bool

    constructor ()
      ensures State() == Shared([], [], false, false, false, false)
    {
      events, receives := [], [];
      eventSignaled, receiveSignaled, eventAvailable, receiveAvailable := false, false, false, false;
    }

    ghost function State(): Shared
      reads this
    {
      Shared(events, receives, eventSignaled, receiveSignaled, eventAvailable, receiveAvailable)
    }

    /** PyThread_acquire_lock(..., NOWAIT_LOCK) on the two tokens. */
    method TryAcquireEvent() returns (acquired: bool)
      modifies this`eventAvailable
      ensures acquired == old(eventAvailable) && !eventAvailable
    {
      acquired := eventAvailable;
      eventAvailable := false;
    }

    method TryAcquireReceive() returns (acquired: bool)
      modifies this`receiveAvailable
      ensures acquired == old(receiveAvailable) && !receiveAvailable
    {
      acquired := receiveAvailable;
      receiveAvailable := false;
    }

    method QueueEventLocked(event: Event) returns (signal: bool)
      modifies this
      ensures State() == QueueEvent(old(State()), event).shared
      ensures signal == QueueEvent(old(State()), event).signalEvent
    {
      signal := false;
      events := events + [event];
      if !eventSignaled {
        eventSignaled := true;
        signal := true;
      }
    }

    method QueueReceiveLocked(datagram: Datagram) returns (signalReceive: bool, signalEvent: bool)
      modifies this
      ensures Section(State(), signalReceive, signalEvent) == QueueReceive(old(State()), datagram)
    {
      signalReceive, signalEvent := false, false;
      receives := receives + [datagram];
      if !receiveSignaled {
        receiveSignaled := true;
        signalReceive := true;
      }
      if !eventSignaled {
        eventSignaled := true;
        signalEvent := true;
      }
    }

    method PopReceiveLocked() returns (found: bool, datagram: Datagram, signalAgain: bool)
      modifies this
      ensures found <==> old(receives) != []
      ensures !found ==> State() == old(State()) && !signalAgain
      ensures found ==> datagram == old(receives)[0]
      ensures found ==> Section(State(), signalAgain, false) == PopReceive(old(State()))
    {
      found, datagram, signalAgain := false, [], false;
      if receives == [] {
        return;
      }
      found, datagram := true, receives[0];
      receives := receives[1..];
      if receiveSignaled {
        var acquired := TryAcquireReceive();
        if acquired {
          receiveSignaled := false;
        }
      }
      if receives != [] && !receiveSignaled {
        receiveSignaled := true;
        signalAgain := true;
      }
    }

    method TakeEvents(maxEvents: nat) returns (first: seq<Event>)
      modifies this`events
      ensures |first| == (if |old(events)| <= maxEvents then |old(events)| else maxEvents)
      ensures first == old(events)[..|first|] && events == old(events)[|first|..]
    {
      first := [];
      while events != [] && |first| < maxEvents
        invariant |first| <= maxEvents && |first| <= |old(events)|
        invariant first == old(events)[..|first|] && events == old(events)[|first|..]
        decreases |events|
      {
        first := first + [events[0]];
        events := events[1..];
      }
    }

    method TakeReceives(room: nat) returns (first: seq<Datagram>)
      modifies this`receives
      ensures |first| == (if |old(receives)| <= room then |old(receives)| else room)
      ensures first == old(receives)[..|first|] && receives == old(receives)[|first|..]
    {
      first := [];
      while receives != [] && |first| < room
        invariant |first| <= room && |first| <= |old(receives)|
        invariant first == old(receives)[..|first|] && receives == old(receives)[|first|..]
        decreases |receives|
      {
        first := first + [receives[0]];
        receives := receives[1..];
      }
    }

    method DrainLocked(maxEvents: nat)
      returns (first: seq<Event>, firstReceives: seq<Datagram>, signalReceive: bool, signalEvent: bool)
      modifies this
      ensures Section(State(), signalReceive, signalEvent) == Drain(old(State()), maxEvents)
      ensures old(events) == first + events && old(receives) == firstReceives + receives
      ensures |first| + |firstReceives| <= maxEvents
      // As many as possible, and events before datagrams.
      ensures |first| + |firstReceives| < maxEvents ==> events == [] && receives == []
      ensures events != [] ==> firstReceives == []
    {
      hide Drain; hide EventCount; hide ReceiveCount;
      ghost var before := State();
      TakeEventToken();
      first := TakeEvents(maxEvents);
      firstReceives := TakeReceives(maxEvents - |first|);
      DrainCounts(before, maxEvents, |first|, |firstReceives|);
      signalReceive, signalEvent := Rearm(firstReceives != []);
      DrainIs(before, maxEvents, Section(State(), signalReceive, signalEvent));
    }

    method TakeEventToken()
      modifies this`eventSignaled, this`eventAvailable
      ensures eventSignaled == (old(eventSignaled) && !old(eventAvailable))
      ensures eventAvailable == (old(eventAvailable) && !old(eventSignaled))
    {
      if eventSignaled {
        var acquired := TryAcquireEvent();
        if acquired {
          eventSignaled := false;
        }
      }
    }

    /** The end of the section: consume the datagram token if a datagram was taken, then promise
        tokens for what is left. */
    method Rearm(receiveTaken: bool) returns (signalReceive: bool, signalEvent: bool)
      modifies this`eventSignaled, this`receiveSignaled, this`receiveAvailable
      ensures receiveAvailable == (old(receiveAvailable) && !(receiveTaken && old(receiveSignaled)))
      ensures signalReceive == (receives != []
              && !(old(receiveSignaled) && !(receiveTaken && old(receiveAvailable))))
      ensures receiveSignaled == ((old(receiveSignaled) && !(receiveTaken && old(receiveAvailable))) || receives != [])
      ensures signalEvent == ((events != [] || receives != []) && !old(eventSignaled))
      ensures eventSignaled == (old(eventSignaled) || events != [] || receives != [])
    {
      signalReceive, signalEvent := false, false;
      if receiveTaken && receiveSignaled {
        var acquired := TryAcquireReceive();
        if acquired {
          receiveSignaled := false;
        }
      }
      if receives != [] && !receiveSignaled {
        receiveSignaled := true;
        signalReceive := true;
      }
      if (events != [] || receives != []) && !eventSignaled {
        eventSignaled := true;
        signalEvent := true;
      }
    }
  }

  // ---------------------------------------------------------------------------------------------
  // The threads.  A step is one section under the agent lock, one release, one successful acquire,
  // or one timeout.

  datatype Pc =
    | Idle
    | ReleaseEvent
    | ReleaseReceive(thenEvent: bool)
    | WaitEvent(maxEvents: nat)      // in the timed acquire of the event token
    | ClearEvent(maxEvents: nat)     // token acquired, flag still set
    | Draining(maxEvents: nat)       // about to enter drainEvents
    | WaitReceive
    | ClearReceive

  datatype State = State(shared: Shared, threads: seq<Pc>,
                         queuedEvents: seq<Event>, drainedEvents: seq<Event>,
                         queuedReceives: seq<Datagram>, drainedReceives: seq<Datagram>,
                         releasedTwice: bool)

  datatype Step =
    | Produce(i: nat, event: Event)
    | ProduceReceive(i: nat, datagram: Datagram)
    | Release(i: nat)
    | PollReceive(i: nat, wait: bool)
    | Poll(i: nat, maxEvents: nat)
    | Wait(i: nat, maxEvents: nat)
    | Acquire(i: nat)
    | Timeout(i: nat)
    | Clear(i: nat)
    | DrainNow(i: nat)

  predicate Init(s: State) {
    && s.shared == Shared([], [], false, false, false, false)
    && (forall i :: 0 <= i < |s.threads| ==> s.threads[i] == Idle)
    && s.queuedEvents == s.drainedEvents == [] && s.queuedReceives == s.drainedReceives == []
    && !s.releasedTwice
  }

  predicate Enabled(s: State, step: Step) {
    && step.i < |s.threads|
    && var pc := s.threads[step.i];
       match step
       case Produce(_, _) => pc.Idle?
       case ProduceReceive(_, _) => pc.Idle?
       case Release(_) => pc.ReleaseEvent? || pc.ReleaseReceive?
       case PollReceive(_, _) => pc.Idle?
       case Poll(_, _) => pc.Idle?
       case Wait(_, _) => pc.Idle?
       case Acquire(_) => (pc.WaitEvent? && s.shared.eventAvailable) || (pc.WaitReceive? && s.shared.receiveAvailable)
       case Timeout(_) => pc.WaitEvent? || pc.WaitReceive?
       case Clear(_) => pc.ClearEvent? || pc.ClearReceive?
       case DrainNow(_) => pc.Draining?
  }

  /** After a section: the releases it promised, receive token first. */
  function Promised(section: Section): Pc {
    if section.signalReceive then ReleaseReceive(section.signalEvent)
    else if section.signalEvent then ReleaseEvent
    else Idle
  }

  function Finish(s: State, i: nat, section: Section): State
    requires i < |s.threads|
  {
    s.(shared := section.shared, threads := s.threads[i := Promised(section)])
  }

  /** popReceiveLocked by thread i, after the flag was cleared if the thread holds the token. */
  function Pop(s: State, i: nat, shared: Shared, otherwise: Pc): State
    requires i < |s.threads|
  {
    if shared.receives == [] then s.(shared := shared, threads := s.threads[i := otherwise])
    else Finish(s, i, PopReceive(shared)).(drainedReceives := s.drainedReceives + [shared.receives[0]])
  }

  function Apply(s: State, step: Step): State
    requires Enabled(s, step)
  {
    var i, pc, shared := step.i, s.threads[step.i], s.shared;
    match step
    case Produce(_, event) =>
      Finish(s, i, QueueEvent(shared, event)).(queuedEvents := s.queuedEvents + [event])
    case ProduceReceive(_, datagram) =>
      Finish(s, i, QueueReceive(shared, datagram)).(queuedReceives := s.queuedReceives + [datagram])
    case Release(_) =>
      if pc.ReleaseEvent? then
        s.(shared := shared.(eventAvailable := true), threads := s.threads[i := Idle],
           releasedTwice := s.releasedTwice || shared.eventAvailable)
      else
        s.(shared := shared.(receiveAvailable := true),
           threads := s.threads[i := if pc.thenEvent then ReleaseEvent else Idle],
           releasedTwice := s.releasedTwice || shared.receiveAvailable)
    case PollReceive(_, wait) => Pop(s, i, shared, if wait then WaitReceive else Idle)
    case Poll(_, maxEvents) => s.(threads := s.threads[i := Draining(maxEvents)])
    case Wait(_, maxEvents) =>
      s.(threads := s.threads[i := if shared.events != [] || shared.receives != [] then Draining(maxEvents)
                                   else WaitEvent(maxEvents)])
    case Acquire(_) =>
      if pc.WaitEvent? then
        s.(shared := shared.(eventAvailable := false), threads := s.threads[i := ClearEvent(pc.maxEvents)])
      else
        s.(shared := shared.(receiveAvailable := false), threads := s.threads[i := ClearReceive])
    case Timeout(_) =>
      s.(threads := s.threads[i := if pc.WaitEvent? then Draining(pc.maxEvents) else Idle])
    case Clear(_) =>
      if pc.ClearEvent? then
        s.(shared := shared.(eventSignaled := false), threads := s.threads[i := Draining(pc.maxEvents)])
      else
        Pop(s, i, shared.(receiveSignaled := false), Idle)
    case DrainNow(_) =>
      Finish(s, i, Drain(shared, pc.maxEvents)).(
        drainedEvents := s.drainedEvents + shared.events[..EventCount(shared, pc.maxEvents)],
        drainedReceives := s.drainedReceives + shared.receives[..ReceiveCount(shared, pc.maxEvents)])
  }

  /** A promised release of the event token, or a token taken whose flag is not cleared yet. */
  function EventWeight(pc: Pc): nat {
    match pc
    case ReleaseEvent => 1
    case ReleaseReceive(thenEvent) => if thenEvent then 1 else 0
    case ClearEvent(_) => 1
    case _ => 0
  }

  function ReceiveWeight(pc: Pc): nat {
    match pc
    case ReleaseReceive(_) => 1
    case ClearReceive => 1
    case _ => 0
  }

  function DrainWeight(pc: Pc): nat {
    if pc.Draining? then 1 else 0
  }

  /** Each flag counts its token exactly: available, about to be released, or taken and about to be
      cleared. */
  ghost predicate Tokens(s: State) {
    EventTokens(s) && ReceiveTokens(s) && !s.releasedTwice
  }

  ghost predicate EventTokens(s: State) {
    Bit(s.shared.eventSignaled) == Bit(s.shared.eventAvailable) + Total(EventWeight, s.threads)
  }

  ghost predicate ReceiveTokens(s: State) {
    Bit(s.shared.receiveSignaled) == Bit(s.shared.receiveAvailable) + Total(ReceiveWeight, s.threads)
  }

  /** A producer promises to release a token exactly when there is none: neither available, nor
      promised by another thread, nor taken by a thread that has not cleared its flag yet. */
  lemma PromisesTheMissingToken(s: State, event: Event, datagram: Datagram)
    requires EventTokens(s) && ReceiveTokens(s)
    ensures var none := !s.shared.eventAvailable && Total(EventWeight, s.threads) == 0;
            (QueueEvent(s.shared, event).signalEvent <==> none) && (QueueReceive(s.shared, datagram).signalEvent <==> none)
    ensures QueueReceive(s.shared, datagram).signalReceive <==>
      !s.shared.receiveAvailable && Total(ReceiveWeight, s.threads) == 0
  {
  }

  /** Work in a queue has a flag or a committed consumer. */
  ghost predicate Backed(s: State) {
    && (s.shared.events != [] || s.shared.receives != [] ==>
          s.shared.eventSignaled || Total(DrainWeight, s.threads) > 0)
    && (s.shared.receives != [] ==> s.shared.receiveSignaled)
  }

  /** First in, first out, each entry exactly once. */
  predicate Queues(s: State) {
    && s.queuedEvents == s.drainedEvents + s.shared.events
    && s.queuedReceives == s.drainedReceives + s.shared.receives
  }

  lemma QueuesStep(s: State, step: Step)
    requires Queues(s) && Enabled(s, step)
    ensures Queues(Apply(s, step))
  {
    match step {
      case Produce(_, event) =>
        Regroup(s.drainedEvents, s.shared.events, [event]);
      case ProduceReceive(_, datagram) =>
        Regroup(s.drainedReceives, s.shared.receives, [datagram]);
      case DrainNow(i) =>
        Regroup(s.drainedEvents, s.shared.events[..EventCount(s.shared, s.threads[i].maxEvents)],
                s.shared.events[EventCount(s.shared, s.threads[i].maxEvents)..]);
        Regroup(s.drainedReceives, s.shared.receives[..ReceiveCount(s.shared, s.threads[i].maxEvents)],
                s.shared.receives[ReceiveCount(s.shared, s.threads[i].maxEvents)..]);
      case PollReceive(_, _) => PopFront(s.drainedReceives, s.shared.receives);
      case Clear(_) => PopFront(s.drainedReceives, s.shared.receives);
      case Release(_) =>
      case Poll(_, _) =>
      case Wait(_, _) =>
      case Acquire(_) =>
      case Timeout(_) =>
    }
  }

  lemma EventTokensStep(s: State, step: Step)
    requires EventTokens(s) && Enabled(s, step)
    ensures EventTokens(Apply(s, step))
    ensures s.threads[step.i].ReleaseEvent? ==> !s.shared.eventAvailable
  {
    hide Total; hide EventCount; hide ReceiveCount;
    var s' := Apply(s, step);
    var i, after := step.i, s'.threads[step.i];
    assert s'.threads == s.threads[i := after];
    TotalUpdate(EventWeight, s.threads, i, after);
  }

  lemma ReceiveTokensStep(s: State, step: Step)
    requires ReceiveTokens(s) && Enabled(s, step)
    ensures ReceiveTokens(Apply(s, step))
    ensures s.threads[step.i].ReleaseReceive? ==> !s.shared.receiveAvailable
  {
    hide Total; hide EventCount; hide ReceiveCount;
    var s' := Apply(s, step);
    var i, after := step.i, s'.threads[step.i];
    assert s'.threads == s.threads[i := after];
    TotalUpdate(ReceiveWeight, s.threads, i, after);
  }

  lemma TokensStep(s: State, step: Step)
    requires Tokens(s) && Enabled(s, step)
    ensures Tokens(Apply(s, step))
  {
    EventTokensStep(s, step);
    ReceiveTokensStep(s, step);
  }

  lemma BackedStep(s: State, step: Step)
    requires Backed(s) && Enabled(s, step)
    ensures Backed(Apply(s, step))
  {
    hide Total;
    var s' := Apply(s, step);
    var i, after := step.i, s'.threads[step.i];
    assert s'.threads == s.threads[i := after];
    TotalUpdate(DrainWeight, s.threads, i, after);
  }

  ghost predicate Next(s: State, s': State) {
    exists step :: Enabled(s, step) && s' == Apply(s, step)
  }

  ghost predicate Run(states: seq<State>) {
    && states != [] && Init(states[0])
    && forall k :: 0 <= k < |states| - 1 ==> Next(states[k], states[k + 1])
  }

  ghost predicate Inv(s: State) {
    Tokens(s) && Backed(s) && Queues(s)
  }

  lemma InvNext(s: State, s': State)
    requires Inv(s) && Next(s, s')
    ensures Inv(s')
  {
    var step :| Enabled(s, step) && s' == Apply(s, step);
    TokensStep(s, step);
    BackedStep(s, step);
    QueuesStep(s, step);
  }

  /** On every run of any number of threads: no token is ever released twice, each queue is drained
      first in, first out and exactly once for any `maxEvents`, and queued work always has a token,
      a promised token or a committed consumer behind it. */
  lemma {:induction false} EveryRun(states: seq<State>, k: nat)
    requires Run(states) && k < |states|
    ensures Inv(states[k])
  {
    if k == 0 {
      TotalZero(EventWeight, states[0].threads);
      TotalZero(ReceiveWeight, states[0].threads);
    } else {
      EveryRun(states, k - 1);
      InvNext(states[k - 1], states[k]);
    }
  }

  /** No lost wake-up: when no thread can do anything but wait for a token that is not there, both
      queues are empty. */
  lemma NoLostWakeup(states: seq<State>, k: nat)
    requires Run(states) && k < |states|
    requires forall i :: 0 <= i < |states[k].threads| ==>
               var pc := states[k].threads[i]; pc.Idle? || pc.WaitEvent? || pc.WaitReceive?
    requires !states[k].shared.eventAvailable
    ensures states[k].shared.events == [] && states[k].shared.receives == []
    ensures states[k].drainedEvents == states[k].queuedEvents && states[k].drainedReceives == states[k].queuedReceives
  {
    EveryRun(states, k);
    TotalZero(EventWeight, states[k].threads);
    TotalZero(DrainWeight, states[k].threads);
  }

  /** The same for a thread that waits for datagrams only. */
  lemma NoLostReceive(states: seq<State>, k: nat)
    requires Run(states) && k < |states|
    requires forall i :: 0 <= i < |states[k].threads| ==>
               var pc := states[k].threads[i]; !pc.ReleaseReceive? && !pc.ClearReceive?
    requires !states[k].shared.receiveAvailable
    ensures states[k].shared.receives == []
  {
    EveryRun(states, k);
    TotalZero(ReceiveWeight, states[k].threads);
  }
}
