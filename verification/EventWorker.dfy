/**
  The event channel and its worker. Senders put events into an unbounded FIFO channel; one
  worker takes them out, publishes each at once, and publishes the current one again whenever
  its timer fires before the next event arrives.
 */
module EventWorker {
  import opened Wrappers

  /** A Kubernetes event about the upgrade. */
  datatype Event = Event(warning: bool, note: string, action: string)

  // ---------------------------------------------------------------- repetition

  function Repeat(e: Event, n: nat): seq<Event> {
    if n == 0 then [] else Repeat(e, n - 1) + [e]
  }

  /** `events`, the i-th of them repeated `counts[i]` times. */
  function Expand(events: seq<Event>, counts: seq<nat>): seq<Event>
    requires |events| == |counts|
  {
    if events == [] then []
    else
      var n := |events| - 1;
      Expand(events[..n], counts[..n]) + Repeat(events[n], counts[n])
  }

  predicate AllPositive(counts: seq<nat>) {
    forall i :: 0 <= i < |counts| ==> counts[i] > 0
  }

  /** `attempts` are the events in order, each of them at least once. */
  ghost predicate Stutters(attempts: seq<Event>, events: seq<Event>) {
    exists counts: seq<nat> :: |counts| == |events| && AllPositive(counts) && attempts == Expand(events, counts)
  }

  lemma {:induction false} NothingStutters()
    ensures Stutters([], [])
  {
    var counts: seq<nat> := [];
    assert Expand([], counts) == [];
  }

  lemma {:induction false} ExpandOneMore(events: seq<Event>, counts: seq<nat>, e: Event, k: nat, all: seq<Event>, more: seq<nat>)
    requires |events| == |counts| && all == events + [e] && more == counts + [k]
    ensures Expand(all, more) == Expand(events, counts) + Repeat(e, k)
  {
    assert all[..|events|] == events && more[..|events|] == counts;
  }

  /** `attempts` stutters `all` when its last event is attempted `k` times after the others. */
  lemma {:induction false} StuttersOneMore(before: seq<Event>, events: seq<Event>, counts: seq<nat>, e: Event, k: nat, attempts: seq<Event>, all: seq<Event>)
    requires |events| == |counts| && AllPositive(counts) && before == Expand(events, counts) && k > 0
    requires all == events + [e] && attempts == before + Repeat(e, k)
    ensures Stutters(attempts, all)
  {
    var more := counts + [k];
    ExpandOneMore(events, counts, e, k, all, more);
    assert |more| == |all| && AllPositive(more);
  }

  /** The first attempt at a further event. */
  lemma {:induction false} FirstAttempt(attempts: seq<Event>, events: seq<Event>, e: Event, all: seq<Event>)
    requires Stutters(attempts, events) && all == events + [e]
    ensures Stutters(attempts + [e], all)
  {
    var counts :| |counts| == |events| && AllPositive(counts) && attempts == Expand(events, counts);
    assert Repeat(e, 1) == [e];
    StuttersOneMore(attempts, events, counts, e, 1, attempts + [e], all);
  }

  /** A further attempt at the last event. */
  lemma {:induction false} RepeatedAttempt(attempts: seq<Event>, events: seq<Event>)
    requires events != [] && Stutters(attempts, events)
    ensures Stutters(attempts + [events[|events| - 1]], events)
  {
    var n := |events| - 1;
    var front, e := events[..n], events[n];
    var counts :| |counts| == |events| && AllPositive(counts) && attempts == Expand(events, counts);
    var some, k := counts[..n], counts[n];
    var before := Expand(front, some);
    assert attempts == before + Repeat(e, k) && Repeat(e, k + 1) == Repeat(e, k) + [e];
    StuttersOneMore(before, front, some, e, k + 1, attempts + [e], events);
  }

  lemma {:induction false} StutterContains(attempts: seq<Event>, events: seq<Event>, counts: seq<nat>)
    requires |counts| == |events| && AllPositive(counts) && attempts == Expand(events, counts)
    ensures forall e :: e in attempts <==> e in events
    decreases |events|
  {
    if events != [] {
      var n := |events| - 1;
      StutterContains(Expand(events[..n], counts[..n]), events[..n], counts[..n]);
      RepeatContains(events[n], counts[n]);
      assert events == events[..n] + [events[n]];
    }
  }

  lemma {:induction false} RepeatContains(e: Event, n: nat)
    requires n > 0
    ensures forall x :: x in Repeat(e, n) <==> x == e
  {
    if n > 1 {
      RepeatContains(e, n - 1);
    }
  }

  // ---------------------------------------------------------------- the worker loop

  /** How a wait of the worker ends: its timer fires, an event arrives, or the channel is closed. */
  datatype Wake = TimerFired | Received(event: Option<Event>)

  function EventOf(w: Wake): seq<Event> {
    if w.Received? && w.event.Some? then [w.event.value] else []
  }

  /** The events that a sequence of waits brings. */
  function EventsOf(wakes: seq<Wake>): seq<Event> {
    if wakes == [] then [] else EventsOf(wakes[..|wakes| - 1]) + EventOf(wakes[|wakes| - 1])
  }

  lemma {:induction false} NextWake(wakes: seq<Wake>, k: nat)
    requires k < |wakes|
    ensures EventsOf(wakes[..k + 1]) == EventsOf(wakes[..k]) + EventOf(wakes[k])
  {
    assert wakes[..k + 1][..k] == wakes[..k];
  }

  /** `current` is the last of `events`, and the only one that may still be due a first attempt. */
  ghost predicate Owes(attempts: seq<Event>, events: seq<Event>, current: Option<Event>) {
    if current.None? then Stutters(attempts, events)
    else
      && events != [] && events[|events| - 1] == current.value
      && (Stutters(attempts, events) || Stutters(attempts, events[..|events| - 1]))
  }

  /** An attempt at `e`, be it the first one or a repetition. */
  lemma {:induction false} AttemptMade(attempts: seq<Event>, events: seq<Event>, e: Event)
    requires Owes(attempts, events, Some(e))
    ensures Stutters(attempts + [e], events)
  {
    if Stutters(attempts, events) {
      RepeatedAttempt(attempts, events);
    } else {
      FirstAttempt(attempts, events[..|events| - 1], e, events);
    }
  }

  /** What the worker takes to be current after a wait. */
  function CurrentAfter(w: Wake, e: Event): Option<Event> {
    if w.Received? then w.event else Some(e)
  }

  lemma {:induction false} Woken(attempts: seq<Event>, events: seq<Event>, w: Wake, e: Event)
    requires Stutters(attempts, events) && (w.TimerFired? ==> events != [] && events[|events| - 1] == e)
    ensures Owes(attempts, events + EventOf(w), CurrentAfter(w, e))
  {
    if EventOf(w) == [] {
      assert events + EventOf(w) == events;
    } else {
      assert (events + EventOf(w))[..|events|] == events;
    }
  }

  /** `e` is the last event that `wakes` brought. */
  predicate IsCurrent(wakes: seq<Wake>, e: Event) {
    var events := EventsOf(wakes);
    events != [] && events[|events| - 1] == e
  }

  /** `e` is current after wait `j`; the quantifier over one value only keeps this folded. */
  ghost predicate CurrentAfterWait(wakes: seq<Wake>, j: int, e: Event)
    requires 0 <= j < |wakes|
  {
    forall w: seq<Wake> :: w == wakes[..j + 1] ==> IsCurrent(w, e)
  }

  /** One attempt follows each wait: at the event that the wait brought, or again at the last one if its timer fired. */
  ghost predicate OneAttemptPerWait(attempts: seq<Event>, wakes: seq<Wake>) {
    |attempts| <= |wakes| && forall j :: 0 <= j < |attempts| ==> CurrentAfterWait(wakes, j, attempts[j])
  }

  lemma {:induction false} OwedIsCurrent(attempts: seq<Event>, wakes: seq<Wake>, used: nat, e: Event)
    requires 0 < used <= |wakes| && Owes(attempts, EventsOf(wakes[..used]), Some(e))
    ensures CurrentAfterWait(wakes, used - 1, e)
  {
  }

  /** `OneAttemptPerWait`, folded in the same way. */
  ghost predicate Paired(attempts: seq<Event>, wakes: seq<Wake>) {
    forall a: seq<Event> :: a == attempts ==> OneAttemptPerWait(a, wakes)
  }

  lemma {:induction false} OnePairMore(attempts: seq<Event>, wakes: seq<Wake>, e: Event)
    requires Paired(attempts, wakes) && |attempts| < |wakes| && CurrentAfterWait(wakes, |attempts|, e)
    ensures Paired(attempts + [e], wakes)
  {
    assert OneAttemptPerWait(attempts, wakes);
    var more := attempts + [e];
    forall j | 0 <= j < |more| ensures CurrentAfterWait(wakes, j, more[j]) {
      if j < |attempts| {
        assert CurrentAfterWait(wakes, j, attempts[j]);
      }
    }
  }

  lemma {:induction false} PairedIff(attempts: seq<Event>, wakes: seq<Wake>)
    ensures Paired(attempts, wakes) <==> OneAttemptPerWait(attempts, wakes)
  {
    if Paired(attempts, wakes) {
      assert OneAttemptPerWait(attempts, wakes);
    }
  }

  lemma {:induction false} AttemptPaired(attempts: seq<Event>, wakes: seq<Wake>, used: nat, e: Event)
    requires 0 < used <= |wakes| && |attempts| == used - 1 && Paired(attempts, wakes)
    requires Owes(attempts, EventsOf(wakes[..used]), Some(e))
    ensures Paired(attempts + [e], wakes)
  {
    OwedIsCurrent(attempts, wakes, used, e);
    OnePairMore(attempts, wakes, e);
  }

  /** One turn of the loop: an attempt, then a wait. */
  lemma {:induction false} Turn(attempts: seq<Event>, wakes: seq<Wake>, used: nat, e: Event)
    requires used <= |wakes| && Owes(attempts, EventsOf(wakes[..used]), Some(e))
    ensures Owes(attempts + [e], EventsOf(wakes[..used]), None)
    ensures used < |wakes| ==> Owes(attempts + [e], EventsOf(wakes[..used + 1]), CurrentAfter(wakes[used], e))
  {
    AttemptMade(attempts, EventsOf(wakes[..used]), e);
    if used < |wakes| {
      Woken(attempts + [e], EventsOf(wakes[..used]), wakes[used], e);
      NextWake(wakes, used);
    }
  }

  lemma {:induction false} FirstWait(wakes: seq<Wake>)
    requires wakes != [] && wakes[0].Received?
    ensures Owes([], EventsOf(wakes[..1]), wakes[0].event)
  {
    NothingStutters();
    NextWake(wakes, 0);
    Woken([], [], wakes[0], Event(false, "", ""));
  }

  /**
    The worker's loop, over the outcomes of its waits. It goes on until the channel is closed,
    and attempts every event that it was handed before, in order: once when it arrives, and
    once more for each timer that fires before the next one does. An attempt may itself fail,
    which changes nothing.
   */
  method WorkerLoop(wakes: seq<Wake>) returns (attempts: seq<Event>, used: nat)
    requires wakes != [] && wakes[0].Received?
    ensures 0 < used <= |wakes| && Stutters(attempts, EventsOf(wakes[..used]))
    ensures used < |wakes| ==> wakes[used - 1] == Received(None)
    ensures Paired(attempts, wakes)
    ensures |attempts| == if wakes[used - 1] == Received(None) then used - 1 else used
  {
    attempts, used := [], 1;
    var current := wakes[0].event;
    FirstWait(wakes);
    while current.Some?
      invariant 0 < used <= |wakes| && Owes(attempts, EventsOf(wakes[..used]), current)
      invariant current.None? <==> wakes[used - 1] == Received(None)
      invariant |attempts| == used - 1 && Paired(attempts, wakes)
      decreases |wakes| - used, current.Some?
    {
      AttemptPaired(attempts, wakes, used, current.value);
      Turn(attempts, wakes, used, current.value);
      attempts := attempts + [current.value];
      if used == |wakes| {
        return;
      }
      if wakes[used].Received? {
        current := wakes[used].event;
      }
      used := used + 1;
    }
  }

  // ---------------------------------------------------------------- senders and worker together

  /** Where the worker stands; `again` tells a repetition from the first attempt. */
  datatype Worker =
    | Starting
    | Publishing(event: Event, again: bool)
    | Waiting(event: Event)
    | Exited

  datatype System = System(
    sent: seq<Event>,
    queue: seq<Event>,
    senderOpen: bool,
    worker: Worker,
    attempts: seq<Event>)

  /** What may happen next, in any order that a scheduler picks. */
  datatype Happening = Send(event: Event) | DropSender | Receive | Attempt | Timer

  function Start(): System {
    System([], [], true, Starting, [])
  }

  /** A happening that is not possible in `s` changes nothing. */
  function Next(s: System, h: Happening): System {
    match h
    case Send(e) => if s.senderOpen then s.(sent := s.sent + [e], queue := s.queue + [e]) else s
    case DropSender => s.(senderOpen := false)
    case Receive =>
      if !s.worker.Starting? && !s.worker.Waiting? then s
      else if s.queue != [] then s.(queue := s.queue[1..], worker := Publishing(s.queue[0], false))
      else if !s.senderOpen then s.(worker := Exited)
      else s
    case Attempt =>
      if s.worker.Publishing? then s.(attempts := s.attempts + [s.worker.event], worker := Waiting(s.worker.event)) else s
    case Timer =>
      if s.worker.Waiting? then s.(worker := Publishing(s.worker.event, true)) else s
  }

  function Run(hs: seq<Happening>): System {
    if hs == [] then Start() else Next(Run(hs[..|hs| - 1]), hs[|hs| - 1])
  }

  /** The events that the senders of `hs` sent before the sender was dropped. */
  function Sends(hs: seq<Happening>): seq<Event> {
    if hs == [] then []
    else
      var front, h := hs[..|hs| - 1], hs[|hs| - 1];
      Sends(front) + if h.Send? && DropSender !in front then [h.event] else []
  }

  lemma {:induction false} OpenUntilDropped(hs: seq<Happening>)
    ensures Run(hs).senderOpen <==> DropSender !in hs
    decreases |hs|
  {
    if hs != [] {
      OpenUntilDropped(hs[..|hs| - 1]);
      assert hs == hs[..|hs| - 1] + [hs[|hs| - 1]];
    }
  }

  lemma {:induction false} SentGrows(s: System, h: Happening)
    ensures Next(s, h).sent == s.sent + if h.Send? && s.senderOpen then [h.event] else []
  {
  }

  /** Every event that is sent while the sender is there goes into the channel, in order. */
  lemma {:induction false} SentIsWhatWasSent(hs: seq<Happening>)
    ensures Run(hs).sent == Sends(hs)
    decreases |hs|
  {
    if hs != [] {
      var front := hs[..|hs| - 1];
      SentIsWhatWasSent(front);
      OpenUntilDropped(front);
      SentGrows(Run(front), hs[|hs| - 1]);
    }
  }

  /** How many of the sent events have been attempted at least once. */
  function Begun(s: System): int {
    |s.sent| - |s.queue| - (if s.worker.Publishing? && !s.worker.again then 1 else 0)
  }

  ghost predicate Consistent(s: System) {
    && 0 <= Begun(s) <= |s.sent|
    && s.queue == s.sent[|s.sent| - |s.queue|..]
    && Stutters(s.attempts, s.sent[..Begun(s)])
    && (s.worker.Starting? ==> |s.queue| == |s.sent|)
    && (s.worker.Publishing? || s.worker.Waiting? ==>
          |s.queue| < |s.sent| && s.worker.event == s.sent[|s.sent| - |s.queue| - 1])
    && (s.worker.Exited? ==> !s.senderOpen && s.queue == [])
  }

  lemma {:induction false} SendKeepsConsistent(s: System, e: Event)
    requires Consistent(s) && s.senderOpen
    ensures Consistent(Next(s, Send(e)))
  {
    var s' := Next(s, Send(e));
    assert s'.sent[..Begun(s)] == s.sent[..Begun(s)];
    assert s'.queue == s'.sent[|s.sent| - |s.queue|..];
  }

  /** The attempt that the worker is about to make, on a prefix of what was sent. */
  lemma {:induction false} AttemptAdvances(attempts: seq<Event>, sent: seq<Event>, k: nat, again: bool)
    requires 0 < k <= |sent| && Stutters(attempts, sent[..if again then k else k - 1])
    ensures Stutters(attempts + [sent[k - 1]], sent[..k])
  {
    if again {
      RepeatedAttempt(attempts, sent[..k]);
    } else {
      FirstAttempt(attempts, sent[..k - 1], sent[k - 1], sent[..k]);
    }
  }

  lemma {:induction false} AttemptKeepsConsistent(s: System)
    requires Consistent(s) && s.worker.Publishing?
    ensures Consistent(Next(s, Attempt))
  {
    AttemptAdvances(s.attempts, s.sent, |s.sent| - |s.queue|, s.worker.again);
  }

  lemma {:induction false} ReceiveKeepsConsistent(s: System)
    requires Consistent(s)
    ensures Consistent(Next(s, Receive))
  {
    var s' := Next(s, Receive);
    if s'.queue != s.queue {
      var k := |s.sent| - |s.queue|;
      assert s.queue[0] == s.sent[k] && s.queue[1..] == s.sent[k + 1..];
      assert Begun(s') == Begun(s);
    }
  }

  lemma {:induction false} RunIsConsistent(hs: seq<Happening>)
    ensures Consistent(Run(hs))
  {
    if hs == [] {
      NothingStutters();
    } else {
      var s, h := Run(hs[..|hs| - 1]), hs[|hs| - 1];
      RunIsConsistent(hs[..|hs| - 1]);
      match h {
        case Send(e) => if s.senderOpen { SendKeepsConsistent(s, e); }
        case Receive => ReceiveKeepsConsistent(s);
        case Attempt => if s.worker.Publishing? { AttemptKeepsConsistent(s); }
        case _ =>
      }
    }
  }

  /**
    The worker refines the sent sequence: whatever the interleaving, the attempted
    publications are a beginning of the sent events, in order and each at least once; once
    the worker has exited they are all of them, and nothing was ever attempted that was not
    sent.
   */
  lemma {:induction false} WorkerStuttersSentEvents(hs: seq<Happening>)
    ensures exists n :: 0 <= n <= |Run(hs).sent| && Stutters(Run(hs).attempts, Run(hs).sent[..n])
    ensures Run(hs).worker.Exited? ==> Stutters(Run(hs).attempts, Run(hs).sent)
    ensures forall e :: e in Run(hs).attempts ==> e in Run(hs).sent
  {
    var s := Run(hs);
    RunIsConsistent(hs);
    var n := Begun(s);
    assert Stutters(s.attempts, s.sent[..n]);
    var counts :| |counts| == n && AllPositive(counts) && s.attempts == Expand(s.sent[..n], counts);
    StutterContains(s.attempts, s.sent[..n], counts);
    if s.worker.Exited? {
      assert s.sent[..n] == s.sent;
    }
  }

  /** The timers that have fired while the worker waited. */
  function Timers(hs: seq<Happening>): nat {
    if hs == [] then 0
    else
      var front := hs[..|hs| - 1];
      Timers(front) + if hs[|hs| - 1].Timer? && Run(front).worker.Waiting? then 1 else 0
  }

  /** Attempts made and about to be made, less the events taken. */
  function Extra(s: System): int {
    |s.attempts| + (if s.worker.Publishing? then 1 else 0) - (|s.sent| - |s.queue|)
  }

  lemma {:induction false} StepCounts(s: System, h: Happening)
    ensures Extra(Next(s, h)) == Extra(s) + if h.Timer? && s.worker.Waiting? then 1 else 0
  {
  }

  /**
    Every timer brings one more attempt: an event is attempted once after it was taken from
    the channel, and once for each timer that fires before the next one is. An attempt that
    the worker is about to make counts as still to come.
   */
  lemma {:induction false} EveryTimerRepublishes(hs: seq<Happening>)
    ensures var s := Run(hs);
            |s.attempts| + (if s.worker.Publishing? then 1 else 0) == |s.sent| - |s.queue| + Timers(hs)
    decreases |hs|
  {
    if hs != [] {
      EveryTimerRepublishes(hs[..|hs| - 1]);
      StepCounts(Run(hs[..|hs| - 1]), hs[|hs| - 1]);
    }
  }

  lemma {:induction false} ExitIsFinal(hs: seq<Happening>, more: seq<Happening>)
    requires Run(hs).worker.Exited?
    ensures Run(hs + more) == Run(hs).(senderOpen := false)
    decreases |more|
  {
    RunIsConsistent(hs);
    if more == [] {
      assert hs + more == hs;
    } else {
      ExitIsFinal(hs, more[..|more| - 1]);
      assert (hs + more)[..|hs + more| - 1] == hs + more[..|more| - 1];
    }
  }

  /**
    Shutting down publishes everything: once the sender is dropped, the worker needs at most
    two more steps for each event still in the channel, and one to exit.
   */
  lemma {:induction false} ShutdownDrains(hs: seq<Happening>) returns (more: seq<Happening>)
    requires !Run(hs).senderOpen
    ensures Run(hs + more).worker.Exited? && Run(hs + more).sent == Run(hs).sent
    ensures |more| <= 2 * |Run(hs).queue| + (if Run(hs).worker.Publishing? then 2 else 1)
    decreases |Run(hs).queue|, if Run(hs).worker.Publishing? then 1 else 0
  {
    var s := Run(hs);
    RunIsConsistent(hs);
    if s.worker.Exited? {
      more := [];
      assert hs + more == hs;
    } else {
      var h := if s.worker.Publishing? then Attempt else Receive;
      assert (hs + [h])[..|hs|] == hs;
      assert Run(hs + [h]) == Next(s, h);
      if Next(s, h).worker.Exited? {
        more := [h];
      } else {
        var rest := ShutdownDrains(hs + [h]);
        more := [h] + rest;
        assert hs + [h] + rest == hs + more;
      }
    }
  }
}
