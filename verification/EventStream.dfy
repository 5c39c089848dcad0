/** A filter that drops what it has let through among its last `w` items. */
module WindowFilter {

  /** The last `w` items: a deque with `maxlen=w`. */
  function Last<T>(s: seq<T>, w: nat): seq<T> {
    if |s| <= w then s else s[|s| - w..]
  }

  datatype Filter = Filter(seen: seq<nat>, out: seq<nat>)

  function Feed(f: Filter, x: nat, w: nat): Filter {
    if x in f.seen then f else Filter(Last(f.seen + [x], w), f.out + [x])
  }

  function Filtered(items: seq<nat>, w: nat): Filter {
    if items == [] then Filter([], [])
    else Feed(Filtered(items[..|items| - 1], w), items[|items| - 1], w)
  }

  /** The items in the order of their first appearance. */
  function Firsts(items: seq<nat>): seq<nat> {
    if items == [] then []
    else
      var before, x := Firsts(items[..|items| - 1]), items[|items| - 1];
      if x in before then before else before + [x]
  }

  /** Every item that comes back does so while it is among the last `w` that were new. */
  ghost predicate Prompt(items: seq<nat>, w: nat) {
    items == [] ||
    var before, x := items[..|items| - 1], items[|items| - 1];
    Prompt(before, w) && (x in Firsts(before) ==> x in Last(Firsts(before), w))
  }

  ghost predicate Distinct(s: seq<nat>) {
    forall i, j :: 0 <= i < j < |s| ==> s[i] != s[j]
  }

  lemma {:induction false} LastOfLast(s: seq<nat>, x: nat, w: nat)
    ensures Last(Last(s, w) + [x], w) == Last(s + [x], w)
  {
  }

  lemma {:induction false} PromptFilters(items: seq<nat>, w: nat)
    requires Prompt(items, w)
    ensures Filtered(items, w) == Filter(Last(Firsts(items), w), Firsts(items))
  {
    if items != [] {
      var before, x := items[..|items| - 1], items[|items| - 1];
      PromptFilters(before, w);
      LastOfLast(Firsts(before), x, w);
    }
  }

  lemma {:induction false} FirstsDistinct(items: seq<nat>)
    ensures Distinct(Firsts(items))
  {
    if items != [] {
      FirstsDistinct(items[..|items| - 1]);
    }
  }

  lemma {:induction false} LateRepeats(items: seq<nat>, w: nat)
    requires !Prompt(items, w)
    ensures !Distinct(Filtered(items, w).out)
  {
    var before, x := items[..|items| - 1], items[|items| - 1];
    var out, out' := Filtered(before, w).out, Filtered(items, w).out;
    if Prompt(before, w) {
      PromptFilters(before, w);
      var i :| 0 <= i < |out| && out[i] == x;
      assert out'[i] == out'[|out|];
    } else {
      LateRepeats(before, w);
      var i, j :| 0 <= i < j < |out| && out[i] == out[j];
      assert out'[i] == out'[j];
    }
  }

  /** The filter lets every item through once, in the order of first appearance, exactly if all repeats are prompt. */
  lemma {:induction false} ExactlyOnceIff(items: seq<nat>, w: nat)
    ensures Filtered(items, w).out == Firsts(items) <==> Prompt(items, w)
    ensures Distinct(Filtered(items, w).out) <==> Prompt(items, w)
  {
    FirstsDistinct(items);
    if Prompt(items, w) {
      PromptFilters(items, w);
    } else {
      LateRepeats(items, w);
    }
  }

  lemma {:induction false} FirstsPrefix(items: seq<nat>, n: nat)
    requires n <= |items|
    ensures Firsts(items[..n]) <= Firsts(items)
  {
    if n < |items| {
      FirstsPrefix(items[..|items| - 1], n);
      assert items[..|items| - 1][..n] == items[..n];
    } else {
      assert items[..n] == items;
    }
  }

  lemma {:induction false} PromptPrefix(items: seq<nat>, w: nat, n: nat)
    requires n <= |items| && Prompt(items, w)
    ensures Prompt(items[..n], w)
  {
    if n < |items| {
      PromptPrefix(items[..|items| - 1], w, n);
      assert items[..|items| - 1][..n] == items[..n];
    } else {
      assert items[..n] == items;
    }
  }
}

/**
 The event stream of a research session. Every event is put on the session's queue by the
 publisher and, once more, by the pump that listens on the Redis channel; the consumer
 drops what is among its last 200 event ids and stops at a terminal event.

 An event is represented by its id; `terminal(id)` says whether its type is done or error.
 */
module EventStream {
  import opened WindowFilter

  const CAPACITY: nat := 500
  const WINDOW: nat := 200

  type EventId = nat

  /** `put_nowait`, and on a full queue one `get_nowait` first. */
  function Pushed(queue: seq<EventId>, e: EventId): seq<EventId> {
    if |queue| < CAPACITY then queue + [e] else queue[1..] + [e]
  }

  class Session {
    var queue: seq<EventId>
    var channel: seq<EventId>
    var seen: seq<EventId>
    var out: seq<EventId>
    var closed: bool

    constructor ()
      ensures queue == [] && channel == [] && seen == [] && out == [] && !closed
    {
      queue, channel, seen, out, closed := [], [], [], [], false;
    }

    /** `_publish` up to its await. */
    method Publish(e: EventId)
      modifies this`queue
      ensures queue == Pushed(old(queue), e)
    {
      if |queue| >= CAPACITY {
        queue := queue[1..];
      }
      queue := queue + [e];
    }

    /** The Redis publish; `delivered` is false when it fails, which is swallowed. */
    method Send(e: EventId, delivered: bool)
      modifies this`channel
      ensures channel == if delivered then old(channel) + [e] else old(channel)
    {
      if delivered {
        channel := channel + [e];
      }
    }

    /** One round of `_redis_pump`, which waits while the queue is full. */
    method Pump()
      requires channel != [] && |queue| < CAPACITY
      modifies this`queue, this`channel
      ensures queue == old(queue) + [old(channel)[0]] && channel == old(channel)[1..]
    {
      queue, channel := queue + [channel[0]], channel[1..];
    }

    /** One round of the consumer loop that finds an event. */
    method Take(terminal: EventId -> bool)
      requires queue != [] && !closed
      modifies this`queue, this`seen, this`out, this`closed
      ensures queue == old(queue)[1..]
      ensures Filter(seen, out) == Feed(Filter(old(seen), old(out)), old(queue)[0], WINDOW)
      ensures closed == (old(queue)[0] !in old(seen) && terminal(old(queue)[0]))
    {
      var e := queue[0];
      queue := queue[1..];
      if e in seen {
        return;
      }
      seen := seen + [e];
      if |seen| > WINDOW {
        seen := seen[|seen| - WINDOW..];
      }
      out := out + [e];
      closed := terminal(e);
    }
  }

  /**
   A run with its history: which events are on the queue but not yet on the channel, what
   was published, what the consumer took from the queue, and whether the queue ever
   overflowed or the pump ever delivered a copy that trailed its event by 200 published
   events or more; everything that was put on the queue, and how often its head was dropped
   for that. Publishers that overlap may reach the channel in any order.
   */
  datatype World = World(
    queue: seq<EventId>, sending: set<EventId>, channel: seq<EventId>, f: Filter, closed: bool,
    published: seq<EventId>, consumed: seq<EventId>, overflowed: bool, late: bool, puts: seq<EventId>, drops: nat)

  const Start := World([], {}, [], Filter([], []), false, [], [], false, false, [], 0)

  datatype Step = Publish(e: EventId) | Send(e: EventId, delivered: bool) | Pump | Take

  predicate Enabled(w: World, s: Step) {
    match s
    case Publish(e) => e !in w.published
    case Send(e, _) => e in w.sending
    case Pump => w.channel != [] && |w.queue| < CAPACITY
    case Take => w.queue != [] && !w.closed
  }

  /** The copy at the head of the channel trails its event by fewer than 200 published events. */
  predicate InTime(w: World)
    requires w.channel != []
  {
    w.channel[0] in Last(w.published, 200)
  }

  function Next(terminal: EventId -> bool, w: World, s: Step): World
    requires Enabled(w, s)
  {
    match s
    case Publish(e) =>
      w.(queue := Pushed(w.queue, e), sending := w.sending + {e}, published := w.published + [e],
         overflowed := w.overflowed || |w.queue| >= CAPACITY,
         puts := w.puts + [e], drops := if |w.queue| == 500 then w.drops + 1 else w.drops)
    case Send(e, delivered) =>
      w.(sending := w.sending - {e}, channel := if delivered then w.channel + [e] else w.channel)
    case Pump =>
      w.(queue := w.queue + [w.channel[0]], channel := w.channel[1..], late := w.late || !InTime(w),
         puts := w.puts + [w.channel[0]])
    case Take =>
      var e := w.queue[0];
      w.(queue := w.queue[1..], consumed := w.consumed + [e], f := Feed(w.f, e, WINDOW),
         closed := e !in w.f.seen && terminal(e))
  }

  ghost predicate Reaches(terminal: EventId -> bool, steps: seq<Step>, w: World) {
    if steps == [] then w == Start
    else
      var n := |steps| - 1;
      exists v :: Reaches(terminal, steps[..n], v) && Enabled(v, steps[n]) && w == Next(terminal, v, steps[n])
  }

  /** Everything that has gone through the queue, in order. */
  function Arrivals(w: World): seq<EventId> {
    w.consumed + w.queue
  }

  ghost predicate Bookkeeping(w: World) {
    && |w.queue| <= CAPACITY
    && w.f == Filtered(w.consumed, WINDOW)
    && Distinct(w.published)
    && (forall e :: e in w.channel || e in w.sending ==> e in w.published)
    && (!w.overflowed ==> Firsts(Arrivals(w)) == w.published)
    && (!w.overflowed ==> (Prompt(Arrivals(w), WINDOW) <==> !w.late))
  }

  ghost predicate Ends(terminal: EventId -> bool, w: World) {
    var out := w.f.out;
    && (!w.closed ==> forall i :: 0 <= i < |out| ==> !terminal(out[i]))
    && (w.closed ==> out != [] && terminal(out[|out| - 1]) && forall i :: 0 <= i < |out| - 1 ==> !terminal(out[i]))
  }

  /** Putting one more item on the queue of a run that has not overflowed. */
  lemma {:induction false} Arrive(items: seq<EventId>, x: EventId)
    ensures Firsts(items + [x]) == if x in Firsts(items) then Firsts(items) else Firsts(items) + [x]
    ensures Prompt(items + [x], WINDOW)
       <==> Prompt(items, WINDOW) && (x in Firsts(items) ==> x in Last(Firsts(items), WINDOW))
  {
    assert (items + [x])[..|items|] == items;
  }

  lemma {:induction false} SendKeeps(terminal: EventId -> bool, w: World, e: EventId, delivered: bool)
    requires Bookkeeping(w) && Enabled(w, Send(e, delivered))
    ensures Bookkeeping(Next(terminal, w, Send(e, delivered)))
  {
    hide Firsts, Prompt, Filtered, Last;
  }

  lemma {:induction false} PublishKeeps(terminal: EventId -> bool, w: World, e: EventId)
    requires Bookkeeping(w) && Enabled(w, Publish(e))
    ensures Bookkeeping(Next(terminal, w, Publish(e)))
  {
    hide Firsts, Prompt, Filtered, Last;
    var w' := Next(terminal, w, Publish(e));
    if !w'.overflowed {
      assert Arrivals(w') == Arrivals(w) + [e];
      Arrive(Arrivals(w), e);
    }
  }

  lemma {:induction false} PumpKeeps(terminal: EventId -> bool, w: World)
    requires Bookkeeping(w) && Enabled(w, Pump)
    ensures Bookkeeping(Next(terminal, w, Pump))
  {
    hide Firsts, Prompt, Filtered, Last;
    var w' := Next(terminal, w, Pump);
    assert Arrivals(w') == Arrivals(w) + [w.channel[0]];
    Arrive(Arrivals(w), w.channel[0]);
  }

  lemma {:induction false} TakeKeeps(terminal: EventId -> bool, w: World)
    requires Bookkeeping(w) && Enabled(w, Take)
    ensures Bookkeeping(Next(terminal, w, Take))
  {
    hide Firsts, Prompt, Feed;
    var w' := Next(terminal, w, Take);
    assert Arrivals(w') == Arrivals(w);
    assert w'.consumed[..|w.consumed|] == w.consumed;
  }

  lemma {:induction false} NextEnds(terminal: EventId -> bool, w: World, s: Step)
    requires Ends(terminal, w) && Enabled(w, s)
    ensures Ends(terminal, Next(terminal, w, s))
  {
  }

  lemma {:induction false} Invariants(terminal: EventId -> bool, steps: seq<Step>, w: World)
    requires Reaches(terminal, steps, w)
    ensures Bookkeeping(w) && Ends(terminal, w)
  {
    hide Bookkeeping, Ends, Next, Enabled;
    if steps == [] {
      StartInvariants(terminal);
    } else {
      var n := |steps| - 1;
      var v :| Reaches(terminal, steps[..n], v) && Enabled(v, steps[n]) && w == Next(terminal, v, steps[n]);
      Invariants(terminal, steps[..n], v);
      NextEnds(terminal, v, steps[n]);
      match steps[n]
      case Publish(e) => PublishKeeps(terminal, v, e);
      case Send(e, delivered) => SendKeeps(terminal, v, e, delivered);
      case Pump => PumpKeeps(terminal, v);
      case Take => TakeKeeps(terminal, v);
    }
  }

  lemma {:induction false} StartInvariants(terminal: EventId -> bool)
    ensures Bookkeeping(Start) && Ends(terminal, Start)
  {
  }

  /** The published events up to and including the first terminal one. */
  function UpToTerminal(terminal: EventId -> bool, s: seq<EventId>): seq<EventId> {
    if s == [] then [] else if terminal(s[0]) then [s[0]] else [s[0]] + UpToTerminal(terminal, s[1..])
  }

  lemma {:induction false} CutAtTerminal(terminal: EventId -> bool, s: seq<EventId>, out: seq<EventId>)
    requires out <= s && out != [] && terminal(out[|out| - 1])
    requires forall i :: 0 <= i < |out| - 1 ==> !terminal(out[i])
    ensures UpToTerminal(terminal, s) == out
  {
    if |out| > 1 {
      CutAtTerminal(terminal, s[1..], out[1..]);
    }
    assert out == [out[0]] + out[1..];
  }

  lemma {:induction false} NoTerminal(terminal: EventId -> bool, s: seq<EventId>)
    requires forall i :: 0 <= i < |s| ==> !terminal(s[i])
    ensures UpToTerminal(terminal, s) == s
  {
    if s != [] {
      NoTerminal(terminal, s[1..]);
    }
  }

  /**
   A subscriber that is there from the start, a queue that never overflowed and copies that
   never trailed by 200 events, in whatever order they came: what has been sent is the beginning of what was
   published, each event once and in order, and it is all of it up to the first terminal
   event as soon as the stream has closed or the queue has been emptied. The queue never
   holds more than 500 events in any run.
   */
  lemma {:induction false} ExactlyOnce(terminal: EventId -> bool, steps: seq<Step>, w: World)
    requires Reaches(terminal, steps, w)
    ensures |w.queue| <= CAPACITY
    ensures !w.overflowed && !w.late ==>
              && Distinct(w.f.out) && w.f.out <= w.published
              && (w.closed || w.queue == [] ==> w.f.out == UpToTerminal(terminal, w.published))
  {
    hide Reaches, Firsts, Prompt, Filtered;
    Invariants(terminal, steps, w);
    if !w.overflowed && !w.late {
      var n := |w.consumed|;
      assert Arrivals(w)[..n] == w.consumed;
      PromptPrefix(Arrivals(w), WINDOW, n);
      FirstsPrefix(Arrivals(w), n);
      ExactlyOnceIff(w.consumed, WINDOW);
      if w.closed {
        CutAtTerminal(terminal, w.published, w.f.out);
      } else if w.queue == [] {
        assert Arrivals(w) == w.consumed;
        NoTerminal(terminal, w.published);
      }
    }
  }

  /**
   The bound is exact: without overflow, and once the queue has been emptied, some event has
   been sent twice exactly if some copy trailed its event by 200 or more.
   */
  lemma {:induction false} RepeatsIffLate(terminal: EventId -> bool, steps: seq<Step>, w: World)
    requires Reaches(terminal, steps, w) && !w.overflowed && w.queue == []
    ensures !Distinct(w.f.out) <==> w.late
  {
    hide Reaches, Firsts, Prompt, Filtered;
    Invariants(terminal, steps, w);
    assert Arrivals(w) == w.consumed;
    ExactlyOnceIff(w.consumed, WINDOW);
  }

  // ----- a late copy is possible -----

  /** Events `0`, ..., `n - 1` published while nobody takes or pumps. */
  function Backlog(n: nat): seq<EventId> {
    if n == 0 then [] else Backlog(n - 1) + [n - 1]
  }

  lemma {:induction false} BacklogIs(n: nat, i: nat)
    ensures |Backlog(n)| == n
    ensures i < n ==> Backlog(n)[i] == i
  {
    if n > 0 {
      BacklogIs(n - 1, i);
    }
  }

  lemma {:induction false} Extend(terminal: EventId -> bool, steps: seq<Step>, v: World, s: Step) returns (all: seq<Step>)
    requires Reaches(terminal, steps, v) && Enabled(v, s)
    ensures Reaches(terminal, all, Next(terminal, v, s))
  {
    all := steps + [s];
    assert all[..|all| - 1] == steps;
  }

  lemma {:induction false} PublishBacklog(terminal: EventId -> bool, n: nat) returns (steps: seq<Step>, w: World)
    requires n <= CAPACITY
    ensures Reaches(terminal, steps, w)
    ensures w == Start.(queue := Backlog(n), channel := Backlog(n), published := Backlog(n), puts := Backlog(n))
  {
    hide Reaches;
    if n == 0 {
      steps, w := [], Start;
      StartReached(terminal);
    } else {
      var before, v := PublishBacklog(terminal, n - 1);
      BacklogIs(n - 1, 0);
      NotIn(n - 1);
      steps := Extend(terminal, before, v, Publish(n - 1));
      var mid := Next(terminal, v, Publish(n - 1));
      steps := Extend(terminal, steps, mid, Send(n - 1, true));
      w := Next(terminal, mid, Send(n - 1, true));
    }
  }

  lemma {:induction false} StartReached(terminal: EventId -> bool)
    ensures Reaches(terminal, [], Start)
  {
  }

  lemma {:induction false} NotIn(n: nat)
    ensures n !in Backlog(n)
  {
    BacklogIs(n, 0);
    forall i | 0 <= i < n ensures Backlog(n)[i] != n {
      BacklogIs(n, i);
    }
  }

  /** A pump that starts after 201 events have been published delivers a late copy, and no overflow is needed. */
  lemma {:induction false} LateCopyPossible(terminal: EventId -> bool) returns (steps: seq<Step>, w: World)
    ensures Reaches(terminal, steps, w) && !w.overflowed && w.late && !w.closed
  {
    var before, v := PublishBacklog(terminal, WINDOW + 1);
    BacklogIs(WINDOW + 1, 0);
    var recent := Last(v.published, WINDOW);
    forall i | 0 <= i < |recent| ensures recent[i] != 0 {
      BacklogIs(WINDOW + 1, i + 1);
    }
    hide Reaches;
    steps := Extend(terminal, before, v, Pump);
    w := Next(terminal, v, Pump);
  }

  /** A stream without terminal events can always be emptied. */
  lemma {:induction false} Drain(terminal: EventId -> bool, before: seq<Step>, v: World)
    returns (steps: seq<Step>, w: World)
    requires Reaches(terminal, before, v) && !v.closed && forall e :: !terminal(e)
    ensures Reaches(terminal, steps, w)
    ensures w.queue == [] && w.late == v.late && w.overflowed == v.overflowed
    decreases |v.queue|
  {
    hide Reaches;
    steps, w := before, v;
    if v.queue != [] {
      steps := Extend(terminal, before, v, Take);
      steps, w := Drain(terminal, steps, Next(terminal, v, Take));
    }
  }

  /** So some run, without overflow, sends an event twice. */
  lemma {:induction false} RepeatPossible(terminal: EventId -> bool) returns (steps: seq<Step>, w: World)
    requires forall e :: !terminal(e)
    ensures Reaches(terminal, steps, w) && !w.overflowed && !Distinct(w.f.out)
  {
    hide Reaches, Distinct;
    var before, v := LateCopyPossible(terminal);
    steps, w := Drain(terminal, before, v);
    RepeatsIffLate(terminal, steps, w);
  }

  // ----- what an overflow drops -----

  ghost predicate Latest(w: World) {
    && |w.queue| <= 500 && |w.puts| == |w.consumed| + w.drops + |w.queue|
    && w.queue == w.puts[|w.consumed| + w.drops..]
    && (w.overflowed <==> w.drops > 0)
  }

  lemma {:induction false} NextLatest(terminal: EventId -> bool, w: World, s: Step)
    requires Latest(w) && Enabled(w, s)
    ensures Latest(Next(terminal, w, s))
  {
    hide Feed;
  }

  /**
   In every run the queue holds the latest of what was put on it, by publishers and the pump, in
   order: what is gone was consumed or, one event for each publisher that found 500 there,
   dropped from the front.
   */
  lemma {:induction false} OverflowDropsOldest(terminal: EventId -> bool, steps: seq<Step>, w: World)
    requires Reaches(terminal, steps, w)
    ensures |w.queue| <= 500 && |w.puts| == |w.consumed| + w.drops + |w.queue|
    ensures w.queue == w.puts[|w.consumed| + w.drops..]
    ensures w.overflowed <==> w.drops > 0
  {
    hide Next, Enabled;
    if steps != [] {
      var n := |steps| - 1;
      var v :| Reaches(terminal, steps[..n], v) && Enabled(v, steps[n]) && w == Next(terminal, v, steps[n]);
      OverflowDropsOldest(terminal, steps[..n], v);
      NextLatest(terminal, v, steps[n]);
    }
  }
}
