/**
 The staged crawl pipeline: six queues, any number of workers, arbitrary handlers. A worker
 takes a document from its stage's queue, awaits the handler, and then either passes the
 document on or settles it; `stop` may cancel it in the middle.
 */
module Pipeline {
  import opened Common

  /** Fetch, extract, detect language, translate, embed, store. */
  const STAGES: nat := 6

  type Stage = s: nat | s < STAGES

  /**
   A document, by the number of its submission. `initial` is what `completed_stages` held
   when it was submitted, `errors` the number of its error messages.
   */
  datatype Doc = Doc(ticket: nat, stage: nat, initial: seq<nat>, completed: seq<nat>, errors: nat)

  /**
   What awaiting the handler comes to. `errors` is the number of error messages it leaves in
   the document, which it may add to or clear; `Garbage` is a handler that does not return a
   document.
   */
  datatype Outcome = Returned(errors: nat) | Raised(errors: nat) | Garbage

  datatype Fate = Passed(doc: Doc) | Processed(doc: Doc) | Failed(doc: Doc) | Lost(doc: Doc)

  /** Where a document goes after its handler. */
  function Settle(d: Doc, o: Outcome): Fate {
    if o.Garbage? then Lost(d)
    else
      var d' := if o.Returned?
                then d.(completed := d.completed + [d.stage], errors := o.errors)
                else d.(errors := o.errors + 1);
      if d'.errors > 0 then Failed(d')
      else if d.stage + 1 < STAGES then Passed(d'.(stage := d.stage + 1))
      else Processed(d')
  }

  /** One queue for each stage. */
  type Queues = q: seq<seq<Doc>> | |q| == STAGES witness [[], [], [], [], [], []]

  datatype Pipe = Pipe(queues: Queues, inPipeline: int, processed: nat, failed: nat) {
    function Put(d: Doc): (p: Pipe)
      requires d.stage < STAGES
    {
      this.(queues := queues[d.stage := queues[d.stage] + [d]])
    }

    function Accept(d: Doc): (p: Pipe)
    {
      Put(d.(stage := 0)).(inPipeline := inPipeline + 1)
    }

    function Get(s: Stage): (p: Pipe)
      requires queues[s] != []
    {
      this.(queues := queues[s := queues[s][1..]])
    }

    function Apply(f: Fate): (p: Pipe)
      requires f.Passed? ==> f.doc.stage < STAGES
    {
      match f
      case Passed(d) => Put(d)
      case Processed(d) => this.(inPipeline := inPipeline - 1, processed := processed + 1)
      case Failed(d) => this.(inPipeline := inPipeline - 1, failed := failed + 1)
      case Lost(d) => this
    }
  }

  const NoDocs: Queues := [[], [], [], [], [], []]

  class CrawlPipeline {
    var queues: Queues
    var documentsInPipeline: int
    var documentsProcessed: nat
    var documentsFailed: nat

    constructor ()
      ensures Snapshot() == Pipe(NoDocs, 0, 0, 0)
    {
      queues := NoDocs;
      documentsInPipeline, documentsProcessed, documentsFailed := 0, 0, 0;
    }

    function Snapshot(): Pipe
      reads this
    {
      Pipe(queues, documentsInPipeline, documentsProcessed, documentsFailed)
    }

    method Submit(d: Doc)
      modifies this
      ensures Snapshot() == old(Snapshot()).Accept(d)
    {
      queues := queues[0 := queues[0] + [d.(stage := 0)]];
      documentsInPipeline := documentsInPipeline + 1;
    }

    method Dequeue(s: Stage) returns (d: Doc)
      requires queues[s] != []
      modifies this`queues
      ensures d == old(queues)[s][0] && Snapshot() == old(Snapshot()).Get(s)
    {
      d := queues[s][0];
      queues := queues[s := queues[s][1..]];
    }

    /** The part of the worker loop behind the handler. */
    method Finish(d: Doc, o: Outcome) returns (f: Fate)
      modifies this
      ensures f == Settle(d, o) && Snapshot() == old(Snapshot()).Apply(f)
    {
      var doc := d;
      match o {
        case Garbage => return Lost(d);
        case Returned(errors) => doc := doc.(completed := doc.completed + [doc.stage], errors := errors);
        case Raised(errors) => doc := doc.(errors := errors + 1);
      }
      if doc.stage + 1 < STAGES && doc.errors == 0 {
        doc := doc.(stage := doc.stage + 1);
        queues := queues[doc.stage := queues[doc.stage] + [doc]];
        return Passed(doc);
      }
      documentsInPipeline := documentsInPipeline - 1;
      if doc.errors > 0 {
        documentsFailed := documentsFailed + 1;
        return Failed(doc);
      }
      documentsProcessed := documentsProcessed + 1;
      return Processed(doc);
    }
  }

  // ----- runs -----

  /** A handler of some stage has come to something. */
  datatype Completion = Completion(stage: nat, o: Outcome)

  /**
   The pipeline with the documents its workers hold and those that have left it; the handler
   completions so far; and the documents that joined a queue and those taken from one.
   */
  datatype World = World(
    pipe: Pipe, held: seq<Doc>, lost: seq<Doc>, processed: seq<Doc>, failed: seq<Doc>,
    submitted: nat, finishes: seq<Completion>, joined: seq<Doc>, taken: seq<Doc>)

  const Start := World(Pipe(NoDocs, 0, 0, 0), [], [], [], [], 0, [], [], [])

  datatype Event = Submit(completed: seq<nat>, errors: nat) | Take(s: Stage) | Finish(i: nat, o: Outcome) | Cancel(i: nat)

  ghost predicate Enabled(w: World, e: Event) {
    match e
    case Submit(_, _) => true
    case Take(s) => w.pipe.queues[s] != []
    case Finish(i, _) => i < |w.held|
    case Cancel(i) => i < |w.held|
  }

  function NewDoc(w: World, completed: seq<nat>, errors: nat): Doc {
    Doc(w.submitted, 0, completed, completed, errors)
  }

  function Finished(w: World, i: nat, o: Outcome, f: Fate): World
    requires i < |w.held| && (f.Passed? ==> f.doc.stage < STAGES)
  {
    var w' := w.(pipe := w.pipe.Apply(f), held := Without(w.held, i),
                 finishes := w.finishes + [Completion(w.held[i].stage, o)]);
    match f
    case Passed(d) => w'.(joined := w.joined + [d])
    case Processed(d) => w'.(processed := w.processed + [d])
    case Failed(d) => w'.(failed := w.failed + [d])
    case Lost(d) => w'.(lost := w.lost + [d])
  }

  function Next(w: World, e: Event): World
    requires Enabled(w, e)
  {
    match e
    case Submit(completed, errors) =>
      w.(pipe := w.pipe.Accept(NewDoc(w, completed, errors)), submitted := w.submitted + 1,
         joined := w.joined + [NewDoc(w, completed, errors)])
    case Take(s) =>
      w.(pipe := w.pipe.Get(s), held := w.held + [w.pipe.queues[s][0]], taken := w.taken + [w.pipe.queues[s][0]])
    case Finish(i, o) =>
      Finished(w, i, o, Settle(w.held[i], o))
    case Cancel(i) =>
      w.(held := Without(w.held, i), lost := w.lost + [w.held[i]])
  }

  // ----- stage order -----

  /** The stages before `k`, in order. */
  function StagesBefore(k: nat): seq<nat> {
    if k == 0 then [] else StagesBefore(k - 1) + [k - 1]
  }

  /** A document at stage `k` has completed exactly the stages before it, in order, and has no errors unless it came with some. */
  predicate OnTrack(d: Doc) {
    && d.stage < STAGES
    && d.completed == d.initial + StagesBefore(d.stage)
    && (d.stage > 0 ==> d.errors == 0)
  }

  ghost predicate Sound(w: World) {
    && (forall k, i :: 0 <= k < STAGES && 0 <= i < |w.pipe.queues[k]| ==>
          w.pipe.queues[k][i].stage == k && OnTrack(w.pipe.queues[k][i]))
    && (forall i :: 0 <= i < |w.held| ==> OnTrack(w.held[i]))
    && (forall i :: 0 <= i < |w.processed| ==>
          w.processed[i].errors == 0 && w.processed[i].completed == w.processed[i].initial + StagesBefore(STAGES))
    && (forall i :: 0 <= i < |w.failed| ==> w.failed[i].errors > 0)
  }

  lemma {:induction false} SettleOnTrack(d: Doc, o: Outcome)
    requires OnTrack(d)
    ensures match Settle(d, o)
            case Passed(d') => OnTrack(d') && d'.stage == d.stage + 1 && d'.ticket == d.ticket
            case Processed(d') =>
              d'.errors == 0 && d'.completed == d'.initial + StagesBefore(STAGES) && d'.ticket == d.ticket
            case Failed(d') => d'.errors > 0 && d'.ticket == d.ticket
            case Lost(d') => d' == d
  {
    assert d.initial + StagesBefore(d.stage) + [d.stage] == d.initial + (StagesBefore(d.stage) + [d.stage]);
  }

  lemma {:induction false} NextSound(w: World, e: Event)
    requires Sound(w) && Enabled(w, e)
    ensures Sound(Next(w, e))
  {
    hide OnTrack, Settle;
    match e
    case Submit(completed, errors) => NewOnTrack(w, completed, errors);
    case Take(s) => TakeSound(w, s);
    case Finish(i, o) =>
      OnTrackStage(w.held[i]);
      SettleOnTrack(w.held[i], o);
      FinishSound(w, i, o, Settle(w.held[i], o));
    case Cancel(i) =>
  }

  lemma {:induction false} OnTrackStage(d: Doc)
    requires OnTrack(d)
    ensures d.stage < STAGES
  {
  }

  lemma {:induction false} NewOnTrack(w: World, completed: seq<nat>, errors: nat)
    ensures OnTrack(NewDoc(w, completed, errors))
  {
  }

  lemma {:induction false} TakeSound(w: World, s: Stage)
    requires Sound(w) && w.pipe.queues[s] != []
    ensures Sound(Next(w, Take(s)))
  {
    hide OnTrack;
  }

  ghost predicate GoodFate(f: Fate) {
    match f
    case Passed(d) => OnTrack(d)
    case Processed(d) => d.errors == 0 && d.completed == d.initial + StagesBefore(STAGES)
    case Failed(d) => d.errors > 0
    case Lost(d) => true
  }

  lemma {:induction false} FinishSound(w: World, i: nat, o: Outcome, f: Fate)
    requires Sound(w) && i < |w.held| && GoodFate(f) && (f.Passed? ==> f.doc.stage < STAGES)
    ensures Sound(Finished(w, i, o, f))
  {
    hide OnTrack, StagesBefore;
  }

  // ----- sums over the documents -----

  function TotalQueued(f: Doc -> nat, qs: seq<seq<Doc>>): nat {
    if qs == [] then 0 else TotalQueued(f, qs[..|qs| - 1]) + Total(f, qs[|qs| - 1])
  }

  lemma {:induction false} TotalQueuedUpdate(f: Doc -> nat, qs: seq<seq<Doc>>, k: nat, q: seq<Doc>)
    requires k < |qs|
    ensures TotalQueued(f, qs[k := q]) + Total(f, qs[k]) == TotalQueued(f, qs) + Total(f, q)
  {
    var n := |qs| - 1;
    if k < n {
      TotalQueuedUpdate(f, qs[..n], k, q);
      assert qs[k := q][..n] == qs[..n][k := q];
    } else {
      assert qs[k := q][..n] == qs[..n];
    }
  }

  lemma {:induction false} PutTotal(f: Doc -> nat, p: Pipe, d: Doc)
    requires d.stage < STAGES
    ensures TotalQueued(f, p.Put(d).queues) == TotalQueued(f, p.queues) + f(d)
  {
    hide Total, TotalQueued;
    TotalQueuedUpdate(f, p.queues, d.stage, p.queues[d.stage] + [d]);
    TotalPush(f, p.queues[d.stage], d);
  }

  lemma {:induction false} GetTotal(f: Doc -> nat, p: Pipe, s: Stage)
    requires p.queues[s] != []
    ensures TotalQueued(f, p.queues) == TotalQueued(f, p.Get(s).queues) + f(p.queues[s][0])
  {
    hide Total, TotalQueued;
    TotalQueuedUpdate(f, p.queues, s, p.queues[s][1..]);
    TotalRemove(f, p.queues[s], 0);
    assert Without(p.queues[s], 0) == p.queues[s][1..];
  }

  /** Over the documents that are queued or held. */
  ghost function InFlight(f: Doc -> nat, w: World): nat {
    TotalQueued(f, w.pipe.queues) + Total(f, w.held)
  }

  /** Over all documents, wherever they are. */
  ghost function Everywhere(f: Doc -> nat, w: World): nat {
    InFlight(f, w) + Total(f, w.lost) + Total(f, w.processed) + Total(f, w.failed)
  }

  /** How a handler completion moves one document. */
  lemma {:induction false} FinishMoves(f: Doc -> nat, w: World, i: nat, o: Outcome, fate: Fate)
    requires i < |w.held| && (fate.Passed? ==> fate.doc.stage < STAGES)
    ensures var w' := Finished(w, i, o, fate);
            && InFlight(f, w') + f(w.held[i]) == InFlight(f, w) + (if fate.Passed? then f(fate.doc) else 0)
            && Everywhere(f, w') + f(w.held[i]) == Everywhere(f, w) + f(fate.doc)
  {
    hide Total, TotalQueued;
    TotalRemove(f, w.held, i);
    match fate
    case Passed(d) => PutTotal(f, w.pipe, d);
    case Processed(d) => TotalPush(f, w.processed, d);
    case Failed(d) => TotalPush(f, w.failed, d);
    case Lost(d) => TotalPush(f, w.lost, d);
  }

  lemma {:induction false} OthersMove(f: Doc -> nat, w: World, e: Event)
    requires Sound(w) && Enabled(w, e) && !e.Finish?
    ensures var w' := Next(w, e);
            match e
            case Submit(c, n) =>
              InFlight(f, w') == InFlight(f, w) + f(NewDoc(w, c, n)) && Everywhere(f, w') == Everywhere(f, w) + f(NewDoc(w, c, n))
            case Take(s) => InFlight(f, w') == InFlight(f, w) && Everywhere(f, w') == Everywhere(f, w)
            case Cancel(i) => InFlight(f, w') + f(w.held[i]) == InFlight(f, w) && Everywhere(f, w') == Everywhere(f, w)
            case Finish(_, _) => true
  {
    hide Total, TotalQueued, OnTrack;
    match e
    case Submit(c, n) => PutTotal(f, w.pipe, NewDoc(w, c, n));
    case Take(s) =>
      GetTotal(f, w.pipe, s);
      TotalPush(f, w.held, w.pipe.queues[s][0]);
    case Cancel(i) =>
      TotalRemove(f, w.held, i);
      TotalPush(f, w.lost, w.held[i]);
    case Finish(_, _) =>
  }

  // ----- the laws -----

  lemma {:induction false} TotalOne(s: seq<Doc>)
    ensures Total(One(), s) == |s|
  {
    if s != [] {
      TotalOne(s[..|s| - 1]);
    }
  }

  /** One for the document with this ticket. */
  function IsTicket(t: nat): Doc -> nat {
    (d: Doc) => if d.ticket == t then 1 else 0
  }

  function One(): Doc -> nat {
    (d: Doc) => 1
  }

  /** The stages a document still has before it. */
  function Remaining(): Doc -> nat {
    (d: Doc) => if d.stage < STAGES then STAGES - d.stage else 0
  }

  /** The counters count. */
  ghost predicate Counted(w: World) {
    && w.pipe.processed == |w.processed| && w.pipe.failed == |w.failed|
    && w.submitted == w.pipe.processed + w.pipe.failed + w.pipe.inPipeline
    && w.pipe.inPipeline == InFlight(One(), w) + |w.lost|
  }

  /** Every submitted document is in exactly one place. */
  ghost predicate OncePlaced(w: World) {
    forall t: nat :: Everywhere(IsTicket(t), w) == if t < w.submitted then 1 else 0
  }

  ghost predicate Progressed(w: World) {
    |w.finishes| + InFlight(Remaining(), w) <= STAGES * w.submitted
  }

  lemma {:induction false} NextCounted(w: World, e: Event)
    requires Sound(w) && Enabled(w, e) && Counted(w)
    ensures Counted(Next(w, e))
  {
    hide Settle, InFlight, Everywhere, OnTrack;
    if e.Finish? {
      OnTrackStage(w.held[e.i]);
      SettleOnTrack(w.held[e.i], e.o);
      FinishMoves(One(), w, e.i, e.o, Settle(w.held[e.i], e.o));
    } else {
      OthersMove(One(), w, e);
    }
  }

  lemma {:induction false} NextOncePlaced(w: World, e: Event)
    requires Sound(w) && Enabled(w, e) && OncePlaced(w)
    ensures OncePlaced(Next(w, e))
  {
    hide Settle, InFlight, Everywhere, OnTrack;
    forall t: nat ensures Everywhere(IsTicket(t), Next(w, e)) == if t < Next(w, e).submitted then 1 else 0 {
      assert Everywhere(IsTicket(t), w) == if t < w.submitted then 1 else 0;
      if e.Finish? {
        OnTrackStage(w.held[e.i]);
        SettleOnTrack(w.held[e.i], e.o);
        FinishMoves(IsTicket(t), w, e.i, e.o, Settle(w.held[e.i], e.o));
      } else {
        OthersMove(IsTicket(t), w, e);
      }
    }
  }

  lemma {:induction false} NextProgressed(w: World, e: Event)
    requires Sound(w) && Enabled(w, e) && Progressed(w)
    ensures Progressed(Next(w, e))
  {
    hide Settle, InFlight, Everywhere;
    if e.Finish? {
      SettleOnTrack(w.held[e.i], e.o);
      FinishMoves(Remaining(), w, e.i, e.o, Settle(w.held[e.i], e.o));
    } else {
      OthersMove(Remaining(), w, e);
    }
  }

  ghost predicate Reaches(events: seq<Event>, w: World) {
    if events == [] then w == Start
    else
      var n := |events| - 1;
      exists v :: Reaches(events[..n], v) && Enabled(v, events[n]) && w == Next(v, events[n])
  }

  lemma {:induction false} Invariants(events: seq<Event>, w: World)
    requires Reaches(events, w)
    ensures Sound(w) && Counted(w) && OncePlaced(w) && Progressed(w)
  {
    hide Sound, Counted, OncePlaced, Progressed, Next, Enabled;
    if events == [] {
      StartLaws();
    } else {
      var n := |events| - 1;
      var v :| Reaches(events[..n], v) && Enabled(v, events[n]) && w == Next(v, events[n]);
      Invariants(events[..n], v);
      NextSound(v, events[n]);
      NextCounted(v, events[n]);
      NextOncePlaced(v, events[n]);
      NextProgressed(v, events[n]);
    }
  }

  lemma {:induction false} NoneQueued(f: Doc -> nat, qs: seq<seq<Doc>>)
    requires forall k :: 0 <= k < |qs| ==> qs[k] == []
    ensures TotalQueued(f, qs) == 0
  {
    if qs != [] {
      NoneQueued(f, qs[..|qs| - 1]);
    }
  }

  lemma {:induction false} StartLaws()
    ensures Sound(Start) && Counted(Start) && OncePlaced(Start) && Progressed(Start)
  {
    hide Sound, Counted, OncePlaced, Progressed;
    StartSound();
    StartCounted();
    StartOncePlaced();
  }

  lemma {:induction false} StartCounted()
    ensures Counted(Start) && Progressed(Start)
  {
    hide InFlight, Everywhere;
    StartEmpty(One());
    StartEmpty(Remaining());
  }

  lemma {:induction false} StartOncePlaced()
    ensures OncePlaced(Start)
  {
    hide InFlight, Everywhere;
    forall t: nat ensures Everywhere(IsTicket(t), Start) == 0 {
      StartEmpty(IsTicket(t));
    }
  }

  lemma {:induction false} StartSound()
    ensures Sound(Start)
  {
    assert forall k :: 0 <= k < STAGES ==> NoDocs[k] == [];
  }

  lemma {:induction false} StartEmpty(f: Doc -> nat)
    ensures InFlight(f, Start) == 0 && Everywhere(f, Start) == 0
  {
    NoneQueued(f, NoDocs);
  }

  /**
   Over every interleaving and every behaviour of the handlers: submitted documents are
   processed, failed or in the pipeline, and the last are queued, held, or lost to
   cancellation or a handler that returned no document; and each is in one place only.
   */
  lemma {:induction false} Conservation(events: seq<Event>, w: World, t: nat)
    requires Reaches(events, w)
    ensures w.submitted == w.pipe.processed + w.pipe.failed + w.pipe.inPipeline
    ensures w.pipe.inPipeline == TotalQueued(One(), w.pipe.queues) + |w.held| + |w.lost|
    ensures w.pipe.processed == |w.processed| && w.pipe.failed == |w.failed|
    ensures Everywhere(IsTicket(t), w) == if t < w.submitted then 1 else 0
  {
    Invariants(events, w);
    TotalOne(w.held);
  }

  /** A document waiting at stage `k` has completed exactly the stages before `k`, in order; a processed one all six. */
  lemma {:induction false} StageOrder(events: seq<Event>, w: World, k: nat, i: nat)
    requires Reaches(events, w)
    ensures k < STAGES && i < |w.pipe.queues[k]| ==>
              w.pipe.queues[k][i].completed == w.pipe.queues[k][i].initial + StagesBefore(k)
    ensures i < |w.processed| ==>
              w.processed[i].errors == 0 && w.processed[i].completed == w.processed[i].initial + StagesBefore(STAGES)
    ensures i < |w.failed| ==> w.failed[i].errors > 0
  {
    Invariants(events, w);
  }

  /** `n` documents need at most `6 n` handler completions, and when nothing is queued or held all have been settled or lost. */
  lemma {:induction false} SettlesWithin(events: seq<Event>, w: World)
    requires Reaches(events, w)
    ensures |w.finishes| <= STAGES * w.submitted
    ensures w.held == [] && (forall k :: 0 <= k < |w.pipe.queues| ==> w.pipe.queues[k] == []) ==>
              w.submitted == |w.processed| + |w.failed| + |w.lost|
  {
    Invariants(events, w);
    if w.held == [] && (forall k :: 0 <= k < |w.pipe.queues| ==> w.pipe.queues[k] == []) {
      NoneQueued(One(), w.pipe.queues);
    }
  }

  // ----- which outcome leads where -----

  function Cancels(events: seq<Event>): nat {
    if events == [] then 0
    else Cancels(events[..|events| - 1]) + if events[|events| - 1].Cancel? then 1 else 0
  }

  /** Handlers that returned no document. */
  function IsGarbage(): Completion -> nat {
    (c: Completion) => if c.o.Garbage? then 1 else 0
  }

  /** Handlers that raised, or left errors in the document. */
  function IsFailure(): Completion -> nat {
    (c: Completion) => if c.o.Raised? || (c.o.Returned? && c.o.errors > 0) then 1 else 0
  }

  /** Handlers of the last of the six stages that returned a document without errors. */
  function IsLast(): Completion -> nat {
    (c: Completion) => if c.o.Returned? && c.o.errors == 0 && c.stage == 5 then 1 else 0
  }

  ghost predicate Accounted(events: seq<Event>, w: World) {
    && |w.lost| == Cancels(events) + Total(IsGarbage(), w.finishes)
    && |w.failed| == Total(IsFailure(), w.finishes)
    && |w.processed| == Total(IsLast(), w.finishes)
  }

  lemma {:induction false} FinishAccounted(w: World, i: nat, o: Outcome)
    requires i < |w.held| && w.held[i].stage < STAGES
    ensures var w', c := Next(w, Finish(i, o)), Completion(w.held[i].stage, o);
            && w'.finishes == w.finishes + [c]
            && |w'.lost| == |w.lost| + IsGarbage()(c)
            && |w'.failed| == |w.failed| + IsFailure()(c)
            && |w'.processed| == |w.processed| + IsLast()(c)
  {
  }

  lemma {:induction false} NextAccounted(events: seq<Event>, w: World, e: Event)
    requires Sound(w) && Enabled(w, e) && Accounted(events, w)
    ensures Accounted(events + [e], Next(w, e))
  {
    hide Total, OnTrack;
    assert (events + [e])[..|events|] == events;
    if e.Finish? {
      var c := Completion(w.held[e.i].stage, e.o);
      OnTrackStage(w.held[e.i]);
      FinishAccounted(w, e.i, e.o);
      TotalPush(IsGarbage(), w.finishes, c);
      TotalPush(IsFailure(), w.finishes, c);
      TotalPush(IsLast(), w.finishes, c);
    }
  }

  /**
   In every run: lost is who was cancelled or whose handler returned no document; failed is
   whose handler raised or left errors; processed is whose sixth handler returned without.
   The pipeline's own counters say the same.
   */
  lemma {:induction false} FatesByOutcome(events: seq<Event>, w: World)
    requires Reaches(events, w)
    ensures |w.lost| == Cancels(events) + Total(IsGarbage(), w.finishes)
    ensures |w.failed| == w.pipe.failed == Total(IsFailure(), w.finishes)
    ensures |w.processed| == w.pipe.processed == Total(IsLast(), w.finishes)
  {
    Invariants(events, w);
    RunAccounted(events, w);
  }

  lemma {:induction false} RunAccounted(events: seq<Event>, w: World)
    requires Reaches(events, w)
    ensures Accounted(events, w)
  {
    hide Next, Enabled, Sound;
    if events != [] {
      var n := |events| - 1;
      var v :| Reaches(events[..n], v) && Enabled(v, events[n]) && w == Next(v, events[n]);
      RunAccounted(events[..n], v);
      Invariants(events[..n], v);
      hide Accounted;
      NextAccounted(events[..n], v, events[n]);
      assert events[..n] + [events[n]] == events;
    }
  }

  /**
   Where the document itself goes, in every run. Without errors it joins the end of the next
   stage's queue with its stage completed, or is processed; with errors, or one more if the
   handler raised, it fails; without a document it is lost as it was. In the last two cases
   nothing else of the pipeline moves, and in the first only that queue.
   */
  lemma {:induction false} OutcomeMoves(events: seq<Event>, w: World, i: nat, o: Outcome)
    requires Reaches(events, w) && i < |w.held|
    ensures var d, w' := w.held[i], Next(w, Finish(i, o));
            && w'.held == w.held[..i] + w.held[i + 1..]
            && match o
               case Garbage => w'.pipe == w.pipe && w'.lost == w.lost + [d]
               case Raised(n) => w'.pipe.queues == w.pipe.queues && w'.failed == w.failed + [d.(errors := n + 1)]
               case Returned(n) =>
                 var d' := d.(completed := d.completed + [d.stage], errors := n);
                 if n > 0 then w'.pipe.queues == w.pipe.queues && w'.failed == w.failed + [d']
                 else if d.stage == 5 then w'.pipe.queues == w.pipe.queues && w'.processed == w.processed + [d']
                 else
                   && d.stage < 5
                   && w'.pipe == w.pipe.(queues := w.pipe.queues[d.stage + 1 :=
                        w.pipe.queues[d.stage + 1] + [d'.(stage := d.stage + 1)]])
  {
    Invariants(events, w);
    OnTrackStage(w.held[i]);
  }

  // ----- first in, first out -----

  /** Those of one stage, in order. */
  function OfStage(docs: seq<Doc>, s: nat): seq<Doc> {
    if docs == [] then []
    else
      var d := docs[|docs| - 1];
      OfStage(docs[..|docs| - 1], s) + if d.stage == s then [d] else []
  }

  ghost predicate InOrder(w: World) {
    forall s :: 0 <= s < STAGES ==> OfStage(w.joined, s) == OfStage(w.taken, s) + w.pipe.queues[s]
  }

  lemma {:induction false} OneMoreOfStage(docs: seq<Doc>, d: Doc, s: nat)
    ensures OfStage(docs + [d], s) == OfStage(docs, s) + if d.stage == s then [d] else []
  {
    assert (docs + [d])[..|docs|] == docs;
  }

  lemma {:induction false} JoinInOrder(w: World, d: Doc, w': World)
    requires InOrder(w) && d.stage < STAGES
    requires w'.joined == w.joined + [d] && w'.taken == w.taken
    requires w'.pipe.queues == w.pipe.Put(d).queues
    ensures InOrder(w')
  {
    hide OfStage;
    forall s | 0 <= s < STAGES ensures OfStage(w'.joined, s) == OfStage(w'.taken, s) + w'.pipe.queues[s] {
      OneMoreOfStage(w.joined, d, s);
      assert OfStage(w.taken, s) + w.pipe.queues[s] + [d] == OfStage(w.taken, s) + (w.pipe.queues[s] + [d]);
    }
  }

  lemma {:induction false} TakeInOrder(w: World, k: Stage)
    requires Sound(w) && InOrder(w) && w.pipe.queues[k] != []
    ensures InOrder(Next(w, Take(k)))
  {
    hide OfStage, OnTrack;
    var w', d := Next(w, Take(k)), w.pipe.queues[k][0];
    assert d.stage == k;
    forall s | 0 <= s < STAGES ensures OfStage(w'.joined, s) == OfStage(w'.taken, s) + w'.pipe.queues[s] {
      OneMoreOfStage(w.taken, d, s);
      if s == k {
        assert w.pipe.queues[k] == [d] + w'.pipe.queues[k];
        assert OfStage(w.taken, s) + ([d] + w'.pipe.queues[k]) == OfStage(w.taken, s) + [d] + w'.pipe.queues[k];
      }
    }
  }

  lemma {:induction false} NextInOrder(w: World, e: Event)
    requires Sound(w) && Enabled(w, e) && InOrder(w)
    ensures InOrder(Next(w, e))
  {
    hide OnTrack, InOrder;
    match e
    case Submit(c, n) => JoinInOrder(w, NewDoc(w, c, n), Next(w, e));
    case Take(s) => TakeInOrder(w, s);
    case Finish(i, o) =>
      OnTrackStage(w.held[i]);
      var f := Settle(w.held[i], o);
      if f.Passed? {
        JoinInOrder(w, f.doc, Next(w, e));
      } else {
        SameInOrder(w, Next(w, e));
      }
    case Cancel(i) => SameInOrder(w, Next(w, e));
  }

  lemma {:induction false} SameInOrder(w: World, w': World)
    requires InOrder(w) && w'.joined == w.joined && w'.taken == w.taken && w'.pipe.queues == w.pipe.queues
    ensures InOrder(w')
  {
  }

  /** In every run the documents of a stage are taken in the order in which they joined its queue. */
  lemma {:induction false} FirstInFirstOut(events: seq<Event>, w: World, s: Stage)
    requires Reaches(events, w)
    ensures OfStage(w.joined, s) == OfStage(w.taken, s) + w.pipe.queues[s]
  {
    hide Reaches;
    RunInOrder(events, w);
  }

  lemma {:induction false} RunInOrder(events: seq<Event>, w: World)
    requires Reaches(events, w)
    ensures InOrder(w)
  {
    hide Next, Enabled, Sound;
    if events == [] {
      assert forall s :: 0 <= s < STAGES ==> NoDocs[s] == [];
    } else {
      var n := |events| - 1;
      var v :| Reaches(events[..n], v) && Enabled(v, events[n]) && w == Next(v, events[n]);
      RunInOrder(events[..n], v);
      Invariants(events[..n], v);
      hide InOrder;
      NextInOrder(v, events[n]);
    }
  }
}
