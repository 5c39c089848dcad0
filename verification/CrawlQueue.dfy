/** The order of the queue in every interleaving, and where its scores come from. */
module CrawlQueue {
  import opened Common
  import opened UrlNormal
  import opened Frontier
  import opened Scheduler
  import opened Crawl

  /**
   In every interleaving the queue has every URL once, the smaller score first and, among equal
   scores, the URL that precedes.
   */
  lemma {:induction false} QueueInOrder(cfg: Config, t0: real, events: seq<Event>, i: nat, j: nat)
    requires i < j < |Run(cfg, t0, events).r.queue|
    ensures var q := Run(cfg, t0, events).r.queue;
            && q[i].url != q[j].url && q[i].score <= q[j].score
            && (q[i].score == q[j].score ==> Precedes(q[i].url, q[j].url))
  {
    hide Run;
    Invariants(cfg, t0, events);
    RankedOrder(Run(cfg, t0, events).r.queue, i, j);
  }

  /** The score of an add: minus the priority that its caller gave, or 100 and 50 for the two re-queues. */
  ghost predicate WasAsked(cfg: Config, events: seq<Event>, url: string, score: real) {
    || (exists i :: 0 <= i < |events| && AsksFor(cfg, events[i], url, score))
    || score == 100.0 || score == 50.0
  }

  predicate AsksFor(cfg: Config, e: Event, url: string, score: real) {
    e.Add? && cfg.norm(e.url) == url && score == -e.priority
  }

  ghost predicate AllAsked(cfg: Config, events: seq<Event>, w: World) {
    && (forall k :: 0 <= k < |w.adds| ==> WasAsked(cfg, events, w.adds[k].url, w.adds[k].score))
    && (forall x :: x in w.r.queue ==> WasAsked(cfg, events, x.url, x.score))
  }

  lemma {:induction false} StillAsked(cfg: Config, events: seq<Event>, e: Event, url: string, score: real)
    requires WasAsked(cfg, events, url, score) || AsksFor(cfg, e, url, score)
    ensures WasAsked(cfg, events + [e], url, score)
  {
    hide AsksFor;
    var all := events + [e];
    if exists i :: 0 <= i < |events| && AsksFor(cfg, events[i], url, score) {
      var i :| 0 <= i < |events| && AsksFor(cfg, events[i], url, score);
      assert all[i] == events[i];
    } else if AsksFor(cfg, e, url, score) {
      assert all[|events|] == e;
    }
  }

  /** Where the adds and entries after a step come from. */
  ghost predicate Carried(cfg: Config, w: World, w': World, e: Event) {
    && (forall k :: 0 <= k < |w'.adds| ==>
          || (exists j :: 0 <= j < |w.adds| && SameAdd(w.adds[j], w'.adds[k]))
          || AsksFor(cfg, e, w'.adds[k].url, w'.adds[k].score)
          || w'.adds[k].score == 100.0 || w'.adds[k].score == 50.0)
    && (forall x :: x in w'.r.queue ==>
          x in w.r.queue || exists j :: 0 <= j < |w.adds| && w.adds[j].url == x.url && w.adds[j].score == x.score)
  }

  predicate SameAdd(a: AddOp, b: AddOp) {
    a.url == b.url && a.score == b.score
  }

  lemma {:induction false} CheckedCarried(cfg: Config, w: World, k: nat, e: Event)
    requires k < |w.adds| && w.adds[k].phase.Checking?
    ensures Carried(cfg, w, Checked(cfg, w, k), e)
  {
    CheckedUrls(cfg, w, k);
    CheckedFrame(cfg, w, k);
    hide Checked, AsksFor;
    var w' := Checked(cfg, w, k);
    forall i | 0 <= i < |w'.adds| ensures exists j :: 0 <= j < |w.adds| && SameAdd(w.adds[j], w'.adds[i]) {
      assert SameAdd(w.adds[if |w'.adds| == |w.adds| || i < k then i else i + 1], w'.adds[i]);
    }
  }

  lemma {:induction false} AddStepCarried(cfg: Config, w: World, k: nat, e: Event)
    requires k < |w.adds|
    ensures Carried(cfg, w, AddStepped(cfg, w, k), e)
  {
    hide AsksFor, ZAdd, Checked, Total, ListOf, Marks;
    var w', op := AddStepped(cfg, w, k), w.adds[k];
    if op.phase.Checking? {
      CheckedCarried(cfg, w, k, e);
    } else {
      forall i | 0 <= i < |w'.adds| ensures exists j :: 0 <= j < |w.adds| && SameAdd(w.adds[j], w'.adds[i]) {
        assert SameAdd(w.adds[if |w'.adds| == |w.adds| || i < k then i else i + 1], w'.adds[i]);
      }
      if op.phase == Queueing {
        forall x | x in w'.r.queue && x !in w.r.queue ensures x == Entry(op.url, op.score) {
          ZAddHolds(w.r.queue, op.url, op.score, x);
        }
      }
    }
  }

  lemma {:induction false} FetchCarried(cfg: Config, w: World, e: Event)
    requires Enabled(cfg, w, e) && (e.Scan? || e.Look? || e.Decide? || e.Pull? || e.Unlist? || e.Stamp?)
    ensures Carried(cfg, w, Fetched(cfg, w, e), e)
  {
    hide AsksFor, ZRem, Candidates, Top, ListOf, RemoveFirst, InList, DelayOf;
    var w' := Fetched(cfg, w, e);
    forall i | 0 <= i < |w'.adds| ensures exists j :: 0 <= j < |w.adds| && SameAdd(w.adds[j], w'.adds[i]) {
      assert SameAdd(w.adds[i], w'.adds[i]);
    }
    if e.Pull? {
      forall x | x in w'.r.queue ensures x in w.r.queue {
        ZRemHolds(w.r.queue, w.fetch.url, x);
      }
    }
  }

  /** At most one add is new, with the score it was asked for. */
  ghost predicate OneMore(cfg: Config, w: World, w': World, e: Event) {
    && w'.r.queue == w.r.queue
    && (w'.adds == w.adds ||
        exists op: AddOp ::
          && w'.adds == w.adds + [op]
          && (AsksFor(cfg, e, op.url, op.score) || op.score == 100.0 || op.score == 50.0))
  }

  lemma {:induction false} OtherAdds(cfg: Config, w: World, e: Event)
    requires Enabled(cfg, w, e) && (e.Add? || e.Begin? || e.Judge? || e.StoreDelay? || e.NoteDelay?)
    ensures OneMore(cfg, w, Next(cfg, w, e), e)
  {
    hide Ended, Begun, Noted, Asked, StateOf, Clamp, Renamed, Throttled;
  }

  lemma {:induction false} OtherCarried(cfg: Config, w: World, w': World, e: Event)
    requires OneMore(cfg, w, w', e)
    ensures Carried(cfg, w, w', e)
  {
    hide AsksFor;
    forall i | 0 <= i < |w.adds| ensures exists j :: 0 <= j < |w.adds| && SameAdd(w.adds[j], w'.adds[i]) {
      assert SameAdd(w.adds[i], w'.adds[i]);
    }
  }

  lemma {:induction false} NextCarried(cfg: Config, w: World, e: Event)
    requires Enabled(cfg, w, e)
    ensures Carried(cfg, w, Next(cfg, w, e), e)
  {
    hide Carried, OneMore, AddStepped, Fetched, Started, Stopped, Stored, NotedBy;
    match e
    case AddStep(k) => AddStepCarried(cfg, w, k, e);
    case Add(_, _) => OtherAdds(cfg, w, e); OtherCarried(cfg, w, Next(cfg, w, e), e);
    case Begin(_, _) => OtherAdds(cfg, w, e); OtherCarried(cfg, w, Next(cfg, w, e), e);
    case Judge(_, _, _) => OtherAdds(cfg, w, e); OtherCarried(cfg, w, Next(cfg, w, e), e);
    case StoreDelay(_) => OtherAdds(cfg, w, e); OtherCarried(cfg, w, Next(cfg, w, e), e);
    case NoteDelay(_) => OtherAdds(cfg, w, e); OtherCarried(cfg, w, Next(cfg, w, e), e);
    case _ => FetchCarried(cfg, w, e);
  }

  lemma {:induction false} CarriedAsked(cfg: Config, events: seq<Event>, w: World, w': World, e: Event)
    requires AllAsked(cfg, events, w) && Carried(cfg, w, w', e)
    ensures AllAsked(cfg, events + [e], w')
  {
    hide WasAsked, AsksFor;
    forall k | 0 <= k < |w'.adds| ensures WasAsked(cfg, events + [e], w'.adds[k].url, w'.adds[k].score) {
      var op := w'.adds[k];
      if op.score == 100.0 || op.score == 50.0 {
        assert WasAsked(cfg, events + [e], op.url, op.score) by { Requeued(cfg, events + [e], op.url, op.score); }
      } else {
        StillAsked(cfg, events, e, op.url, op.score);
      }
    }
    forall x | x in w'.r.queue ensures WasAsked(cfg, events + [e], x.url, x.score) {
      StillAsked(cfg, events, e, x.url, x.score);
    }
  }

  lemma {:induction false} Requeued(cfg: Config, events: seq<Event>, url: string, score: real)
    requires score == 100.0 || score == 50.0
    ensures WasAsked(cfg, events, url, score)
  {
  }

  /**
   In every interleaving, every queued URL, and every add under way, has the score of an add of
   a URL with this normal form, minus its priority; or that of the two re-queues, for a blocked
   domain and after a 429.
   */
  lemma {:induction false} ScoresWereAsked(cfg: Config, t0: real, events: seq<Event>)
    ensures AllAsked(cfg, events, Run(cfg, t0, events))
  {
    hide Next, Enabled, WasAsked;
    if events != [] {
      var n := |events| - 1;
      var w, e := Run(cfg, t0, events[..n]), events[n];
      ScoresWereAsked(cfg, t0, events[..n]);
      assert events[..n] + [e] == events;
      hide AllAsked, Carried;
      if Enabled(cfg, w, e) {
        NextCarried(cfg, w, e);
        CarriedAsked(cfg, events[..n], w, Next(cfg, w, e), e);
      } else {
        SameCarried(cfg, w, e);
        CarriedAsked(cfg, events[..n], w, w, e);
      }
    }
  }

  lemma {:induction false} SameCarried(cfg: Config, w: World, e: Event)
    ensures Carried(cfg, w, w, e)
  {
    forall k | 0 <= k < |w.adds| ensures exists j :: 0 <= j < |w.adds| && SameAdd(w.adds[j], w.adds[k]) {
      assert SameAdd(w.adds[k], w.adds[k]);
    }
  }
}
