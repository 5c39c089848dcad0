/**
 Keyed writes: an upsert on a unique idempotency key, retried on transient errors, by any
 number of callers at once. One attempt against the store is one atomic step; the error a
 caller sees may come before or after the write took effect.
 */
module KeyedWrites {
  import opened Common

  type Key = string

  datatype Doc = Doc(id: string, key: Key, body: string)

  /** The document with a key: what the filter of the upsert finds. */
  function Lookup(docs: seq<Doc>, key: Key): (r: Option<Doc>)
    ensures r.Some? ==> r.value in docs && r.value.key == key
    ensures r.None? ==> forall i :: 0 <= i < |docs| ==> docs[i].key != key
  {
    if docs == [] then None
    else if docs[0].key == key then Some(docs[0])
    else Lookup(docs[1..], key)
  }

  predicate HasId(docs: seq<Doc>, id: string) {
    exists i :: 0 <= i < |docs| && docs[i].id == id
  }

  /** `find_one_and_update` with `$setOnInsert`: `None` is the duplicate-key error of the primary key. */
  function Upserted(docs: seq<Doc>, d: Doc): (seq<Doc>, Option<Doc>) {
    if Lookup(docs, d.key).Some? then (docs, Lookup(docs, d.key))
    else if HasId(docs, d.id) then (docs, None)
    else (docs + [d], Some(d))
  }

  /**
   What happens to one attempt: nothing, or an error before or after the write took effect.
   `marker` says whether a duplicate-key error, whose text quotes the key, would be taken for
   a transient one.
   */
  datatype Fault = Clean(marker: bool) | Error(applied: bool, transient: bool)

  datatype Status = Waiting(left: int) | Returned(doc: Doc) | Raised

  /** How an attempt changes the store, and what its caller learns. */
  function Attempt(docs: seq<Doc>, d: Doc, left: int, f: Fault): (seq<Doc>, Status) {
    var (docs', found) := Upserted(docs, d);
    match f
    case Clean(marker) => (docs', if found.Some? then Returned(found.value) else Failed(left, marker))
    case Error(applied, transient) => (if applied then docs' else docs, Failed(left, transient))
  }

  /** The caller after an error: it waits for another attempt, or gives up. */
  function Failed(left: int, transient: bool): Status {
    if transient && left > 1 then Waiting(left - 1) else Raised
  }

  /** A call of `_write_with_retry` with nobody else around. */
  function Attempts(docs: seq<Doc>, d: Doc, s: Status, faults: seq<Fault>): (seq<Doc>, Status)
    decreases |faults|
  {
    if !s.Waiting? || faults == [] then (docs, s)
    else
      var (docs', s') := Attempt(docs, d, s.left, faults[0]);
      Attempts(docs', d, s', faults[1..])
  }

  function Begin(maxAttempts: int): Status {
    if maxAttempts > 0 then Waiting(maxAttempts) else Raised
  }

  class Collection {
    var docs: seq<Doc>

    method FindOneAndUpdate(d: Doc) returns (found: Option<Doc>)
      modifies this
      ensures (docs, found) == Upserted(old(docs), d)
    {
      found := Lookup(docs, d.key);
      if found.None? && !HasId(docs, d.id) {
        docs := docs + [d];
        found := Some(d);
      }
    }

    /** The retry loop; `faults[i]` is what befalls attempt `i`. */
    method WriteWithRetry(d: Doc, maxAttempts: int, faults: seq<Fault>) returns (result: Option<Doc>)
      requires |faults| == Max(0, maxAttempts)
      modifies this
      ensures (docs, if result.Some? then Returned(result.value) else Raised)
           == Attempts(old(docs), d, Begin(maxAttempts), faults)
    {
      ghost var goal := Attempts(docs, d, Begin(maxAttempts), faults);
      assert faults[0..] == faults;
      for attempt := 0 to |faults|
        invariant attempt < |faults| || |faults| == 0
        invariant goal == Attempts(docs, d, Begin(maxAttempts - attempt), faults[attempt..])
      {
        assert faults[attempt..][1..] == faults[attempt + 1..];
        var transient := true;
        match faults[attempt] {
          case Clean(marker) =>
            result := FindOneAndUpdate(d);
            if result.Some? {
              return;
            }
            transient := marker;
          case Error(applied, seemsTransient) =>
            if applied {
              var _ := FindOneAndUpdate(d);
            }
            transient := seemsTransient;
        }
        if !transient || attempt >= maxAttempts - 1 {
          return None;
        }
      }
      return None;
    }
  }

  // ----- any interleaving of callers -----

  /**
   A finished caller remembers how often its key had been deleted when it got its answer; all
   remember how many attempts they were allowed and what befell each.
   */
  datatype Caller = Caller(doc: Doc, status: Status, epoch: nat, limit: int, faults: seq<Fault>)

  datatype Write = Write(doc: Doc, epoch: nat)

  /** The store, its callers, and the log of writes that took effect, whatever their callers were told. */
  datatype World = World(docs: seq<Doc>, callers: seq<Caller>, deletes: seq<Key>, applied: seq<Write>)

  const Start := World([], [], [], [])

  datatype Event = Call(doc: Doc, maxAttempts: int) | Try(i: nat, fault: Fault) | Delete(key: Key)

  function Epoch(deletes: seq<Key>, key: Key): nat {
    if deletes == [] then 0
    else Epoch(deletes[..|deletes| - 1], key) + if deletes[|deletes| - 1] == key then 1 else 0
  }

  function Without(docs: seq<Doc>, key: Key): seq<Doc> {
    if docs == [] then []
    else if docs[0].key == key then Without(docs[1..], key)
    else [docs[0]] + Without(docs[1..], key)
  }

  function TookEffect(docs: seq<Doc>, d: Doc, f: Fault): bool {
    (f.Clean? || f.applied) && Upserted(docs, d).1.Some?
  }

  function Tried(w: World, i: nat, f: Fault): World
    requires i < |w.callers| && w.callers[i].status.Waiting?
  {
    var c := w.callers[i];
    var e := Epoch(w.deletes, c.doc.key);
    var (docs', s') := Attempt(w.docs, c.doc, c.status.left, f);
    w.(docs := docs', callers := w.callers[i := Caller(c.doc, s', e, c.limit, c.faults + [f])],
       applied := if TookEffect(w.docs, c.doc, f) then w.applied + [Write(c.doc, e)] else w.applied)
  }

  function Next(w: World, e: Event): World {
    match e
    case Call(doc, maxAttempts) =>
      w.(callers := w.callers + [Caller(doc, Begin(maxAttempts), 0, maxAttempts, [])])
    case Try(i, fault) =>
      if i < |w.callers| && w.callers[i].status.Waiting? then Tried(w, i, fault) else w
    case Delete(key) =>
      w.(docs := Without(w.docs, key), deletes := w.deletes + [key])
  }

  function Run(events: seq<Event>): World {
    if events == [] then Start else Next(Run(events[..|events| - 1]), events[|events| - 1])
  }

  /** The first write for a key that took effect between two of its deletions. */
  function FirstWrite(applied: seq<Write>, key: Key, epoch: nat): Option<Doc> {
    if applied == [] then None
    else
      var n := |applied| - 1;
      var before := FirstWrite(applied[..n], key, epoch);
      if before.None? && applied[n].doc.key == key && applied[n].epoch == epoch
      then Some(applied[n].doc) else before
  }

  ghost predicate UniqueKeys(docs: seq<Doc>) {
    forall i, j :: 0 <= i < j < |docs| ==> docs[i].key != docs[j].key && docs[i].id != docs[j].id
  }

  /** The stored document of every key is the first write of its epoch. */
  ghost predicate FirstWins(w: World) {
    forall key :: Lookup(w.docs, key) == FirstWrite(w.applied, key, Epoch(w.deletes, key))
  }

  ghost predicate PastEpochs(w: World) {
    forall i :: 0 <= i < |w.applied| ==> w.applied[i].epoch <= Epoch(w.deletes, w.applied[i].doc.key)
  }

  /** A caller that was given a document was given the first write of the epoch it was answered in. */
  ghost predicate Answered(w: World) {
    forall i :: 0 <= i < |w.callers| && w.callers[i].status.Returned? ==>
      var c := w.callers[i];
      FirstWrite(w.applied, c.doc.key, c.epoch) == Some(c.status.doc)
  }

  // ----- lookups -----

  lemma {:induction false} LookupAppend(docs: seq<Doc>, d: Doc, key: Key)
    ensures Lookup(docs + [d], key) ==
              if Lookup(docs, key).Some? then Lookup(docs, key) else if d.key == key then Some(d) else None
  {
    if docs == [] {
      assert [] + [d] == [d];
    } else {
      LookupAppend(docs[1..], d, key);
      assert (docs + [d])[1..] == docs[1..] + [d];
    }
  }

  lemma {:induction false} LookupWithout(docs: seq<Doc>, gone: Key, key: Key)
    ensures Lookup(Without(docs, gone), key) == if key == gone then None else Lookup(docs, key)
  {
    if docs != [] {
      LookupWithout(docs[1..], gone, key);
    }
  }

  lemma {:induction false} WithoutUnique(docs: seq<Doc>, key: Key)
    requires UniqueKeys(docs)
    ensures UniqueKeys(Without(docs, key))
    ensures forall d :: d in Without(docs, key) ==> d in docs
  {
    if docs != [] {
      var rest := docs[1..];
      assert docs == [docs[0]] + rest;
      WithoutUnique(rest, key);
      forall d | d in Without(rest, key) ensures docs[0].key != d.key && docs[0].id != d.id {
        var i :| 0 <= i < |rest| && rest[i] == d;
        assert docs[i + 1] == d;
      }
    }
  }

  lemma {:induction false} FirstAppend(applied: seq<Write>, w: Write, key: Key, epoch: nat)
    ensures FirstWrite(applied + [w], key, epoch) ==
              if FirstWrite(applied, key, epoch).Some? then FirstWrite(applied, key, epoch)
              else if w.doc.key == key && w.epoch == epoch then Some(w.doc) else None
  {
    assert (applied + [w])[..|applied|] == applied;
  }

  lemma {:induction false} NoFirstYet(applied: seq<Write>, key: Key, epoch: nat)
    requires forall i :: 0 <= i < |applied| ==> applied[i].doc.key == key ==> applied[i].epoch < epoch
    ensures FirstWrite(applied, key, epoch) == None
  {
    if applied != [] {
      NoFirstYet(applied[..|applied| - 1], key, epoch);
    }
  }

  lemma {:induction false} EpochAppend(deletes: seq<Key>, gone: Key, key: Key)
    ensures Epoch(deletes + [gone], key) == Epoch(deletes, key) + if gone == key then 1 else 0
  {
    assert (deletes + [gone])[..|deletes|] == deletes;
  }

  // ----- every step keeps the invariants -----

  ghost predicate Inv(w: World) {
    UniqueKeys(w.docs) && FirstWins(w) && PastEpochs(w) && Answered(w)
  }

  /** How an effective write changes store and log: the store takes it only if the log had none for this epoch. */
  lemma {:induction false} EffectiveWrite(w: World, d: Doc, e: nat)
    requires FirstWins(w) && e == Epoch(w.deletes, d.key) && Upserted(w.docs, d).1.Some?
    ensures FirstWins(w.(docs := Upserted(w.docs, d).0, applied := w.applied + [Write(d, e)]))
    ensures FirstWrite(w.applied + [Write(d, e)], d.key, e) == Upserted(w.docs, d).1
  {
    hide FirstWrite, Epoch, Lookup;
    var w' := w.(docs := Upserted(w.docs, d).0, applied := w.applied + [Write(d, e)]);
    forall key ensures Lookup(w'.docs, key) == FirstWrite(w'.applied, key, Epoch(w'.deletes, key)) {
      LookupAppend(w.docs, d, key);
      FirstAppend(w.applied, Write(d, e), key, Epoch(w.deletes, key));
      assert Lookup(w.docs, key) == FirstWrite(w.applied, key, Epoch(w.deletes, key));
    }
    FirstAppend(w.applied, Write(d, e), d.key, e);
    assert Lookup(w.docs, d.key) == FirstWrite(w.applied, d.key, e);
  }

  lemma {:induction false} UpsertUnique(docs: seq<Doc>, d: Doc)
    requires UniqueKeys(docs)
    ensures UniqueKeys(Upserted(docs, d).0)
  {
  }

  /** Answers already given stay right when the log grows. */
  lemma {:induction false} AnsweredGrows(w: World, x: Write)
    requires Answered(w)
    ensures Answered(w.(applied := w.applied + [x]))
  {
    hide FirstWrite;
    forall i | 0 <= i < |w.callers| && w.callers[i].status.Returned?
      ensures FirstWrite(w.applied + [x], w.callers[i].doc.key, w.callers[i].epoch) == Some(w.callers[i].status.doc)
    {
      FirstAppend(w.applied, x, w.callers[i].doc.key, w.callers[i].epoch);
    }
  }

  lemma {:induction false} TryInv(w: World, i: nat, f: Fault)
    requires Inv(w) && i < |w.callers| && w.callers[i].status.Waiting?
    ensures Inv(Tried(w, i, f))
  {
    hide FirstWrite, Epoch, UniqueKeys, Lookup, FirstWins;
    var d := w.callers[i].doc;
    var e := Epoch(w.deletes, d.key);
    UpsertUnique(w.docs, d);
    if TookEffect(w.docs, d, f) {
      EffectiveWrite(w, d, e);
      AnsweredGrows(w, Write(d, e));
      FirstWinsFrame(w.(docs := Upserted(w.docs, d).0, applied := w.applied + [Write(d, e)]), Tried(w, i, f));
    } else {
      assert Tried(w, i, f).docs == w.docs;
      FirstWinsFrame(w, Tried(w, i, f));
    }
  }

  lemma {:induction false} FirstWinsFrame(v: World, w: World)
    requires FirstWins(v) && v.docs == w.docs && v.applied == w.applied && v.deletes == w.deletes
    ensures FirstWins(w)
  {
  }

  lemma {:induction false} DeleteInv(w: World, gone: Key)
    requires Inv(w)
    ensures Inv(Next(w, Delete(gone)))
  {
    hide Epoch, FirstWrite, Lookup;
    var w' := Next(w, Delete(gone));
    WithoutUnique(w.docs, gone);
    forall i | 0 <= i < |w.applied| ensures w.applied[i].epoch <= Epoch(w'.deletes, w.applied[i].doc.key) {
      EpochAppend(w.deletes, gone, w.applied[i].doc.key);
    }
    forall key ensures Lookup(w'.docs, key) == FirstWrite(w'.applied, key, Epoch(w'.deletes, key)) {
      LookupWithout(w.docs, gone, key);
      EpochAppend(w.deletes, gone, key);
      assert Lookup(w.docs, key) == FirstWrite(w.applied, key, Epoch(w.deletes, key));
      if key == gone {
        NoFirstYet(w.applied, key, Epoch(w.deletes, key) + 1);
      }
    }
  }

  lemma {:induction false} CallInv(w: World, d: Doc, maxAttempts: int)
    requires Inv(w)
    ensures Inv(Next(w, Call(d, maxAttempts)))
  {
    hide UniqueKeys, Lookup, FirstWrite, Epoch;
  }

  lemma {:induction false} RunInv(events: seq<Event>)
    ensures Inv(Run(events))
  {
    hide Inv, Next;
    if events == [] {
      StartInv();
    } else {
      var n := |events| - 1;
      RunInv(events[..n]);
      NextInv(Run(events[..n]), events[n]);
    }
  }

  lemma {:induction false} StartInv()
    ensures Inv(Start)
  {
  }

  lemma {:induction false} NextInv(w: World, e: Event)
    requires Inv(w)
    ensures Inv(Next(w, e))
  {
    hide Inv, Tried;
    match e
    case Call(d, m) => CallInv(w, d, m);
    case Try(i, f) =>
      if i < |w.callers| && w.callers[i].status.Waiting? {
        TryInv(w, i, f);
      }
    case Delete(key) => DeleteInv(w, key);
  }

  /**
   For any interleaving of callers and any pattern of errors, before or after the write took
   effect: a key has at most one document, and it is the first write for that key that took
   effect since the key was last deleted.
   */
  lemma {:induction false} AtMostOneDocument(events: seq<Event>, key: Key, i: nat, j: nat)
    ensures var w := Run(events);
            && (i < j < |w.docs| ==> w.docs[i].key != w.docs[j].key)
            && Lookup(w.docs, key) == FirstWrite(w.applied, key, Epoch(w.deletes, key))
  {
    RunInv(events);
  }

  /** Callers with the same key that were answered between the same two deletions were given the same document. */
  lemma {:induction false} SameAnswer(events: seq<Event>, i: nat, j: nat)
    ensures var w := Run(events);
            i < |w.callers| && j < |w.callers| ==>
              var a, b := w.callers[i], w.callers[j];
              a.status.Returned? && b.status.Returned? && a.doc.key == b.doc.key && a.epoch == b.epoch ==>
                a.status.doc == b.status.doc
  {
    hide Run;
    RunInv(events);
  }

  /** An answer is what the store still holds, as long as the key has not been deleted since. */
  lemma {:induction false} AnswerIsStored(events: seq<Event>, i: nat)
    ensures var w := Run(events);
            i < |w.callers| && w.callers[i].status.Returned?
            && w.callers[i].epoch == Epoch(w.deletes, w.callers[i].doc.key) ==>
              w.callers[i].status.doc in w.docs
  {
    hide Run, Epoch;
    RunInv(events);
    var w := Run(events);
    if i < |w.callers| {
      var key := w.callers[i].doc.key;
      assert Lookup(w.docs, key) == FirstWrite(w.applied, key, Epoch(w.deletes, key));
    }
  }

  // ----- how often a caller tries -----

  /** The error of the attempt is one to try again after. */
  predicate Retryable(f: Fault) {
    match f
    case Clean(marker) => marker
    case Error(_, transient) => transient
  }

  ghost predicate CallerKnown(c: Caller) {
    && (c.status.Returned? ==> c.faults != [] && c.faults[|c.faults| - 1].Clean?)
    && (!c.status.Returned? ==>
          (c.status.Waiting? <==>
             |c.faults| < c.limit && forall k :: 0 <= k < |c.faults| ==> Retryable(c.faults[k])))
    && (c.status.Waiting? ==> c.status.left == c.limit - |c.faults|)
    && (forall k :: 0 <= k < |c.faults| - 1 ==> Retryable(c.faults[k]))
    && |c.faults| <= Max(0, c.limit)
  }

  lemma {:induction false} TriedKnown(w: World, i: nat, f: Fault)
    requires i < |w.callers| && w.callers[i].status.Waiting? && CallerKnown(w.callers[i])
    ensures CallerKnown(Tried(w, i, f).callers[i])
  {
    hide Upserted, Epoch, TookEffect;
    var c := w.callers[i];
    var c' := Tried(w, i, f).callers[i];
    assert c'.faults == c.faults + [f];
    assert forall k :: 0 <= k < |c.faults| ==> c'.faults[k] == c.faults[k];
    assert c'.faults[|c.faults|] == f;
  }

  /**
   In every interleaving: a caller that has not been answered goes on exactly as long as it has
   attempts left and every error so far was transient; it is answered by an attempt that met no
   error of its own; and it never makes more attempts than it is allowed.
   */
  lemma {:induction false} RetriesWhileTransient(events: seq<Event>, i: nat)
    requires i < |Run(events).callers|
    ensures CallerKnown(Run(events).callers[i])
  {
    hide CallerKnown, Tried;
    if events != [] {
      var n := |events| - 1;
      var w := Run(events[..n]);
      if i < |w.callers| {
        RetriesWhileTransient(events[..n], i);
      }
      match events[n]
      case Call(doc, limit) =>
        if i == |w.callers| {
          NewKnown(doc, limit);
        }
      case Try(j, f) =>
        if j < |w.callers| && w.callers[j].status.Waiting? {
          TriedOne(w, j, f);
          if j == i {
            TriedKnown(w, i, f);
          }
        }
      case Delete(_) =>
    }
  }

  lemma {:induction false} NewKnown(doc: Doc, limit: int)
    ensures CallerKnown(Caller(doc, Begin(limit), 0, limit, []))
  {
  }

  lemma {:induction false} TriedOne(w: World, j: nat, f: Fault)
    requires j < |w.callers| && w.callers[j].status.Waiting?
    ensures |Tried(w, j, f).callers| == |w.callers|
    ensures forall i :: 0 <= i < |w.callers| && i != j ==> Tried(w, j, f).callers[i] == w.callers[i]
  {
  }
}
