/**
 Refresh tokens and their rotation, the pattern of section 5.2.2.3 of RFC 6819. A rotation
 is two transactions: the first validates and revokes the presented token, the second
 inserts its replacement; other requests run in between.
 */
module RefreshTokens {
  import opened Common

  type UserId = nat

  /** A row; its position in the table is its id. */
  datatype Token = Token(user: UserId, parent: Option<nat>, revoked: bool, expires: real)

  /** The table, and the ids of the tokens whose rotation is between its two transactions. */
  datatype Db = Db(tokens: seq<Token>, pending: seq<nat>)

  const Empty := Db([], [])

  datatype Outcome = NotRecognised | Replayed | Expired | Disabled | Rotated

  /** What the first transaction of a rotation decides, in the order of its checks. */
  function Verdict(tokens: seq<Token>, id: nat, now: real, active: bool): Outcome {
    if id >= |tokens| then NotRecognised
    else if tokens[id].revoked then Replayed
    else if tokens[id].expires < now then Expired
    else if !active then Disabled
    else Rotated
  }

  function RevokeIf(t: Token, user: UserId): Token {
    if t.user == user then t.(revoked := true) else t
  }

  function RevokedFor(tokens: seq<Token>, user: UserId): (r: seq<Token>)
    ensures |r| == |tokens|
    ensures forall i :: 0 <= i < |tokens| ==> r[i] == RevokeIf(tokens[i], user)
  {
    seq(|tokens|, i requires 0 <= i < |tokens| => RevokeIf(tokens[i], user))
  }

  function RevokedAt(tokens: seq<Token>, id: nat): (r: seq<Token>)
    requires id < |tokens|
    ensures |r| == |tokens|
  {
    tokens[id := tokens[id].(revoked := true)]
  }

  class TokenTable {
    var rows: seq<Token>

    constructor ()
      ensures rows == []
    {
      rows := [];
    }

    method IssueRefreshToken(user: UserId, parent: Option<nat>, expires: real) returns (id: nat)
      modifies this
      ensures id == |old(rows)| && rows == old(rows) + [Token(user, parent, false, expires)]
    {
      id := |rows|;
      rows := rows + [Token(user, parent, false, expires)];
    }

    /** The first transaction of `rotate_refresh_token`. */
    method ValidateAndRevoke(id: nat, now: real, active: bool) returns (o: Outcome)
      modifies this
      ensures o == Verdict(old(rows), id, now, active)
      ensures o == Rotated ==> id < |old(rows)| && rows == RevokedAt(old(rows), id)
      ensures o == Replayed ==> id < |old(rows)| && rows == RevokedFor(old(rows), old(rows)[id].user)
      ensures o != Rotated && o != Replayed ==> rows == old(rows)
    {
      if id >= |rows| {
        return NotRecognised;
      }
      var rec := rows[id];
      if rec.revoked {
        rows := RevokedFor(rows, rec.user);
        return Replayed;
      }
      if rec.expires < now {
        return Expired;
      }
      if !active {
        return Disabled;
      }
      rows := rows[id := rec.(revoked := true)];
      return Rotated;
    }

    method RevokeRefreshToken(id: nat)
      modifies this
      ensures rows == if id < |old(rows)| then RevokedAt(old(rows), id) else old(rows)
    {
      if id < |rows| {
        rows := rows[id := rows[id].(revoked := true)];
      }
    }

    method RevokeAllForUser(user: UserId)
      modifies this
      ensures rows == RevokedFor(old(rows), user)
    {
      rows := RevokedFor(rows, user);
    }
  }

  /** `Issue` and `Abandon` name a pending rotation by its place; `Abandon` is a crash between the transactions. */
  datatype Event =
    | Login(user: UserId, expires: real)
    | Present(id: nat, now: real, active: bool)
    | Issue(k: nat, expires: real)
    | Abandon(k: nat)
    | Logout(id: nat)
    | LogoutAll(user: UserId)

  function Next(db: Db, e: Event): Db {
    match e
    case Login(user, expires) => db.(tokens := db.tokens + [Token(user, None, false, expires)])
    case Present(id, now, active) =>
      var o := Verdict(db.tokens, id, now, active);
      if o == Rotated then Db(RevokedAt(db.tokens, id), db.pending + [id])
      else if o == Replayed then db.(tokens := RevokedFor(db.tokens, db.tokens[id].user))
      else db
    case Issue(k, expires) =>
      if k < |db.pending| && db.pending[k] < |db.tokens| then
        var p := db.pending[k];
        Db(db.tokens + [Token(db.tokens[p].user, Some(p), false, expires)], Without(db.pending, k))
      else db
    case Abandon(k) => if k < |db.pending| then db.(pending := Without(db.pending, k)) else db
    case Logout(id) => if id < |db.tokens| then db.(tokens := RevokedAt(db.tokens, id)) else db
    case LogoutAll(user) => db.(tokens := RevokedFor(db.tokens, user))
  }

  function Run(db: Db, events: seq<Event>): Db {
    if events == [] then db else Next(Run(db, events[..|events| - 1]), events[|events| - 1])
  }

  // ----- chains -----

  /** The login at the start of a token's chain. */
  function Root(tokens: seq<Token>, i: nat): (r: nat)
    requires i < |tokens|
    ensures r <= i
  {
    match tokens[i].parent
    case None => i
    case Some(p) => if p < i then Root(tokens, p) else i
  }

  ghost predicate Live(db: Db, i: nat) {
    i < |db.tokens| && !db.tokens[i].revoked
  }

  /** Every token descends from an older, revoked one of the same user, and rotations only start from revoked ones. */
  ghost predicate Forest(db: Db) {
    && (forall i :: 0 <= i < |db.tokens| && db.tokens[i].parent.Some? ==>
          var p := db.tokens[i].parent.value;
          p < i && db.tokens[p].revoked && db.tokens[p].user == db.tokens[i].user)
    && (forall k :: 0 <= k < |db.pending| ==>
          db.pending[k] < |db.tokens| && db.tokens[db.pending[k]].revoked)
  }

  /** A token has at most one child, counting the one a pending rotation is about to insert. */
  ghost predicate OneHeir(db: Db) {
    && (forall i, j :: 0 <= i < j < |db.tokens| && db.tokens[i].parent.Some? ==>
          db.tokens[i].parent != db.tokens[j].parent)
    && (forall i :: 0 <= i < |db.tokens| && db.tokens[i].parent.Some? ==>
          db.tokens[i].parent.value !in db.pending)
    && (forall k, l :: 0 <= k < l < |db.pending| ==> db.pending[k] != db.pending[l])
  }

  /** A chain has at most one token that is live or about to be issued. */
  ghost predicate OneLive(db: Db)
    requires Forest(db)
  {
    && (forall i, j :: 0 <= i < j && Live(db, i) && Live(db, j) ==> Root(db.tokens, i) != Root(db.tokens, j))
    && (forall i, k :: 0 <= i && Live(db, i) && 0 <= k < |db.pending| ==>
          Root(db.tokens, i) != Root(db.tokens, db.pending[k]))
    && (forall k, l :: 0 <= k < l < |db.pending| ==>
          Root(db.tokens, db.pending[k]) != Root(db.tokens, db.pending[l]))
  }

  ghost predicate SameParents(a: seq<Token>, b: seq<Token>) {
    |a| <= |b| && forall i :: 0 <= i < |a| ==> b[i].parent == a[i].parent
  }

  lemma {:induction false} RootFrame(a: seq<Token>, b: seq<Token>, i: nat)
    requires SameParents(a, b) && i < |a|
    ensures Root(b, i) == Root(a, i)
  {
    if a[i].parent.Some? && a[i].parent.value < i {
      RootFrame(a, b, a[i].parent.value);
    }
  }

  lemma {:induction false} RootsFrame(a: seq<Token>, b: seq<Token>)
    requires SameParents(a, b)
    ensures forall i :: 0 <= i < |a| ==> Root(b, i) == Root(a, i)
  {
    forall i | 0 <= i < |a| ensures Root(b, i) == Root(a, i) {
      RootFrame(a, b, i);
    }
  }

  /** Tokens keep their user, parent and expiry for ever, and a revoked one stays revoked. */
  ghost predicate Grows(a: seq<Token>, b: seq<Token>) {
    && |a| <= |b|
    && forall i :: 0 <= i < |a| ==>
         && b[i].parent == a[i].parent && b[i].user == a[i].user && b[i].expires == a[i].expires
         && (a[i].revoked ==> b[i].revoked)
  }

  lemma {:induction false} NextGrows(db: Db, e: Event)
    ensures Grows(db.tokens, Next(db, e).tokens)
  {
  }

  lemma {:induction false} NextForest(db: Db, e: Event)
    requires Forest(db)
    ensures Forest(Next(db, e))
  {
    hide Verdict;
    match e
    case Login(user, expires) =>
    case Present(id, now, active) => PresentKnown(db.tokens, id, now, active);
    case Issue(k, expires) =>
    case Abandon(k) =>
    case Logout(id) =>
    case LogoutAll(user) =>
  }

  lemma {:induction false} PresentKnown(tokens: seq<Token>, id: nat, now: real, active: bool)
    ensures var o := Verdict(tokens, id, now, active);
            && (o == Rotated ==> id < |tokens| && !tokens[id].revoked)
            && (o == Replayed ==> id < |tokens| && tokens[id].revoked)
  {
  }

  lemma {:induction false} NextOneHeir(db: Db, e: Event)
    requires Forest(db) && OneHeir(db)
    ensures OneHeir(Next(db, e))
  {
    NextGrows(db, e);
    hide OneHeir, Verdict, Forest;
    match e
    case Login(user, expires) => AppendOneHeir(db, Token(user, None, false, expires));
    case Present(id, now, active) =>
      PresentKnown(db.tokens, id, now, active);
      if Verdict(db.tokens, id, now, active) == Rotated {
        RotateOneHeir(db, id);
      } else {
        ShrinkOneHeir(db, Next(db, e));
      }
    case Issue(k, expires) =>
      if k < |db.pending| && db.pending[k] < |db.tokens| {
        PendingIsLeaf(db, k);
        DropOneHeir(db, k);
        AppendOneHeir(db.(pending := Without(db.pending, k)),
                      Token(db.tokens[db.pending[k]].user, Some(db.pending[k]), false, expires));
      }
    case Abandon(k) =>
      if k < |db.pending| {
        DropOneHeir(db, k);
      }
    case Logout(id) => ShrinkOneHeir(db, Next(db, e));
    case LogoutAll(user) => ShrinkOneHeir(db, Next(db, e));
  }

  lemma {:induction false} ShrinkOneHeir(db: Db, db': Db)
    requires OneHeir(db)
    requires |db'.tokens| == |db.tokens| && Grows(db.tokens, db'.tokens) && db'.pending == db.pending
    ensures OneHeir(db')
  {
  }

  lemma {:induction false} RotateOneHeir(db: Db, id: nat)
    requires Forest(db) && OneHeir(db) && Live(db, id)
    ensures OneHeir(Db(RevokedAt(db.tokens, id), db.pending + [id]))
  {
    LiveIsLeaf(db, id);
  }

  lemma {:induction false} DropOneHeir(db: Db, k: nat)
    requires OneHeir(db) && k < |db.pending|
    ensures OneHeir(db.(pending := Without(db.pending, k)))
  {
  }

  lemma {:induction false} AppendOneHeir(db: Db, t: Token)
    requires OneHeir(db)
    requires t.parent.Some? ==> t.parent.value !in db.pending
    requires t.parent.Some? ==> forall i :: 0 <= i < |db.tokens| ==> db.tokens[i].parent != t.parent
    ensures OneHeir(db.(tokens := db.tokens + [t]))
  {
  }

  lemma {:induction false} LiveIsLeaf(db: Db, id: nat)
    requires Forest(db) && Live(db, id)
    ensures id !in db.pending
    ensures forall i :: 0 <= i < |db.tokens| ==> db.tokens[i].parent != Some(id)
  {
  }

  lemma {:induction false} PendingIsLeaf(db: Db, k: nat)
    requires Forest(db) && OneHeir(db) && k < |db.pending|
    ensures db.pending[k] !in Without(db.pending, k)
    ensures forall i :: 0 <= i < |db.tokens| ==> db.tokens[i].parent != Some(db.pending[k])
  {
  }

  /** Revoking, whichever tokens, and dropping pending rotations keeps `OneLive`. */
  lemma {:induction false} ShrinkOneLive(db: Db, db': Db)
    requires Forest(db) && Forest(db') && OneLive(db)
    requires |db'.tokens| == |db.tokens| && Grows(db.tokens, db'.tokens) && db'.pending == db.pending
    ensures OneLive(db')
  {
    RootsFrame(db.tokens, db'.tokens);
    assert forall i :: 0 <= i && Live(db', i) ==> Live(db, i);
  }

  lemma {:induction false} RotateOneLive(db: Db, id: nat)
    requires Forest(db) && OneLive(db) && Live(db, id)
    requires Forest(Db(RevokedAt(db.tokens, id), db.pending + [id]))
    ensures OneLive(Db(RevokedAt(db.tokens, id), db.pending + [id]))
  {
    var db' := Db(RevokedAt(db.tokens, id), db.pending + [id]);
    RootsFrame(db.tokens, db'.tokens);
    assert forall i :: 0 <= i && Live(db', i) ==> Live(db, i) && i != id;
    forall i | 0 <= i && Live(db', i) ensures Root(db.tokens, i) != Root(db.tokens, id) {
      LiveApart(db, i, id);
    }
    forall k | 0 <= k < |db.pending| ensures Root(db.tokens, db.pending[k]) != Root(db.tokens, id) {
    }
    hide Root;
  }

  lemma {:induction false} LiveApart(db: Db, i: nat, j: nat)
    requires Forest(db) && OneLive(db) && Live(db, i) && Live(db, j) && i != j
    ensures Root(db.tokens, i) != Root(db.tokens, j)
  {
    hide Root;
    if i < j {
      assert Live(db, i) && Live(db, j);
    } else {
      assert Live(db, j) && Live(db, i);
    }
  }

  lemma {:induction false} DropOneLive(db: Db, k: nat)
    requires Forest(db) && OneLive(db) && k < |db.pending|
    requires Forest(db.(pending := Without(db.pending, k)))
    ensures OneLive(db.(pending := Without(db.pending, k)))
  {
    var w := Without(db.pending, k);
    assert forall j :: 0 <= j < |w| ==> w[j] == db.pending[if j < k then j else j + 1];
  }

  /** A new token whose chain had nothing live and nothing pending. */
  lemma {:induction false} AppendOneLive(db: Db, t: Token)
    requires Forest(db) && OneLive(db) && Forest(db.(tokens := db.tokens + [t]))
    requires var r := Root(db.tokens + [t], |db.tokens|);
             && (forall i :: 0 <= i && Live(db, i) ==> Root(db.tokens, i) != r)
             && (forall k :: 0 <= k < |db.pending| ==> Root(db.tokens, db.pending[k]) != r)
    ensures OneLive(db.(tokens := db.tokens + [t]))
  {
    var db' := db.(tokens := db.tokens + [t]);
    RootsFrame(db.tokens, db'.tokens);
    assert forall i :: 0 <= i && Live(db', i) ==> i == |db.tokens| || Live(db, i);
  }

  lemma {:induction false} IssueOneLive(db: Db, k: nat, expires: real)
    requires Forest(db) && OneLive(db) && k < |db.pending|
    requires Forest(Next(db, Issue(k, expires)))
    ensures OneLive(Next(db, Issue(k, expires)))
  {
    var p, w := db.pending[k], Without(db.pending, k);
    var rest := db.(pending := w);
    assert forall j :: 0 <= j < |w| ==> w[j] == db.pending[if j < k then j else j + 1];
    DropOneLive(db, k);
    var t := Token(db.tokens[p].user, Some(p), false, expires);
    RootFrame(db.tokens, db.tokens + [t], p);
    assert Root(db.tokens + [t], |db.tokens|) == Root(db.tokens, p);
    assert forall i :: 0 <= i && Live(rest, i) ==> Live(db, i);
    AppendOneLive(rest, t);
  }

  lemma {:induction false} NextOneLive(db: Db, e: Event)
    requires Forest(db) && OneLive(db)
    ensures Forest(Next(db, e)) && OneLive(Next(db, e))
  {
    NextForest(db, e);
    NextGrows(db, e);
    hide Forest, OneLive, Verdict;
    match e
    case Login(user, expires) => AppendOneLive(db, Token(user, None, false, expires));
    case Present(id, now, active) =>
      PresentKnown(db.tokens, id, now, active);
      if Verdict(db.tokens, id, now, active) == Rotated {
        RotateOneLive(db, id);
      } else {
        ShrinkOneLive(db, Next(db, e));
      }
    case Issue(k, expires) =>
      if k < |db.pending| {
        PendingKnown(db, k);
        IssueOneLive(db, k, expires);
      }
    case Abandon(k) =>
      if k < |db.pending| {
        DropOneLive(db, k);
      }
    case Logout(id) => ShrinkOneLive(db, Next(db, e));
    case LogoutAll(user) => ShrinkOneLive(db, Next(db, e));
  }

  lemma {:induction false} PendingKnown(db: Db, k: nat)
    requires Forest(db) && k < |db.pending|
    ensures db.pending[k] < |db.tokens|
  {
  }

  /**
   Every run from an empty table: the tokens form a forest in which a child has its parent's
   user and a token at most one child, and a login chain has at most one token that is live
   or about to be issued.
   */
  lemma {:induction false} TokenForest(events: seq<Event>)
    ensures var db := Run(Empty, events); Forest(db) && OneHeir(db) && OneLive(db)
  {
    hide Forest, OneHeir, OneLive, Next;
    if events == [] {
      EmptyForest();
    } else {
      var n := |events| - 1;
      TokenForest(events[..n]);
      var db := Run(Empty, events[..n]);
      NextOneHeir(db, events[n]);
      NextOneLive(db, events[n]);
    }
  }

  lemma {:induction false} EmptyForest()
    ensures Forest(Empty) && OneHeir(Empty) && OneLive(Empty)
  {
  }

  /** Revocation is never undone, over any continuation. */
  lemma {:induction false} RevocationIsFinal(db: Db, events: seq<Event>)
    ensures Grows(db.tokens, Run(db, events).tokens)
  {
    hide Next;
    if events != [] {
      var n := |events| - 1;
      RevocationIsFinal(db, events[..n]);
      NextGrows(Run(db, events[..n]), events[n]);
    }
  }

  // ----- replay detection -----

  ghost predicate NoneLive(db: Db, user: UserId) {
    forall i :: 0 <= i < |db.tokens| && db.tokens[i].user == user ==> db.tokens[i].revoked
  }

  ghost predicate NonePending(db: Db, user: UserId) {
    forall k :: 0 <= k < |db.pending| && db.pending[k] < |db.tokens| ==> db.tokens[db.pending[k]].user != user
  }

  /** Presenting a revoked token leaves its user without a live token. */
  lemma {:induction false} ReplayRevokesAll(db: Db, id: nat, now: real, active: bool)
    requires id < |db.tokens| && db.tokens[id].revoked
    ensures NoneLive(Next(db, Present(id, now, active)), db.tokens[id].user)
  {
  }

  // ----- the first transaction, statement by statement -----

  /** What a request that has read its row is about to write. */
  datatype Intent = Rotate(id: nat) | RevokeUser(user: UserId)

  datatype Split = Split(db: Db, intents: seq<Intent>)

  const Idle := Split(Empty, [])

  /** `Read` and `Write` are the two statements of the first transaction; `Whole` is any other step. */
  datatype SplitEvent = Whole(e: Event) | Read(id: nat, now: real, active: bool) | Write(k: nat)

  /** The writes of a rotation, whatever has happened to the row since it was read. */
  function RotateRow(db: Db, id: nat): Db {
    if id < |db.tokens| then Db(RevokedAt(db.tokens, id), db.pending + [id]) else db
  }

  function NextSplit(s: Split, e: SplitEvent): Split {
    match e
    case Whole(e) => s.(db := Next(s.db, e))
    case Read(id, now, active) =>
      var o := Verdict(s.db.tokens, id, now, active);
      if o == Rotated then s.(intents := s.intents + [Rotate(id)])
      else if o == Replayed then s.(intents := s.intents + [RevokeUser(s.db.tokens[id].user)])
      else s
    case Write(k) =>
      if k >= |s.intents| then s
      else
        Split(match s.intents[k]
              case Rotate(id) => RotateRow(s.db, id)
              case RevokeUser(user) => s.db.(tokens := RevokedFor(s.db.tokens, user)),
              Without(s.intents, k))
  }

  function RunFrom(s: Split, events: seq<SplitEvent>): Split {
    if events == [] then s else NextSplit(RunFrom(s, events[..|events| - 1]), events[|events| - 1])
  }

  function RunSplit(events: seq<SplitEvent>): Split {
    RunFrom(Idle, events)
  }

  ghost predicate Law(db: Db) {
    Forest(db) && OneHeir(db) && OneLive(db)
  }

  /** The row is still live, or it has no successor and its chain has nothing live and nothing pending. */
  ghost predicate Harmless(db: Db, id: nat) {
    id < |db.tokens| ==>
      || Live(db, id)
      || (&& id !in db.pending
          && (forall i :: 0 <= i < |db.tokens| ==> db.tokens[i].parent != Some(id))
          && (forall i :: 0 <= i && Live(db, i) ==> Root(db.tokens, i) != Root(db.tokens, id))
          && (forall k :: 0 <= k < |db.pending| && db.pending[k] < |db.tokens| ==>
                Root(db.tokens, db.pending[k]) != Root(db.tokens, id)))
  }

  lemma {:induction false} RotateForest(db: Db, id: nat)
    requires Forest(db)
    ensures Forest(RotateRow(db, id))
  {
  }

  lemma {:induction false} RevokedHeirIff(db: Db, id: nat)
    requires Forest(db) && OneHeir(db) && id < |db.tokens|
    ensures OneHeir(RotateRow(db, id)) <==>
              id !in db.pending && forall i :: 0 <= i < |db.tokens| ==> db.tokens[i].parent != Some(id)
  {
    var db' := RotateRow(db, id);
    var m := |db.pending|;
    assert db'.pending[m] == id && id in db'.pending;
    assert forall k :: 0 <= k < m ==> db'.pending[k] == db.pending[k];
    assert forall i :: 0 <= i < |db.tokens| ==> db'.tokens[i].parent == db.tokens[i].parent;
    if id in db.pending {
      var k :| 0 <= k < m && db.pending[k] == id;
      assert db'.pending[k] == db'.pending[m];
    }
  }

  lemma {:induction false} RevokedLiveIff(db: Db, id: nat)
    requires Forest(db) && OneLive(db) && id < |db.tokens| && db.tokens[id].revoked
    requires Forest(RotateRow(db, id))
    ensures OneLive(RotateRow(db, id)) <==>
              && (forall i :: 0 <= i && Live(db, i) ==> Root(db.tokens, i) != Root(db.tokens, id))
              && (forall k :: 0 <= k < |db.pending| && db.pending[k] < |db.tokens| ==>
                    Root(db.tokens, db.pending[k]) != Root(db.tokens, id))
  {
    var db' := RotateRow(db, id);
    var m := |db.pending|;
    assert db'.tokens == db.tokens;
    assert db'.pending[m] == id;
    assert forall k :: 0 <= k < m ==> db'.pending[k] == db.pending[k];
    assert forall i :: 0 <= i ==> (Live(db', i) <==> Live(db, i));
    hide Root;
  }

  /** A rotation's write keeps the forest law exactly if it is harmless. */
  lemma {:induction false} RotateKeepsLawIff(db: Db, id: nat)
    requires Law(db)
    ensures Law(RotateRow(db, id)) <==> Harmless(db, id)
  {
    hide Forest, OneHeir, OneLive;
    RotateForest(db, id);
    if id < |db.tokens| {
      if Live(db, id) {
        RotateOneHeir(db, id);
        RotateOneLive(db, id);
      } else {
        RevokedHeirIff(db, id);
        RevokedLiveIff(db, id);
      }
    }
  }

  /** What a run has to observe. */
  ghost predicate HarmlessStep(s: Split, e: SplitEvent) {
    e.Write? && e.k < |s.intents| && s.intents[e.k].Rotate? ==> Harmless(s.db, s.intents[e.k].id)
  }

  lemma {:induction false} StepKeepsLawIff(s: Split, e: SplitEvent)
    requires Law(s.db)
    ensures Law(NextSplit(s, e).db) <==> HarmlessStep(s, e)
  {
    hide Law, Harmless, Verdict, Next;
    match e
    case Whole(e) => WholeKeepsLaw(s.db, e);
    case Read(id, now, active) =>
    case Write(k) =>
      if k < |s.intents| {
        match s.intents[k] {
          case Rotate(id) => RotateKeepsLawIff(s.db, id);
          case RevokeUser(user) => WholeKeepsLaw(s.db, LogoutAll(user)); LogoutAllIs(s.db, user);
        }
      }
  }

  lemma {:induction false} LogoutAllIs(db: Db, user: UserId)
    ensures Next(db, LogoutAll(user)) == db.(tokens := RevokedFor(db.tokens, user))
  {
  }

  lemma {:induction false} WholeKeepsLaw(db: Db, e: Event)
    requires Law(db)
    ensures Law(Next(db, e))
  {
    hide Next, Forest, OneHeir, OneLive;
    NextOneHeir(db, e);
    NextOneLive(db, e);
  }

  ghost predicate AlwaysLaw(events: seq<SplitEvent>) {
    Law(RunSplit(events).db) && (events == [] || AlwaysLaw(events[..|events| - 1]))
  }

  ghost predicate AllHarmless(events: seq<SplitEvent>) {
    events == [] ||
    var n := |events| - 1;
    AllHarmless(events[..n]) && HarmlessStep(RunSplit(events[..n]), events[n])
  }

  /**
   With the statements of the first transaction apart, a run keeps the forest law throughout
   exactly if every rotation writes to a row that is still live, or to one whose chain has
   died out without a successor to it.
   */
  lemma {:induction false} TokenForestIff(events: seq<SplitEvent>)
    ensures AlwaysLaw(events) <==> AllHarmless(events)
  {
    hide Law, NextSplit, HarmlessStep;
    if events == [] {
      assert Law(Empty) by { EmptyForest(); LawIs(Empty); }
    } else {
      var n := |events| - 1;
      TokenForestIff(events[..n]);
      if AlwaysLaw(events[..n]) {
        LawNow(events[..n]);
        StepKeepsLawIff(RunSplit(events[..n]), events[n]);
      }
    }
  }

  lemma {:induction false} LawIs(db: Db)
    ensures Law(db) <==> Forest(db) && OneHeir(db) && OneLive(db)
  {
  }

  lemma {:induction false} LawNow(events: seq<SplitEvent>)
    requires AlwaysLaw(events)
    ensures Law(RunSplit(events).db)
  {
  }

  /** Without a step in between, the two statements are the transaction taken as one step. */
  lemma {:induction false} UndisturbedIsPresent(s: Split, id: nat, now: real, active: bool)
    ensures var o := Verdict(s.db.tokens, id, now, active);
            o == Rotated || o == Replayed ==>
              NextSplit(NextSplit(s, Read(id, now, active)), Write(|s.intents|))
                == NextSplit(s, Whole(Present(id, now, active)))
  {
    var s' := NextSplit(s, Read(id, now, active));
    if s'.intents != s.intents {
      assert s'.intents[..|s.intents|] + s'.intents[|s.intents| + 1..] == s.intents;
    }
  }

  /** A login, and two requests that both read the token before either writes. */
  function Race(user: UserId, now: real, expires: real): seq<SplitEvent> {
    [Whole(Login(user, expires)), Read(0, now, true), Read(0, now, true), Write(0), Write(0),
     Whole(Issue(0, expires)), Whole(Issue(0, expires))]
  }

  lemma {:induction false} RunMore(events: seq<SplitEvent>, e: SplitEvent)
    ensures RunSplit(events + [e]) == NextSplit(RunSplit(events), e)
  {
    hide NextSplit;
    assert (events + [e])[..|events|] == events;
  }

  /** Both requests have written. */
  lemma {:induction false} BothRotated(user: UserId, now: real, expires: real)
    requires now <= expires
    ensures RunSplit(Race(user, now, expires)[..5]) == Split(Db([Token(user, None, true, expires)], [0, 0]), [])
  {
    hide RunSplit, RevokedFor;
    var r := Race(user, now, expires);
    var first := Token(user, None, false, expires);
    EmptyRunSplit();
    RunMore([], r[0]);
    var r1 := [] + [r[0]];
    assert RunSplit(r1) == Split(Db([first], []), []);
    RunMore(r1, r[1]);
    var r2 := r1 + [r[1]];
    assert RunSplit(r2) == Split(Db([first], []), [Rotate(0)]);
    RunMore(r2, r[2]);
    var r3 := r2 + [r[2]];
    assert RunSplit(r3) == Split(Db([first], []), [Rotate(0), Rotate(0)]);
    BothWrite(r3, first);
    assert r3 + [Write(0)] + [Write(0)] == r[..5];
  }

  lemma {:induction false} BothWrite(before: seq<SplitEvent>, first: Token)
    requires RunSplit(before) == Split(Db([first], []), [Rotate(0), Rotate(0)])
    ensures RunSplit(before + [Write(0)] + [Write(0)]) == Split(Db([first.(revoked := true)], [0, 0]), [])
  {
    hide RunSplit;
    RunMore(before, Write(0));
    assert Without([Rotate(0), Rotate(0)], 0) == [Rotate(0)];
    assert RunSplit(before + [Write(0)]) == Split(Db([first.(revoked := true)], [0]), [Rotate(0)]);
    RunMore(before + [Write(0)], Write(0));
    assert Without([Rotate(0)], 0) == [];
  }

  lemma {:induction false} BothIssue(before: seq<SplitEvent>, spent: Token, expires: real)
    requires RunSplit(before) == Split(Db([spent], [0, 0]), [])
    ensures var child := Token(spent.user, Some(0), false, expires);
            RunSplit(before + [Whole(Issue(0, expires))] + [Whole(Issue(0, expires))])
              == Split(Db([spent, child, child], []), [])
  {
    hide RunSplit;
    var child, e := Token(spent.user, Some(0), false, expires), Whole(Issue(0, expires));
    RunMore(before, e);
    assert Without([0, 0], 0) == [0];
    assert RunSplit(before + [e]) == Split(Db([spent, child], [0]), []);
    RunMore(before + [e], e);
    assert Without([0], 0) == [];
  }

  /** The chain forks: two live tokens with one parent. */
  lemma {:induction false} RaceForks(user: UserId, now: real, expires: real)
    requires now <= expires
    ensures var db := RunSplit(Race(user, now, expires)).db;
            && Live(db, 1) && Live(db, 2) && db.tokens[1].parent == db.tokens[2].parent == Some(0)
            && Root(db.tokens, 1) == Root(db.tokens, 2) && !AlwaysLaw(Race(user, now, expires))
  {
    hide RunSplit;
    var r, spent := Race(user, now, expires), Token(user, None, true, expires);
    BothRotated(user, now, expires);
    BothIssue(r[..5], spent, expires);
    assert r[..5] + [Whole(Issue(0, expires))] + [Whole(Issue(0, expires))] == r;
    var db := RunSplit(r).db;
    assert db.tokens[1].parent == db.tokens[2].parent;
    assert !OneHeir(db);
  }

  lemma {:induction false} EmptyRunSplit()
    ensures RunSplit([]) == Idle
  {
  }

  // ----- what replay detection shuts out -----

  /** No request that has read a live row of the user is still to write. */
  ghost predicate NoIntent(s: Split, user: UserId) {
    forall k :: 0 <= k < |s.intents| && s.intents[k].Rotate? && s.intents[k].id < |s.db.tokens| ==>
      s.db.tokens[s.intents[k].id].user != user
  }

  ghost predicate Quiet(s: Split, user: UserId) {
    NoneLive(s.db, user) && NonePending(s.db, user) && NoIntent(s, user)
  }

  ghost predicate LogsIn(e: SplitEvent, user: UserId) {
    e.Whole? && e.e.Login? && e.e.user == user
  }

  ghost predicate NoLogin(events: seq<SplitEvent>, user: UserId) {
    forall i :: 0 <= i < |events| ==> !LogsIn(events[i], user)
  }

  /** Until the user logs in again, nothing they hold works. */
  ghost predicate LockedOut(s: Split, user: UserId) {
    forall events :: NoLogin(events, user) ==> NoneLive(RunFrom(s, events).db, user)
  }

  lemma {:induction false} WholeQuiet(s: Split, e: Event, user: UserId)
    requires Quiet(s, user) && !LogsIn(Whole(e), user)
    ensures Quiet(NextSplit(s, Whole(e)), user)
  {
    hide Verdict;
    match e
    case Login(u, expires) =>
    case Present(id, now, active) => PresentKnown(s.db.tokens, id, now, active);
    case Issue(k, expires) =>
    case Abandon(k) =>
    case Logout(id) =>
    case LogoutAll(u) =>
  }

  lemma {:induction false} ReadQuiet(s: Split, id: nat, now: real, active: bool, user: UserId)
    requires Quiet(s, user)
    ensures Quiet(NextSplit(s, Read(id, now, active)), user)
  {
    hide Verdict;
    PresentKnown(s.db.tokens, id, now, active);
  }

  lemma {:induction false} WriteQuiet(s: Split, k: nat, user: UserId)
    requires Quiet(s, user)
    ensures Quiet(NextSplit(s, Write(k)), user)
  {
  }

  lemma {:induction false} StaysQuiet(s: Split, events: seq<SplitEvent>, user: UserId)
    requires Quiet(s, user) && NoLogin(events, user)
    ensures Quiet(RunFrom(s, events), user)
  {
    hide NextSplit, Quiet, LogsIn;
    if events != [] {
      var n := |events| - 1;
      StaysQuiet(s, events[..n], user);
      match events[n]
      case Whole(e) => WholeQuiet(RunFrom(s, events[..n]), e, user);
      case Read(id, now, active) => ReadQuiet(RunFrom(s, events[..n]), id, now, active, user);
      case Write(k) => WriteQuiet(RunFrom(s, events[..n]), k, user);
    }
  }

  lemma {:induction false} RunTwo(s: Split, e: SplitEvent, f: SplitEvent)
    ensures RunFrom(s, []) == s && RunFrom(s, [e]) == NextSplit(s, e)
    ensures RunFrom(s, [e, f]) == NextSplit(NextSplit(s, e), f)
  {
    hide NextSplit;
    assert [e][..0] == [];
    assert [e, f][..1] == [e];
  }

  /** A rotation of the user's between its transactions can still insert its token. */
  lemma {:induction false} PendingRevives(s: Split, k: nat, user: UserId)
    requires k < |s.db.pending| && s.db.pending[k] < |s.db.tokens| && s.db.tokens[s.db.pending[k]].user == user
    ensures !NoneLive(NextSplit(s, Whole(Issue(k, 0.0))).db, user)
  {
    var db := NextSplit(s, Whole(Issue(k, 0.0))).db;
    assert db.tokens[|s.db.tokens|].user == user && !db.tokens[|s.db.tokens|].revoked;
  }

  lemma {:induction false} WriteLeavesPending(s: Split, k: nat)
    requires k < |s.intents| && s.intents[k].Rotate? && s.intents[k].id < |s.db.tokens|
    ensures var db := NextSplit(s, Write(k)).db;
            && db.pending == s.db.pending + [s.intents[k].id] && |db.tokens| == |s.db.tokens|
            && db.tokens[s.intents[k].id].user == s.db.tokens[s.intents[k].id].user
  {
  }

  /**
   In any state at all, the user is shut out until the next login exactly when they have
   nothing live, nothing between the two transactions of a rotation, and no request that has
   read a row of theirs as live and is still to write.
   */
  lemma {:induction false} LockedOutIff(s: Split, user: UserId)
    ensures LockedOut(s, user) <==> Quiet(s, user)
  {
    hide RunFrom, NextSplit;
    if Quiet(s, user) {
      forall events | NoLogin(events, user) ensures NoneLive(RunFrom(s, events).db, user) {
        StaysQuiet(s, events, user);
      }
    } else if !NoneLive(s.db, user) {
      RunTwo(s, Write(0), Write(0));
      assert NoLogin([], user);
    } else if !NonePending(s.db, user) {
      var k: nat :| k < |s.db.pending| && s.db.pending[k] < |s.db.tokens| && s.db.tokens[s.db.pending[k]].user == user;
      var e := Whole(Issue(k, 0.0));
      PendingRevives(s, k, user);
      RunTwo(s, e, e);
      assert NoLogin([e], user);
    } else {
      var k: nat :| k < |s.intents| && s.intents[k].Rotate? && s.intents[k].id < |s.db.tokens|
                    && s.db.tokens[s.intents[k].id].user == user;
      var e := Whole(Issue(|s.db.pending|, 0.0));
      WriteLeavesPending(s, k);
      PendingRevives(NextSplit(s, Write(k)), |s.db.pending|, user);
      RunTwo(s, Write(k), e);
      assert NoLogin([Write(k), e], user);
    }
  }

  /**
   What replay detection misses. Its write, whenever it comes, shuts the user out until the
   next login exactly when no rotation of theirs is between its two transactions and none has
   read its row without having written it.
   */
  lemma {:induction false} ReplayLocksOutIff(s: Split, k: nat)
    requires k < |s.intents| && s.intents[k].RevokeUser?
    ensures var user := s.intents[k].user;
            LockedOut(NextSplit(s, Write(k)), user) <==> NonePending(s.db, user) && NoIntent(s, user)
  {
    LockedOutIff(NextSplit(s, Write(k)), s.intents[k].user);
    ReplayWrites(s, k);
  }

  lemma {:induction false} ReplayWrites(s: Split, k: nat)
    requires k < |s.intents| && s.intents[k].RevokeUser?
    ensures var user := s.intents[k].user;
            Quiet(NextSplit(s, Write(k)), user) <==> NonePending(s.db, user) && NoIntent(s, user)
  {
    hide Without, NoIntent, NonePending, NoneLive;
    var user := s.intents[k].user;
    var revoked := s.db.(tokens := RevokedFor(s.db.tokens, user));
    AllRevoked(s.db, user);
    OthersIntend(s, k, revoked);
  }

  lemma {:induction false} AllRevoked(db: Db, user: UserId)
    ensures var revoked := db.(tokens := RevokedFor(db.tokens, user));
            NoneLive(revoked, user) && (NonePending(revoked, user) <==> NonePending(db, user))
            && |revoked.tokens| == |db.tokens|
            && forall i :: 0 <= i < |db.tokens| ==> revoked.tokens[i].user == db.tokens[i].user
  {
  }

  /** The intent that is carried out was not a rotation. */
  lemma {:induction false} OthersIntend(s: Split, k: nat, db: Db)
    requires k < |s.intents| && s.intents[k].RevokeUser?
    requires |db.tokens| == |s.db.tokens|
    requires forall i :: 0 <= i < |s.db.tokens| ==> db.tokens[i].user == s.db.tokens[i].user
    ensures NoIntent(Split(db, Without(s.intents, k)), s.intents[k].user) <==> NoIntent(s, s.intents[k].user)
  {
    var user, w := s.intents[k].user, Without(s.intents, k);
    if NoIntent(s, user) {
      forall j | 0 <= j < |w| && w[j].Rotate? && w[j].id < |db.tokens| ensures db.tokens[w[j].id].user != user {
        assert w[j] == s.intents[if j < k then j else j + 1];
      }
    }
    if NoIntent(Split(db, w), user) {
      forall j | 0 <= j < |s.intents| && s.intents[j].Rotate? && s.intents[j].id < |s.db.tokens|
        ensures s.db.tokens[s.intents[j].id].user != user
      {
        assert s.intents[j] == w[if j < k then j else j - 1];
      }
    }
  }

  /** The same where the replay reads and writes without a step in between. */
  lemma {:induction false} PresentLocksOutIff(s: Split, id: nat, now: real, active: bool)
    requires id < |s.db.tokens| && s.db.tokens[id].revoked
    ensures var user := s.db.tokens[id].user;
            LockedOut(NextSplit(s, Whole(Present(id, now, active))), user) <==>
              NonePending(s.db, user) && NoIntent(s, user)
  {
    hide LockedOut, Quiet;
    LockedOutIff(NextSplit(s, Whole(Present(id, now, active))), s.db.tokens[id].user);
    PresentQuiet(s, id, now, active);
  }

  lemma {:induction false} PresentQuiet(s: Split, id: nat, now: real, active: bool)
    requires id < |s.db.tokens| && s.db.tokens[id].revoked
    ensures var user := s.db.tokens[id].user;
            Quiet(NextSplit(s, Whole(Present(id, now, active))), user) <==>
              NonePending(s.db, user) && NoIntent(s, user)
  {
    ReplayRevokesAll(s.db, id, now, active);
  }

  /** A run of whole transactions. */
  function Wholes(events: seq<Event>): (r: seq<SplitEvent>)
    ensures |r| == |events| && forall i :: 0 <= i < |r| ==> r[i] == Whole(events[i])
  {
    seq(|events|, i requires 0 <= i < |events| => Whole(events[i]))
  }

  lemma {:induction false} WholesRun(db: Db, events: seq<Event>)
    ensures RunFrom(Split(db, []), Wholes(events)) == Split(Run(db, events), [])
  {
    hide Next;
    if events != [] {
      var n := |events| - 1;
      WholesRun(db, events[..n]);
      assert Wholes(events)[..n] == Wholes(events[..n]);
    }
  }

  /** Were each transaction one step, the pending rotations alone would decide. */
  lemma {:induction false} AtomicReplayLocksOutIff(db: Db, id: nat, now: real, active: bool)
    requires id < |db.tokens| && db.tokens[id].revoked
    ensures var user, db' := db.tokens[id].user, Next(db, Present(id, now, active));
            (forall events :: NoLogin(Wholes(events), user) ==> NoneLive(Run(db', events), user)) <==>
              NonePending(db, user)
  {
    hide RunFrom, Run, Next, LockedOut, NoneLive;
    var user, s := db.tokens[id].user, Split(db, []);
    var s' := NextSplit(s, Whole(Present(id, now, active)));
    PresentLocksOutIff(s, id, now, active);
    if NonePending(db, user) {
      forall events | NoLogin(Wholes(events), user) ensures NoneLive(Run(s'.db, events), user) {
        WholesRun(s'.db, events);
        ShutOut(s', Wholes(events), user);
      }
    } else {
      PresentPending(db, id, now, active);
      var k: nat :| k < |db.pending| && db.pending[k] < |db.tokens| && db.tokens[db.pending[k]].user == user;
      var e := Issue(k, 0.0);
      PendingRevives(s', k, user);
      RunTwo(s', Whole(e), Whole(e));
      WholesRun(s'.db, [e]);
      assert Wholes([e]) == [Whole(e)];
      assert NoLogin(Wholes([e]), user);
    }
  }

  lemma {:induction false} ShutOut(s: Split, events: seq<SplitEvent>, user: UserId)
    requires LockedOut(s, user) && NoLogin(events, user)
    ensures NoneLive(RunFrom(s, events).db, user)
  {
  }

  lemma {:induction false} PresentPending(db: Db, id: nat, now: real, active: bool)
    requires id < |db.tokens| && db.tokens[id].revoked
    ensures var db' := Next(db, Present(id, now, active));
            && db'.pending == db.pending && |db'.tokens| == |db.tokens|
            && forall i :: 0 <= i < |db.tokens| ==> db'.tokens[i].user == db.tokens[i].user
  {
  }

  /**
   Two logins of one user, the second logged out again; a request reads the first token; the
   second is replayed; then the request writes and issues.
   */
  function Missed(user: UserId, now: real, expires: real): seq<SplitEvent> {
    [Whole(Login(user, expires)), Whole(Login(user, expires)), Whole(Logout(1)), Read(0, now, true),
     Whole(Present(1, now, true)), Write(0), Whole(Issue(0, expires))]
  }

  lemma {:induction false} MissedReplay(user: UserId, now: real, expires: real)
    requires now <= expires
    ensures var spent := Token(user, None, true, expires);
            RunSplit(Missed(user, now, expires)[..5]) == Split(Db([spent, spent], []), [Rotate(0)])
  {
    hide RunSplit, RevokedFor;
    var r, t := Missed(user, now, expires), Token(user, None, false, expires);
    var spent := t.(revoked := true);
    EmptyRunSplit();
    RunMore([], r[0]);
    var r1 := [] + [r[0]];
    assert RunSplit(r1) == Split(Db([t], []), []);
    RunMore(r1, r[1]);
    var r2 := r1 + [r[1]];
    assert RunSplit(r2) == Split(Db([t, t], []), []);
    RunMore(r2, r[2]);
    var r3 := r2 + [r[2]];
    assert RunSplit(r3) == Split(Db([t, spent], []), []);
    RunMore(r3, r[3]);
    var r4 := r3 + [r[3]];
    assert RunSplit(r4) == Split(Db([t, spent], []), [Rotate(0)]);
    RunMore(r4, r[4]);
    assert r4 + [r[4]] == r[..5];
    assert RevokedFor([t, spent], user) == [spent, spent];
  }

  lemma {:induction false} MissedWrite(before: seq<SplitEvent>, spent: Token, expires: real)
    requires RunSplit(before) == Split(Db([spent, spent], []), [Rotate(0)]) && spent.revoked
    ensures RunSplit(before + [Write(0)] + [Whole(Issue(0, expires))])
         == Split(Db([spent, spent, Token(spent.user, Some(0), false, expires)], []), [])
  {
    hide RunSplit, RevokedFor;
    RunMore(before, Write(0));
    assert Without([Rotate(0)], 0) == [];
    assert RunSplit(before + [Write(0)]) == Split(Db([spent, spent], [0]), []);
    RunMore(before + [Write(0)], Whole(Issue(0, expires)));
    assert Without([0], 0) == [];
  }

  /**
   The replay leaves nothing live and nothing pending, and two steps later, without a login,
   the user holds a live token again.
   */
  lemma {:induction false} ReplayMissesRead(user: UserId, now: real, expires: real)
    requires now <= expires
    ensures var r := Missed(user, now, expires);
            var s := RunSplit(r[..5]);
            && NoneLive(s.db, user) && NonePending(s.db, user) && NoLogin(r[5..], user)
            && Live(RunSplit(r).db, 2) && RunSplit(r).db.tokens[2].user == user && !LockedOut(s, user)
  {
    hide RunSplit, LockedOut;
    var r, spent := Missed(user, now, expires), Token(user, None, true, expires);
    MissedReplay(user, now, expires);
    MissedWrite(r[..5], spent, expires);
    assert r[..5] + [Write(0)] + [Whole(Issue(0, expires))] == r;
    var s := RunSplit(r[..5]);
    LockedOutIff(s, user);
    assert s.intents[0] == Rotate(0) && !NoIntent(s, user);
  }

  // ----- where successors come from -----

  /** A presentation of the token by an active account, not after the given time. */
  predicate PresentsBy(e: SplitEvent, id: nat, expires: real) {
    match e
    case Read(i, now, active) => i == id && active && now <= expires
    case Whole(Present(i, now, active)) => i == id && active && now <= expires
    case _ => false
  }

  ghost predicate Presented(events: seq<SplitEvent>, id: nat, expires: real) {
    exists j :: 0 <= j < |events| && PresentsBy(events[j], id, expires)
  }

  /** The token is known, and was presented in time. */
  ghost predicate Earned(events: seq<SplitEvent>, tokens: seq<Token>, id: nat) {
    id < |tokens| && Presented(events, id, tokens[id].expires)
  }

  ghost predicate Stems(events: seq<SplitEvent>, s: Split) {
    && (forall i :: 0 <= i < |s.db.tokens| && s.db.tokens[i].parent.Some? ==>
          Earned(events, s.db.tokens, s.db.tokens[i].parent.value))
    && (forall k :: 0 <= k < |s.db.pending| ==> Earned(events, s.db.tokens, s.db.pending[k]))
    && (forall k :: 0 <= k < |s.intents| && s.intents[k].Rotate? ==> Earned(events, s.db.tokens, s.intents[k].id))
  }

  lemma {:induction false} StillEarned(events: seq<SplitEvent>, e: SplitEvent, a: seq<Token>, b: seq<Token>, id: nat)
    requires Grows(a, b) && Earned(events, a, id)
    ensures Earned(events + [e], b, id)
  {
    var j :| 0 <= j < |events| && PresentsBy(events[j], id, a[id].expires);
    assert (events + [e])[j] == events[j];
  }

  lemma {:induction false} NowEarned(events: seq<SplitEvent>, e: SplitEvent, tokens: seq<Token>, id: nat)
    requires id < |tokens| && PresentsBy(e, id, tokens[id].expires)
    ensures Earned(events + [e], tokens, id)
  {
    assert (events + [e])[|events|] == e;
  }

  lemma {:induction false} SplitGrows(s: Split, e: SplitEvent)
    ensures Grows(s.db.tokens, NextSplit(s, e).db.tokens)
  {
    if e.Whole? {
      NextGrows(s.db, e.e);
    }
  }

  /** What a step can put in a place from which a successor comes. */
  ghost predicate FromBefore(s: Split, s': Split, e: SplitEvent) {
    && (forall i :: |s.db.tokens| <= i < |s'.db.tokens| && s'.db.tokens[i].parent.Some? ==>
          s'.db.tokens[i].parent.value in s.db.pending)
    && (forall k :: 0 <= k < |s'.db.pending| ==>
          || s'.db.pending[k] in s.db.pending
          || Rotate(s'.db.pending[k]) in s.intents
          || (s'.db.pending[k] < |s.db.tokens| && PresentsBy(e, s'.db.pending[k], s.db.tokens[s'.db.pending[k]].expires)))
    && (forall k :: 0 <= k < |s'.intents| && s'.intents[k].Rotate? ==>
          || s'.intents[k] in s.intents
          || (s'.intents[k].id < |s.db.tokens| && PresentsBy(e, s'.intents[k].id, s.db.tokens[s'.intents[k].id].expires)))
  }

  lemma {:induction false} StepFromBefore(s: Split, e: SplitEvent)
    ensures FromBefore(s, NextSplit(s, e), e)
  {
    match e
    case Whole(x) =>
    case Read(_, _, _) =>
    case Write(k) =>
      if k < |s.intents| {
        assert s.intents[k] in s.intents;
      }
  }

  lemma {:induction false} NextStems(events: seq<SplitEvent>, s: Split, e: SplitEvent)
    requires Stems(events, s)
    ensures Stems(events + [e], NextSplit(s, e))
  {
    hide NextSplit, Earned, Grows, PresentsBy;
    var s', es := NextSplit(s, e), events + [e];
    SplitGrows(s, e);
    StepFromBefore(s, e);
    SizesGrow(s.db.tokens, s'.db.tokens);
    forall i | 0 <= i < |s'.db.tokens| && s'.db.tokens[i].parent.Some?
      ensures Earned(es, s'.db.tokens, s'.db.tokens[i].parent.value)
    {
      var p := s'.db.tokens[i].parent.value;
      if i < |s.db.tokens| {
        assert s.db.tokens[i].parent == Some(p);
      }
      StillEarned(events, e, s.db.tokens, s'.db.tokens, p);
    }
    forall k | 0 <= k < |s'.db.pending| ensures Earned(es, s'.db.tokens, s'.db.pending[k]) {
      EarnedStep(events, s, s', e, s'.db.pending[k]);
    }
    forall k | 0 <= k < |s'.intents| && s'.intents[k].Rotate? ensures Earned(es, s'.db.tokens, s'.intents[k].id) {
      EarnedStep(events, s, s', e, s'.intents[k].id);
    }
  }

  lemma {:induction false} SizesGrow(a: seq<Token>, b: seq<Token>)
    requires Grows(a, b)
    ensures |a| <= |b| && forall i :: 0 <= i < |a| ==> b[i].parent == a[i].parent && b[i].expires == a[i].expires
  {
  }

  lemma {:induction false} EarnedStep(events: seq<SplitEvent>, s: Split, s': Split, e: SplitEvent, id: nat)
    requires Stems(events, s) && Grows(s.db.tokens, s'.db.tokens)
    requires id in s.db.pending || Rotate(id) in s.intents
             || (id < |s.db.tokens| && PresentsBy(e, id, s.db.tokens[id].expires))
    ensures Earned(events + [e], s'.db.tokens, id)
  {
    hide Earned, PresentsBy;
    if id in s.db.pending || Rotate(id) in s.intents {
      StillEarned(events, e, s.db.tokens, s'.db.tokens, id);
    } else {
      NowEarned(events, e, s'.db.tokens, id);
    }
  }

  /**
   In every run, with the statements of the first transaction apart: every token that has a
   parent, every rotation between its two transactions, and every one that has read its row
   and not yet written it, goes back to a presentation of that very token by an active account
   at a time not after its expiry.
   */
  lemma {:induction false} SuccessorsWerePresented(events: seq<SplitEvent>)
    ensures Stems(events, RunSplit(events))
  {
    hide NextSplit, Earned;
    if events != [] {
      var n := |events| - 1;
      SuccessorsWerePresented(events[..n]);
      hide Stems;
      NextStems(events[..n], RunSplit(events[..n]), events[n]);
      assert events[..n] + [events[n]] == events;
    }
  }

  /** A token that is only ever presented late, or by a disabled account, has no successor and gets none. */
  lemma {:induction false} LateNeverSucceeded(events: seq<SplitEvent>, p: nat)
    requires var tokens := RunSplit(events).db.tokens;
             p < |tokens| && !Presented(events, p, tokens[p].expires)
    ensures var s := RunSplit(events);
            && (forall i :: 0 <= i < |s.db.tokens| ==> s.db.tokens[i].parent != Some(p))
            && p !in s.db.pending && Rotate(p) !in s.intents
  {
    hide RunSplit, Presented;
    SuccessorsWerePresented(events);
  }

  /** The same where each transaction is one step. */
  lemma {:induction false} AtomicSuccessorsWerePresented(events: seq<Event>, i: nat)
    requires var db := Run(Empty, events); i < |db.tokens| && db.tokens[i].parent.Some?
    ensures var tokens := Run(Empty, events).tokens;
            var p := tokens[i].parent.value;
            && p < |tokens|
            && exists j :: 0 <= j < |events| && events[j].Present? && events[j].id == p && events[j].active
                           && events[j].now <= tokens[p].expires
  {
    WholesRun(Empty, events);
    hide Run, RunFrom;
    SuccessorsWerePresented(Wholes(events));
    var tokens := Run(Empty, events).tokens;
    var p := tokens[i].parent.value;
    assert Earned(Wholes(events), tokens, p);
    var j :| 0 <= j < |events| && PresentsBy(Wholes(events)[j], p, tokens[p].expires);
    assert Wholes(events)[j] == Whole(events[j]);
  }

  /**
   And the other way round: a token that is known, live and not past its expiry, presented by
   an active account, is revoked and, once issued, has a live successor of its own user. Nothing
   else changes.
   */
  lemma {:induction false} InTimeSucceeds(db: Db, id: nat, now: real, expires: real)
    requires id < |db.tokens| && !db.tokens[id].revoked && now <= db.tokens[id].expires
    ensures var db' := Next(Next(db, Present(id, now, true)), Issue(|db.pending|, expires));
            var n := |db.tokens|;
            && |db'.tokens| == n + 1 && db'.tokens[n] == Token(db.tokens[id].user, Some(id), false, expires)
            && db'.tokens[id].revoked && db'.pending == db.pending
            && (forall i :: 0 <= i < n && i != id ==> db'.tokens[i] == db.tokens[i])
  {
    var db1 := Next(db, Present(id, now, true));
    assert db1 == Db(RevokedAt(db.tokens, id), db.pending + [id]);
    assert (db.pending + [id])[..|db.pending|] + (db.pending + [id])[|db.pending| + 1..] == db.pending;
  }

  /** A live token that is past its expiry, or whose account is disabled, or an unknown one: nothing changes. */
  lemma {:induction false} RefusedChangesNothing(s: Split, id: nat, now: real, active: bool)
    requires id < |s.db.tokens| ==> !s.db.tokens[id].revoked && (now > s.db.tokens[id].expires || !active)
    ensures NextSplit(s, Whole(Present(id, now, active))) == s && NextSplit(s, Read(id, now, active)) == s
  {
  }

  // ----- rotations are accounted for -----

  function HasParent(): Token -> nat {
    (t: Token) => if t.parent.Some? then 1 else 0
  }

  /** The step revokes a token in order to replace it. */
  predicate StartsRotation(s: Split, e: SplitEvent) {
    match e
    case Whole(Present(id, now, active)) =>
      id < |s.db.tokens| && !s.db.tokens[id].revoked && now <= s.db.tokens[id].expires && active
    case Write(k) => k < |s.intents| && s.intents[k].Rotate? && s.intents[k].id < |s.db.tokens|
    case _ => false
  }

  /** The step is a crash between the two transactions of a rotation. */
  predicate Crashes(s: Split, e: SplitEvent) {
    e.Whole? && e.e.Abandon? && e.e.k < |s.db.pending|
  }

  function Rotations(events: seq<SplitEvent>): nat {
    if events == [] then 0
    else
      var n := |events| - 1;
      Rotations(events[..n]) + if StartsRotation(RunSplit(events[..n]), events[n]) then 1 else 0
  }

  function CrashCount(events: seq<SplitEvent>): nat {
    if events == [] then 0
    else
      var n := |events| - 1;
      CrashCount(events[..n]) + if Crashes(RunSplit(events[..n]), events[n]) then 1 else 0
  }

  lemma {:induction false} SameParentage(a: seq<Token>, b: seq<Token>)
    requires |a| == |b| && forall i :: 0 <= i < |a| ==> b[i].parent == a[i].parent
    ensures Total(HasParent(), a) == Total(HasParent(), b)
  {
    if a != [] {
      SameParentage(a[..|a| - 1], b[..|b| - 1]);
    }
  }

  lemma {:induction false} StepAccounts(s: Split, e: SplitEvent)
    requires forall k :: 0 <= k < |s.db.pending| ==> s.db.pending[k] < |s.db.tokens|
    ensures var db, db' := s.db, NextSplit(s, e).db;
            Total(HasParent(), db'.tokens) + |db'.pending| + (if Crashes(s, e) then 1 else 0)
              == Total(HasParent(), db.tokens) + |db.pending| + (if StartsRotation(s, e) then 1 else 0)
  {
    hide Total;
    var tokens, tokens' := s.db.tokens, NextSplit(s, e).db.tokens;
    if |tokens'| == |tokens| {
      SameParentage(tokens, tokens');
    } else {
      assert tokens' == tokens + [tokens'[|tokens|]];
      TotalPush(HasParent(), tokens, tokens'[|tokens|]);
    }
  }

  /**
   In every run, with the statements of the first transaction apart: every rotation that was
   started has issued its token, is between its two transactions, or crashed there.
   */
  lemma {:induction false} RotationsConserved(events: seq<SplitEvent>)
    ensures var db := RunSplit(events).db;
            Total(HasParent(), db.tokens) + |db.pending| + CrashCount(events) == Rotations(events)
  {
    hide NextSplit, StartsRotation, Crashes;
    if events != [] {
      var n := |events| - 1;
      RotationsConserved(events[..n]);
      SuccessorsWerePresented(events[..n]);
      PendingExists(events[..n], RunSplit(events[..n]));
      hide Total;
      StepAccounts(RunSplit(events[..n]), events[n]);
    }
  }

  lemma {:induction false} PendingExists(events: seq<SplitEvent>, s: Split)
    requires Stems(events, s)
    ensures forall k :: 0 <= k < |s.db.pending| ==> s.db.pending[k] < |s.db.tokens|
  {
  }
}
