/** A transaction block while any other borrowers get, use, lose and return connections between its
    statements. */
module TransactionInterleaving {
  import opened ConnectionPool

  /** The action is on proxy p. */
  predicate Names(a: Action, p: nat) {
    match a
    case AExecute(q, _) => q == p
    case ASetAutocommit(q, _) => q == p
    case ACommit(q, _) => q == p
    case ARollback(q) => q == p
    case AClose(q, _) => q == p
    case _ => false
  }

  function Of(actions: seq<Action>, p: nat): seq<Action> {
    if actions == [] then []
    else (if Names(actions[0], p) then [actions[0]] else []) + Of(actions[1..], p)
  }

  function Executes(p: nat, items: seq<int>): seq<Action> {
    if items == [] then [] else [AExecute(p, items[0])] + Executes(p, items[1..])
  }

  /** What is committed of the writes of one borrower, in order. */
  function OwnWrites(database: seq<Committed>, p: nat): seq<Write> {
    if database == [] then []
    else
      var last := database[|database| - 1];
      OwnWrites(database[..|database| - 1], p) + if last.write.borrower == p then [last.write] else []
  }

  lemma LastCommit(database: seq<Committed>, writes: seq<Write>, q: nat)
    requires writes != []
    ensures var n := |writes| - 1;
            database + CommitsBy(writes, q) == database + CommitsBy(writes[..n], q) + [Committed(writes[n], q)]
  {
    var n := |writes| - 1;
    assert CommitsBy(writes, q) == CommitsBy(writes[..n], q) + [Committed(writes[n], q)];
  }

  lemma {:induction false} OwnWritesOfCommits(database: seq<Committed>, writes: seq<Write>, q: nat, p: nat)
    requires forall i | 0 <= i < |writes| :: writes[i].borrower == q
    ensures OwnWrites(database + CommitsBy(writes, q), p) == OwnWrites(database, p) + (if p == q then writes else [])
  {
    if writes == [] {
      assert database + CommitsBy(writes, q) == database;
    } else {
      var n := |writes| - 1;
      LastCommit(database, writes, q);
      hide CommitsBy, OwnWrites;
      OwnWritesOfCommits(database, writes[..n], q, p);
      OwnWritesSnoc(database + CommitsBy(writes[..n], q), Committed(writes[n], q), p);
      assert writes == writes[..n] + [writes[n]];
    }
  }

  lemma OwnWritesSnoc(database: seq<Committed>, c: Committed, p: nat)
    ensures OwnWrites(database + [c], p) == OwnWrites(database, p) + if c.write.borrower == p then [c.write] else []
  {
    assert (database + [c])[..|database|] == database;
  }

  // ---- What the others' steps leave alone ----

  /** Only executing and committing through p commit anything of p. */
  lemma StepKeepsWrites(config: Config, s: State, a: Action, p: nat)
    requires Inv(s) && !(Names(a, p) && (a.AExecute? || a.ACommit?))
    ensures OwnWrites(Step(config, s, a).database, p) == OwnWrites(s.database, p)
  {
    match a
    case AGet(enabled, raises) => GetConnectionHandsOutCleanly(config, s, enabled, raises);
    case AExecute(q, item) =>
      if Usable(s, q) {
        OwnWritesSnoc(s.database, Committed(Write(q, item), q), p);
      }
    case ACommit(q, fails) =>
      if Usable(s, q) {
        assert ProxyOk(s, q) && ConnOk(s, s.proxies[q].conn);
        hide Inv;
        OwnWritesOfCommits(s.database, Connected(s, q).pending, q, p);
      }
    case AClose(q, raises) =>
      if Closable(s, q) {
        CloseKeepsDatabase(config, s, q, raises);
      }
    case _ =>
  }

  lemma CloseKeepsDatabase(config: Config, s: State, q: nat, raises: bool)
    requires Closable(s, q)
    ensures Close(config, s, q, raises).database == s.database
  {
  }

  /** The block holds connection c, which is dead or carries exactly what the block has executed. */
  predicate Holding(s: State, p: nat, done: seq<int>) {
    && p < |s.proxies| && !s.proxies[p].returned && s.proxies[p].conn < |s.conns|
    && var conn := s.conns[s.proxies[p].conn];
       conn.isOpen ==> !conn.autocommit && conn.pending == WritesOf(p, done)
  }

  /** Another proxy's connection is another connection. */
  lemma OthersElsewhere(s: State, p: nat, q: nat)
    requires Inv(s) && p < |s.proxies| && q < |s.proxies| && p != q
    requires !s.proxies[p].returned && !s.proxies[q].returned
    ensures s.proxies[p].conn != s.proxies[q].conn
  {
    assert ProxyOk(s, p) && ProxyOk(s, q);
  }

  lemma TakeKeepsHolding(config: Config, s: State, raises: bool, p: nat, done: seq<int>)
    requires Inv(s) && HasPool(s) && Holding(s, p, done)
    ensures Holding(Take(config, s, raises).0, p, done)
  {
    assert ProxyOk(s, p);
    TakeMoves(config, s, raises);
    hide Inv, Take, WritesOf;
  }

  lemma DirectKeepsHolding(s: State, p: nat, done: seq<int>)
    requires Holding(s, p, done)
    ensures Holding(DirectConnect(s), p, done)
  {
  }

  lemma GetKeepsHolding(config: Config, s: State, enabled: bool, raises: bool, p: nat, done: seq<int>)
    requires Inv(s) && Holding(s, p, done)
    ensures Holding(GetConnection(config, s, enabled, raises), p, done)
  {
    WithPoolKeeps(s);
    assert Holding(WithPool(s), p, done);
    hide Inv, Holding, WithPool, Take;
    if enabled {
      TakeKeepsHolding(config, WithPool(s), raises, p, done);
      DirectKeepsHolding(Take(config, WithPool(s), raises).0, p, done);
    } else {
      DirectKeepsHolding(s, p, done);
    }
  }

  lemma CloseKeepsHolding(config: Config, s: State, q: nat, raises: bool, p: nat, done: seq<int>)
    requires Inv(s) && Holding(s, p, done) && Closable(s, q) && q != p
    ensures Holding(Close(config, s, q, raises), p, done)
  {
    if !s.proxies[q].returned {
      OthersElsewhere(s, p, q);
      CloseMovesOne(config, s, q, raises);
    }
    hide Inv, Close, WritesOf;
  }

  lemma OtherStepKeepsHolding(config: Config, s: State, a: Action, p: nat, done: seq<int>)
    requires Inv(s) && Holding(s, p, done) && !Names(a, p)
    ensures Holding(Step(config, s, a), p, done)
  {
    hide WritesOf, GetConnection, Close;
    match a
    case AGet(enabled, raises) => GetKeepsHolding(config, s, enabled, raises, p, done);
    case AClose(q, raises) => if Closable(s, q) { CloseKeepsHolding(config, s, q, raises, p, done); }
    case AExecute(q, item) => if Usable(s, q) { OthersElsewhere(s, p, q); }
    case ASetAutocommit(q, on) => if Usable(s, q) { OthersElsewhere(s, p, q); }
    case ACommit(q, fails) => if Usable(s, q) { OthersElsewhere(s, p, q); }
    case ARollback(q) => if Usable(s, q) { OthersElsewhere(s, p, q); }
    case ASever(c) =>
    case AClosePool =>
  }

  /** A statement of the block itself commits nothing and is added to what the connection carries. */
  lemma OwnStepKeepsHolding(config: Config, s: State, p: nat, item: int, done: seq<int>)
    requires Holding(s, p, done)
    ensures var t := Step(config, s, AExecute(p, item)); Holding(t, p, done + [item]) && t.database == s.database
  {
    assert WritesOf(p, done + [item]) == WritesOf(p, done) + [Write(p, item)];
  }

  // ---- The whole block ----

  lemma FirstOfBody(body: seq<Action>, p: nat, items: seq<int>)
    requires body != [] && Of(body, p) == Executes(p, items)
    ensures if Names(body[0], p)
            then items != [] && body[0] == AExecute(p, items[0]) && Of(body[1..], p) == Executes(p, items[1..])
            else Of(body[1..], p) == Executes(p, items)
  {
    if Names(body[0], p) {
      assert Of(body, p)[0] == body[0] && Of(body, p)[1..] == Of(body[1..], p);
      assert items != [] ==> Executes(p, items)[1..] == Executes(p, items[1..]);
    }
  }

  lemma RunFirst(config: Config, s: State, actions: seq<Action>)
    requires actions != []
    ensures Run(config, s, actions) == Run(config, Step(config, s, actions[0]), actions[1..])
  {
    hide Step;
  }

  lemma EmptyBody(config: Config, s: State, p: nat, items: seq<int>)
    requires Of([], p) == Executes(p, items)
    ensures items == [] && Run(config, s, []) == s
  {
  }

  lemma {:induction false} BodyKeepsHolding(config: Config, s: State, body: seq<Action>, p: nat, items: seq<int>,
                                            done: seq<int>)
    requires Inv(s) && Holding(s, p, done) && Of(body, p) == Executes(p, items)
    ensures var t := Run(config, s, body);
            Inv(t) && Holding(t, p, done + items) && OwnWrites(t.database, p) == OwnWrites(s.database, p)
    decreases |body|
  {
    hide Run, Step, Inv, Holding, OwnWrites, Of, Executes;
    if body == [] {
      EmptyBody(config, s, p, items);
      assert done + [] == done;
    } else {
      var a := body[0];
      var t := Step(config, s, a);
      StepKeeps(config, s, a);
      FirstOfBody(body, p, items);
      RunFirst(config, s, body);
      if Names(a, p) {
        OwnStepKeepsHolding(config, s, p, items[0], done);
        BodyKeepsHolding(config, t, body[1..], p, items[1..], done + [items[0]]);
        assert done + [items[0]] + items[1..] == done + items;
      } else {
        OtherStepKeepsHolding(config, s, a, p, done);
        StepKeepsWrites(config, s, a, p);
        BodyKeepsHolding(config, t, body[1..], p, items, done);
      }
    }
  }

  /** Rolling back and closing are all the block does after its commit or rollback. */
  predicate OnlyCleansUp(actions: seq<Action>, p: nat) {
    forall i | 0 <= i < |actions| :: Names(actions[i], p) ==> actions[i].ARollback? || actions[i].AClose?
  }

  lemma {:induction false} TailKeepsWrites(config: Config, s: State, tail: seq<Action>, p: nat)
    requires Inv(s) && OnlyCleansUp(tail, p)
    ensures var t := Run(config, s, tail); Inv(t) && OwnWrites(t.database, p) == OwnWrites(s.database, p)
    decreases |tail|
  {
    if tail != [] {
      StepKeeps(config, s, tail[0]);
      StepKeepsWrites(config, s, tail[0], p);
      hide Step, Inv, OwnWrites;
      TailKeepsWrites(config, Step(config, s, tail[0]), tail[1..], p);
    }
  }

  lemma {:induction false} RunAppend(config: Config, s: State, a: seq<Action>, b: seq<Action>)
    ensures Run(config, s, a + b) == Run(config, Run(config, s, a), b)
    decreases |a|
  {
    hide Step;
    if a == [] {
      assert a + b == b;
    } else {
      RunAppend(config, Step(config, s, a[0]), a[1..], b);
      assert (a + b)[1..] == a[1..] + b;
    }
  }

  lemma FinishWrites(config: Config, s: State, finish: Action, p: nat, items: seq<int>)
    requires Inv(s) && Holding(s, p, items) && Names(finish, p) && (finish.ACommit? || finish.ARollback?)
    ensures OwnWrites(Step(config, s, finish).database, p)
            == OwnWrites(s.database, p)
               + (if finish == ACommit(p, false) && Usable(s, p) then WritesOf(p, items) else [])
  {
    hide Inv;
    if finish.ACommit? && Usable(s, p) {
      OwnWritesOfCommits(s.database, WritesOf(p, items), p, p);
    }
  }

  /** However other borrowers interleave: from a freshly handed-out proxy, a block that executes `items`
      and then commits or rolls back has in the end committed all of them, in order, exactly when its
      commit came through on a live connection, and otherwise none. A connection that died in between
      took everything with it; whether the close raises makes no difference. */
  lemma InterleavedTransactionIsAllOrNothing(config: Config, s: State, p: nat, items: seq<int>, body: seq<Action>,
                                             finish: Action, tail: seq<Action>)
    requires Inv(s) && p < |s.proxies| && !s.proxies[p].returned
    requires s.proxies[p].conn < |s.conns| && Clean(s.conns[s.proxies[p].conn])
    requires Of(body, p) == Executes(p, items)
    requires Names(finish, p) && (finish.ACommit? || finish.ARollback?)
    requires OnlyCleansUp(tail, p)
    ensures OwnWrites(Run(config, s, body + [finish] + tail).database, p)
            == OwnWrites(s.database, p)
               + (if finish == ACommit(p, false) && Usable(Run(config, s, body), p) then WritesOf(p, items) else [])
  {
    assert WritesOf(p, []) == [];
    BodyKeepsHolding(config, s, body, p, items, []);
    assert [] + items == items;
    var t := Run(config, s, body);
    var u := Step(config, t, finish);
    FinishWrites(config, t, finish, p, items);
    StepKeeps(config, t, finish);
    hide Step, Inv, OwnWrites, Usable, Run;
    TailKeepsWrites(config, u, tail, p);
    RunAppend(config, s, body + [finish], tail);
    RunAppend(config, s, body, [finish]);
    assert Run(config, t, [finish]) == u by { RunOne(config, t, finish); }
  }

  lemma RunOne(config: Config, s: State, a: Action)
    ensures Run(config, s, [a]) == Step(config, s, a)
  {
    hide Step;
    assert [a][1..] == [];
    assert Run(config, Step(config, s, a), [a][1..]) == Step(config, s, a);
  }
}
