/** Connections that fall out of the pool: which calls strand them, for how long, and what that costs. */
module PoolStranding {
  import opened ConnectionPool

  // ---- Conservation and capacity ----

  function HeldFrom(s: State, g: nat): set<nat> {
    set p | 0 <= p < |s.proxies| && !s.proxies[p].returned && s.proxies[p].origin == Pooled(g) :: s.proxies[p].conn
  }

  function Stranded(s: State, g: nat): set<nat> {
    set c | 0 <= c < |s.conns| && s.conns[c].place == StrandedIn(g)
  }

  /** What an open pool counts as used is exactly what its unreturned proxies hold, plus the
      connections that were stranded. */
  lemma UsedIsHeldPlusStranded(config: Config, actions: seq<Action>, g: nat)
    ensures var s := Run(config, START, actions);
            g < |s.pools| && !s.pools[g].closed ==>
              && s.pools[g].used == HeldFrom(s, g) + Stranded(s, g)
              && HeldFrom(s, g) !! Stranded(s, g)
  {
    var s := Run(config, START, actions);
    RunKeeps(config, START, actions);
    if g < |s.pools| && !s.pools[g].closed {
      assert PoolOk(s, g);
      forall c ensures c in s.pools[g].used <==> c in HeldFrom(s, g) + Stranded(s, g) {
        if c in s.pools[g].used {
          assert UsedOk(s, g, c);
          assert ConnOk(s, c);
        }
        if c in Stranded(s, g) {
          assert StrandedOk(s, c);
        }
        if c in HeldFrom(s, g) {
          var p :| 0 <= p < |s.proxies| && !s.proxies[p].returned && s.proxies[p].origin == Pooled(g)
            && s.proxies[p].conn == c;
          assert ProxyOk(s, p);
        }
      }
      forall p | 0 <= p < |s.proxies| && !s.proxies[p].returned ensures s.proxies[p].conn !in Stranded(s, g) {
        assert ProxyOk(s, p);
      }
    }
  }

  ghost predicate WithinCapacity(config: Config, s: State) {
    forall g | 0 <= g < |s.pools| && !s.pools[g].closed :: |s.pools[g].used| + |s.pools[g].idle| <= config.maxConn
  }

  lemma GetConnFits(config: Config, s: State, holder: Place)
    requires Inv(s) && WithinCapacity(config, s) && HasPool(s)
    ensures WithinCapacity(config, GetConn(config, s, holder).0)
  {
    assert PoolOk(s, |s.pools| - 1);
  }

  lemma CloseFits(config: Config, s: State, p: nat, raises: bool)
    requires Inv(s) && WithinCapacity(config, s) && Closable(s, p)
    ensures WithinCapacity(config, Close(config, s, p, raises))
  {
    if !s.proxies[p].returned {
      assert ProxyOk(s, p);
      CloseMovesOne(config, s, p, raises);
    }
  }

  lemma StepFits(config: Config, s: State, a: Action)
    requires Inv(s) && WithinCapacity(config, s)
    ensures WithinCapacity(config, Step(config, s, a))
  {
    match a
    case AGet(enabled, autocommitRaises) =>
      if enabled {
        WithPoolKeeps(s);
        var g := |WithPool(s).pools| - 1;
        GetConnFits(config, WithPool(s), if autocommitRaises then StrandedIn(g) else HeldBy(|s.proxies|));
      }
    case AClose(p, raises) => if Closable(s, p) { CloseFits(config, s, p, raises); }
    case _ =>
  }

  lemma {:induction false} RunFits(config: Config, s: State, actions: seq<Action>)
    requires Inv(s) && WithinCapacity(config, s)
    ensures WithinCapacity(config, Run(config, s, actions))
    decreases |actions|
  {
    if actions != [] {
      StepFits(config, s, actions[0]);
      StepKeeps(config, s, actions[0]);
      RunFits(config, Step(config, s, actions[0]), actions[1..]);
    }
  }

  // ---- Which calls strand ----

  /** A call strands a connection exactly when setting autocommit raises after the pool had one to hand
      out: an idle one, or room for another. */
  lemma StrandsExactlyWhen(config: Config, s: State, raises: bool)
    requires Inv(s)
    ensures var w := WithPool(s); var g := |w.pools| - 1;
            Stranded(GetConnection(config, s, true, raises), g) != Stranded(w, g)
            <==> raises && (w.pools[g].idle != [] || |w.pools[g].used| < config.maxConn)
  {
    var w := WithPool(s);
    var t := Take(config, w, raises).0;
    WithPoolKeeps(s);
    hide Inv, Stranded, WithPool;
    TakeStrands(config, w, raises);
    if raises {
      TakeRaises(config, w);
    }
    hide Take;
    DirectStrandsNothing(t, |w.pools| - 1);
    HandedOutExactlyWhen(config, w);
  }

  lemma HandedOutExactlyWhen(config: Config, s: State)
    requires HasPool(s)
    ensures var pool := s.pools[|s.pools| - 1];
            HandedOut(config, s) != {} <==> pool.idle != [] || |pool.used| < config.maxConn
  {
  }

  lemma DirectStrandsNothing(s: State, g: nat)
    ensures Stranded(DirectConnect(s), g) == Stranded(s, g)
  {
  }

  /** The connection the pool hands out, if any. */
  function HandedOut(config: Config, s: State): set<nat>
    requires HasPool(s)
  {
    var pool := s.pools[|s.pools| - 1];
    if pool.idle != [] then {pool.idle[|pool.idle| - 1]}
    else if |pool.used| < config.maxConn then {|s.conns|}
    else {}
  }

  lemma MovedConnection(s: State, t: State, c: nat, place: Place, g: nat)
    requires c < |s.conns| && t.conns == s.conns[c := s.conns[c].(place := place)] && s.conns[c].place != StrandedIn(g)
    ensures Stranded(t, g) == Stranded(s, g) + (if place == StrandedIn(g) then {c} else {})
  {
  }

  lemma AddedConnection(s: State, t: State, conn: Connection, g: nat)
    requires t.conns == s.conns + [conn]
    ensures Stranded(t, g) == Stranded(s, g) + (if conn.place == StrandedIn(g) then {|s.conns|} else {})
  {
  }

  lemma TakeStrands(config: Config, s: State, raises: bool)
    requires Inv(s) && HasPool(s)
    ensures var g := |s.pools| - 1;
            && Stranded(Take(config, s, raises).0, g) == Stranded(s, g) + (if raises then HandedOut(config, s) else {})
            && HandedOut(config, s) !! Stranded(s, g)
  {
    var g := |s.pools| - 1;
    var pool, t := s.pools[g], Take(config, s, raises).0;
    var holder := if raises then StrandedIn(g) else HeldBy(|s.proxies|);
    TakeMoves(config, s, raises);
    assert forall c | c in Stranded(s, g) :: c < |s.conns| && s.conns[c].place == StrandedIn(g);
    hide Inv, Take, Stranded;
    if pool.idle != [] {
      MovedConnection(s, t, pool.idle[|pool.idle| - 1], holder, g);
    } else if |pool.used| < config.maxConn {
      AddedConnection(s, t, NewConnection(0).(place := holder), g);
    }
  }

  /** From a fresh process the very first call can strand: its connection is used by nobody, and the
      caller gets another one. */
  lemma FirstCallStrands(config: Config)
    requires config.maxConn >= 1
    ensures var s := Run(config, START, [AGet(true, true)]);
            && Stranded(s, 0) == {0} && s.pools[0].used == {0} && !s.pools[0].closed
            && |s.proxies| == 1 && s.proxies[0] == Proxy(1, Direct, false)
  {
    var s := Step(config, START, AGet(true, true));
    assert Run(config, START, [AGet(true, true)]) == Run(config, s, []) == s;
  }

  // ---- And for how long ----

  /** No action reopens a pool, or takes a pool or a connection off the books. */
  lemma GetKeepsClosed(config: Config, s: State, enabled: bool, raises: bool)
    ensures var t := GetConnection(config, s, enabled, raises);
            && |s.pools| <= |t.pools| && |s.conns| <= |t.conns|
            && forall g | 0 <= g < |s.pools| && s.pools[g].closed :: t.pools[g].closed
  {
  }

  lemma CloseKeepsClosed(config: Config, s: State, p: nat, raises: bool)
    requires Closable(s, p)
    ensures var t := Close(config, s, p, raises);
            && |s.pools| == |t.pools| && |s.conns| == |t.conns|
            && forall g | 0 <= g < |s.pools| && s.pools[g].closed :: t.pools[g].closed
  {
  }

  lemma StepKeepsClosed(config: Config, s: State, a: Action)
    ensures var t := Step(config, s, a);
            && |s.pools| <= |t.pools| && |s.conns| <= |t.conns|
            && forall g | 0 <= g < |s.pools| && s.pools[g].closed :: t.pools[g].closed
  {
    hide GetConnection, Close;
    match a
    case AGet(enabled, raises) => GetKeepsClosed(config, s, enabled, raises);
    case AClose(p, raises) => if Closable(s, p) { CloseKeepsClosed(config, s, p, raises); }
    case _ =>
  }

  lemma {:induction false} ClosedPoolsStayClosed(config: Config, s: State, actions: seq<Action>, g: nat, c: nat)
    requires g < |s.pools| && s.pools[g].closed && c < |s.conns|
    ensures var t := Run(config, s, actions); g < |t.pools| && t.pools[g].closed && c < |t.conns|
    decreases |actions|
  {
    hide Step;
    if actions != [] {
      StepKeepsClosed(config, s, actions[0]);
      ClosedPoolsStayClosed(config, Step(config, s, actions[0]), actions[1..], g, c);
    }
  }

  lemma GetKeepsStranded(config: Config, s: State, enabled: bool, raises: bool, g: nat, c: nat)
    requires Inv(s) && g < |s.pools| && c < |s.conns| && s.conns[c].place == StrandedIn(g)
    ensures var t := GetConnection(config, s, enabled, raises); c < |t.conns| && t.conns[c].place == StrandedIn(g)
  {
    WithPoolKeeps(s);
    if enabled {
      TakeMoves(config, WithPool(s), raises);
    }
    hide Take, Inv;
  }

  lemma CloseKeepsStranded(config: Config, s: State, p: nat, raises: bool, g: nat, c: nat)
    requires Inv(s) && Closable(s, p) && g < |s.pools| && c < |s.conns| && s.conns[c].place == StrandedIn(g)
    ensures var t := Close(config, s, p, raises); c < |t.conns| && t.conns[c].place == StrandedIn(g)
  {
    if !s.proxies[p].returned {
      assert ProxyOk(s, p);
      CloseMovesOne(config, s, p, raises);
    }
  }

  lemma StrandedStep(config: Config, s: State, a: Action, g: nat, c: nat)
    requires Inv(s) && g < |s.pools| && c < |s.conns| && s.conns[c].place == StrandedIn(g)
    ensures var t := Step(config, s, a);
            g < |t.pools| && c < |t.conns| && (t.pools[g].closed || t.conns[c].place == StrandedIn(g))
  {
    StepKeepsClosed(config, s, a);
    hide GetConnection, Close;
    match a
    case AGet(enabled, raises) => GetKeepsStranded(config, s, enabled, raises, g, c);
    case AClose(p, raises) => if Closable(s, p) { CloseKeepsStranded(config, s, p, raises, g, c); }
    case AClosePool => assert PoolOk(s, g); assert HasPool(s) ==> PoolOk(s, |s.pools| - 1);
    case _ =>
  }

  /** While its pool is open a stranded connection stays where it is, whatever anybody does. */
  lemma {:induction false} StrandedForGood(config: Config, s: State, actions: seq<Action>, g: nat, c: nat)
    requires Inv(s) && g < |s.pools| && c < |s.conns| && s.conns[c].place == StrandedIn(g)
    ensures var t := Run(config, s, actions);
            g < |t.pools| && c < |t.conns| && (t.pools[g].closed || t.conns[c].place == StrandedIn(g))
    decreases |actions|
  {
    if actions != [] {
      var t := Step(config, s, actions[0]);
      StrandedStep(config, s, actions[0], g, c);
      StepKeeps(config, s, actions[0]);
      hide Step;
      if t.pools[g].closed {
        ClosedPoolsStayClosed(config, t, actions[1..], g, c);
      } else {
        StrandedForGood(config, t, actions[1..], g, c);
      }
    }
  }

  /** So each stranding takes one connection away from all later borrowers. */
  lemma StrandingShrinksThePool(config: Config, actions: seq<Action>, g: nat)
    ensures var s := Run(config, START, actions);
            g < |s.pools| && !s.pools[g].closed ==>
              |HeldFrom(s, g)| + |Stranded(s, g)| + |s.pools[g].idle| <= config.maxConn
  {
    UsedIsHeldPlusStranded(config, actions, g);
    RunFits(config, START, actions);
  }
}
