/** The process-wide connection pool and the proxies handed out over it.

    Connections, proxies and pool generations are numbered in the order they come into
    being; every step of every borrower is a function on the whole state, so a run is any
    interleaving. psycopg2's pool is given the small specification its users rely on. */
module ConnectionPool {

  /** A statement some borrower (a proxy) has executed. */
  datatype Write = Write(borrower: nat, item: int)

  /** Where a connection is. Only an observation: no step looks at it. */
  datatype Place = HeldBy(proxy: nat) | IdleIn(pool: nat) | StrandedIn(pool: nat) | Gone

  datatype Connection = Connection(
    isOpen: bool, autocommit: bool, inTransaction: bool, pending: seq<Write>, place: Place)

  function NewConnection(proxy: nat): Connection {
    Connection(true, false, false, [], HeldBy(proxy))
  }

  datatype Origin = Pooled(pool: nat) | Direct

  datatype Proxy = Proxy(conn: nat, origin: Origin, returned: bool)

  datatype Pool = Pool(closed: bool, idle: seq<nat>, used: set<nat>)

  datatype Committed = Committed(write: Write, committer: nat)

  datatype State = State(conns: seq<Connection>, proxies: seq<Proxy>, pools: seq<Pool>, database: seq<Committed>)

  datatype Config = Config(minConn: nat, maxConn: nat)

  const START := State([], [], [], [])

  // ---- Steps on one connection ----

  predicate Usable(s: State, p: nat) {
    p < |s.proxies| && !s.proxies[p].returned && s.proxies[p].conn < |s.conns| && s.conns[s.proxies[p].conn].isOpen
  }

  function Connected(s: State, p: nat): Connection
    requires Usable(s, p)
  {
    s.conns[s.proxies[p].conn]
  }

  function SetConn(s: State, c: nat, conn: Connection): State
    requires c < |s.conns|
  {
    s.(conns := s.conns[c := conn])
  }

  function CommitsBy(writes: seq<Write>, committer: nat): seq<Committed> {
    seq(|writes|, (i: nat) requires i < |writes| => Committed(writes[i], committer))
  }

  function Execute(s: State, p: nat, item: int): State
    requires Usable(s, p)
  {
    var conn := Connected(s, p);
    if conn.autocommit then s.(database := s.database + [Committed(Write(p, item), p)])
    else SetConn(s, s.proxies[p].conn, conn.(inTransaction := true, pending := conn.pending + [Write(p, item)]))
  }

  /** psycopg2 refuses to change autocommit inside a transaction. */
  function SetAutocommit(s: State, p: nat, on: bool): State
    requires Usable(s, p)
  {
    var conn := Connected(s, p);
    if conn.inTransaction then s else SetConn(s, s.proxies[p].conn, conn.(autocommit := on))
  }

  function EndTransaction(conn: Connection): Connection {
    conn.(inTransaction := false, pending := [])
  }

  /** A commit that raises persists nothing. */
  function Commit(s: State, p: nat, fails: bool): State
    requires Usable(s, p)
  {
    var conn := Connected(s, p);
    SetConn(if fails then s else s.(database := s.database + CommitsBy(conn.pending, p)),
            s.proxies[p].conn, EndTransaction(conn))
  }

  function Rollback(s: State, p: nat): State
    requires Usable(s, p)
  {
    SetConn(s, s.proxies[p].conn, EndTransaction(Connected(s, p)))
  }

  function Shut(conn: Connection): Connection {
    EndTransaction(conn).(isOpen := false, autocommit := false)
  }

  function Sever(s: State, c: nat): State
    requires c < |s.conns|
  {
    SetConn(s, c, Shut(s.conns[c]))
  }

  function Move(s: State, c: nat, place: Place): State
    requires c < |s.conns|
  {
    SetConn(s, c, s.conns[c].(place := place))
  }

  function Discard(s: State, c: nat): State
    requires c < |s.conns|
  {
    Move(Sever(s, c), c, Gone)
  }

  // ---- close(): back to the pool ----

  /** What close() does to the connection before handing it back, and whether that raised. */
  function Restore(conn: Connection, raises: bool): (Connection, bool) {
    if !conn.isOpen then (conn, false)
    else if raises then (conn, true)
    else if !conn.autocommit then (EndTransaction(conn), false)
    else (conn.(autocommit := false), false)
  }

  /** putconn: kept while fewer than minConn are idle, otherwise closed; raises on a closed pool,
      where the proxy closes the connection itself. */
  function PutConn(config: Config, s: State, g: nat, c: nat, broken: bool): State
    requires g < |s.pools| && c < |s.conns|
  {
    var pool := s.pools[g];
    if pool.closed then Discard(s, c)
    else
      var freed := pool.(used := pool.used - {c});
      if |pool.idle| < config.minConn && !broken then
        if s.conns[c].isOpen then Move(s.(pools := s.pools[g := freed.(idle := pool.idle + [c])]), c, IdleIn(g))
        else Move(s.(pools := s.pools[g := freed]), c, Gone)
      else Discard(s.(pools := s.pools[g := freed]), c)
  }

  predicate Closable(s: State, p: nat) {
    && p < |s.proxies| && s.proxies[p].conn < |s.conns|
    && (s.proxies[p].origin.Pooled? ==> s.proxies[p].origin.pool < |s.pools|)
  }

  function Close(config: Config, s: State, p: nat, raises: bool): State
    requires Closable(s, p)
  {
    if s.proxies[p].returned then s
    else
      var c := s.proxies[p].conn;
      var marked := s.(proxies := s.proxies[p := s.proxies[p].(returned := true)]);
      match s.proxies[p].origin
      case Direct => Discard(marked, c)
      case Pooled(g) =>
        var (restored, broken) := Restore(s.conns[c], raises);
        PutConn(config, SetConn(marked, c, restored), g, c, broken)
  }

  // ---- get_connection() and close_pool() ----

  predicate HasPool(s: State) {
    s.pools != [] && !s.pools[|s.pools| - 1].closed
  }

  function WithPool(s: State): State {
    if HasPool(s) then s else s.(pools := s.pools + [Pool(false, [], {})])
  }

  datatype Taken = Exhausted | Taken(conn: nat)

  /** getconn: an idle connection if there is one, else a new one below maxConn. Whoever
      asked becomes its holder. */
  function GetConn(config: Config, s: State, holder: Place): (State, Taken)
    requires HasPool(s)
  {
    var g := |s.pools| - 1;
    var pool := s.pools[g];
    if pool.idle != [] && pool.idle[|pool.idle| - 1] < |s.conns| then
      var c := pool.idle[|pool.idle| - 1];
      var kept := pool.idle[..|pool.idle| - 1];
      (Move(s.(pools := s.pools[g := pool.(idle := kept, used := pool.used + {c})]), c, holder), Taken(c))
    else if |pool.used| < config.maxConn then
      var c := |s.conns|;
      (s.(conns := s.conns + [NewConnection(0).(place := holder)],
          pools := s.pools[g := pool.(used := pool.used + {c})]), Taken(c))
    else (s, Exhausted)
  }

  function DirectConnect(s: State): State {
    s.(conns := s.conns + [NewConnection(|s.proxies|)], proxies := s.proxies + [Proxy(|s.conns|, Direct, false)])
  }

  /** `autocommitRaises`: setting autocommit raised after getconn had succeeded. The broad handler
      then connects directly and leaves the pooled connection marked as used. */
  function GetConnection(config: Config, s: State, enabled: bool, autocommitRaises: bool): State {
    if !enabled then DirectConnect(s)
    else
      var (t, handedOut) := Take(config, WithPool(s), autocommitRaises);
      if handedOut then t else DirectConnect(t)
  }

  function Take(config: Config, s: State, autocommitRaises: bool): (State, bool)
    requires HasPool(s)
  {
    var g := |s.pools| - 1;
    var (t, taken) := GetConn(config, s, if autocommitRaises then StrandedIn(g) else HeldBy(|s.proxies|));
    if taken == Exhausted || autocommitRaises then (t, false)
    else (t.(proxies := t.proxies + [Proxy(taken.conn, Pooled(g), false)]), true)
  }

  /** closeall closes used and idle connections alike; borrowers still hold the used ones. */
  function ShutAll(conns: seq<Connection>, pool: Pool): seq<Connection> {
    seq(|conns|, (i: nat) requires i < |conns| =>
      if i in pool.used then Shut(conns[i])
      else if i in pool.idle then Shut(conns[i]).(place := Gone)
      else conns[i])
  }

  function ClosePool(s: State): State {
    if !HasPool(s) then s
    else
      var g := |s.pools| - 1;
      s.(conns := ShutAll(s.conns, s.pools[g]),
         pools := s.pools[g := s.pools[g].(closed := true, idle := [])])
  }

  // ---- Runs ----

  datatype Action =
    | AGet(enabled: bool, autocommitRaises: bool)
    | AExecute(p: nat, item: int)
    | ASetAutocommit(p: nat, on: bool)
    | ACommit(p: nat, fails: bool)
    | ARollback(p: nat)
    | AClose(p: nat, raises: bool)
    | ASever(c: nat)
    | AClosePool

  /** Borrowers do not use a proxy after close(): such actions, like any other that is not
      possible, leave the state alone. */
  function Step(config: Config, s: State, a: Action): State {
    match a
    case AGet(enabled, autocommitRaises) => GetConnection(config, s, enabled, autocommitRaises)
    case AExecute(p, item) => if Usable(s, p) then Execute(s, p, item) else s
    case ASetAutocommit(p, on) => if Usable(s, p) then SetAutocommit(s, p, on) else s
    case ACommit(p, fails) => if Usable(s, p) then Commit(s, p, fails) else s
    case ARollback(p) => if Usable(s, p) then Rollback(s, p) else s
    case AClose(p, raises) => if Closable(s, p) then Close(config, s, p, raises) else s
    case ASever(c) => if c < |s.conns| then Sever(s, c) else s
    case AClosePool => ClosePool(s)
  }

  function Run(config: Config, s: State, actions: seq<Action>): State
    decreases |actions|
  {
    if actions == [] then s else Run(config, Step(config, s, actions[0]), actions[1..])
  }

  // ---- The invariant ----

  predicate ConnOk(s: State, c: nat)
    requires c < |s.conns|
  {
    var conn := s.conns[c];
    && (conn.autocommit ==> !conn.inTransaction)
    && (!conn.isOpen ==> !conn.autocommit && !conn.inTransaction)
    && (!conn.inTransaction ==> conn.pending == [])
    && (conn.inTransaction || conn.autocommit ==> conn.place.HeldBy?)
    && (conn.place.HeldBy? ==>
          && conn.place.proxy < |s.proxies|
          && !s.proxies[conn.place.proxy].returned && s.proxies[conn.place.proxy].conn == c
          && forall k | 0 <= k < |conn.pending| :: conn.pending[k].borrower == conn.place.proxy)
  }

  predicate ProxyOk(s: State, p: nat)
    requires p < |s.proxies|
  {
    var proxy := s.proxies[p];
    && Closable(s, p)
    && (!proxy.returned ==> s.conns[proxy.conn].place == HeldBy(p))
    && (!proxy.returned && proxy.origin.Pooled? && !s.pools[proxy.origin.pool].closed ==>
          proxy.conn in s.pools[proxy.origin.pool].used)
  }

  /** A used connection is held by an unreturned proxy of this pool, or stranded. */
  predicate UsedOk(s: State, g: nat, c: nat) {
    && c < |s.conns|
    && (s.conns[c].place == StrandedIn(g)
        || (s.conns[c].place.HeldBy? && s.conns[c].place.proxy < |s.proxies|
            && s.proxies[s.conns[c].place.proxy].origin == Pooled(g)))
  }

  predicate PoolOk(s: State, g: nat)
    requires g < |s.pools|
  {
    var pool := s.pools[g];
    && (g < |s.pools| - 1 ==> pool.closed)
    && (pool.closed ==> pool.idle == [])
    && (forall i | 0 <= i < |pool.idle| :: pool.idle[i] < |s.conns| && s.conns[pool.idle[i]].place == IdleIn(g))
    && (forall i, j | 0 <= i < j < |pool.idle| :: pool.idle[i] != pool.idle[j])
    && (!pool.closed ==> forall c | c in pool.used :: UsedOk(s, g, c))
  }

  predicate StrandedOk(s: State, c: nat)
    requires c < |s.conns|
  {
    var place := s.conns[c].place;
    place.StrandedIn? ==> place.pool < |s.pools| && (!s.pools[place.pool].closed ==> c in s.pools[place.pool].used)
  }

  ghost predicate Inv(s: State) {
    && (forall c | 0 <= c < |s.conns| :: ConnOk(s, c) && StrandedOk(s, c))
    && (forall p | 0 <= p < |s.proxies| :: ProxyOk(s, p))
    && (forall g | 0 <= g < |s.pools| :: PoolOk(s, g))
    && (forall i | 0 <= i < |s.database| :: s.database[i].committer == s.database[i].write.borrower)
  }

  // ---- Every step keeps it ----

  /** A change to one connection that leaves it where it is. */
  lemma SetConnKeeps(s: State, c: nat, conn: Connection)
    requires Inv(s) && c < |s.conns| && conn.place == s.conns[c].place
    requires ConnOk(SetConn(s, c, conn), c)
    ensures Inv(SetConn(s, c, conn))
  {
    var t := SetConn(s, c, conn);
    forall d | 0 <= d < |t.conns| ensures ConnOk(t, d) && StrandedOk(t, d) {
      assert ConnOk(s, d) && StrandedOk(s, d);
    }
    forall p | 0 <= p < |t.proxies| ensures ProxyOk(t, p) {
      assert ProxyOk(s, p);
    }
    forall g | 0 <= g < |t.pools| ensures PoolOk(t, g) {
      assert PoolOk(s, g);
      forall d | d in t.pools[g].used && !t.pools[g].closed ensures UsedOk(t, g, d) {
        assert UsedOk(s, g, d);
      }
    }
  }

  /** Committing what the borrower `p` wrote itself. */
  lemma DatabaseKeeps(s: State, commits: seq<Committed>)
    requires Inv(s)
    requires forall i | 0 <= i < |commits| :: commits[i].committer == commits[i].write.borrower
    ensures Inv(s.(database := s.database + commits))
  {
    var t := s.(database := s.database + commits);
    forall c | 0 <= c < |t.conns| ensures ConnOk(t, c) && StrandedOk(t, c) {
      assert ConnOk(s, c) && StrandedOk(s, c);
    }
    forall p | 0 <= p < |t.proxies| ensures ProxyOk(t, p) {
      assert ProxyOk(s, p);
    }
    forall g | 0 <= g < |t.pools| ensures PoolOk(t, g) {
      assert PoolOk(s, g);
      forall d | d in t.pools[g].used && !t.pools[g].closed ensures UsedOk(t, g, d) {
        assert UsedOk(s, g, d);
      }
    }
  }

  lemma CommitKeeps(s: State, p: nat, fails: bool)
    requires Inv(s) && Usable(s, p)
    ensures Inv(Commit(s, p, fails))
  {
    var c, conn := s.proxies[p].conn, Connected(s, p);
    assert ProxyOk(s, p) && ConnOk(s, c);
    var t := if fails then s else s.(database := s.database + CommitsBy(conn.pending, p));
    DatabaseKeeps(s, CommitsBy(conn.pending, p));
    assert ConnOk(t, c);
    SetConnKeeps(t, c, EndTransaction(conn));
  }

  lemma ExecuteKeeps(s: State, p: nat, item: int)
    requires Inv(s) && Usable(s, p)
    ensures Inv(Execute(s, p, item))
  {
    var c, conn := s.proxies[p].conn, Connected(s, p);
    assert ProxyOk(s, p) && ConnOk(s, c);
    if conn.autocommit {
      DatabaseKeeps(s, [Committed(Write(p, item), p)]);
    } else {
      SetConnKeeps(s, c, conn.(inTransaction := true, pending := conn.pending + [Write(p, item)]));
    }
  }

  lemma BorrowerStep(config: Config, s: State, a: Action)
    requires Inv(s) && (a.AExecute? || a.ASetAutocommit? || a.ACommit? || a.ARollback? || a.ASever?)
    ensures Inv(Step(config, s, a))
  {
    match a
    case AExecute(p, item) => if Usable(s, p) { ExecuteKeeps(s, p, item); }
    case ASetAutocommit(p, on) =>
      if Usable(s, p) {
        assert ProxyOk(s, p) && ConnOk(s, s.proxies[p].conn);
        if !Connected(s, p).inTransaction {
          SetConnKeeps(s, s.proxies[p].conn, Connected(s, p).(autocommit := on));
        }
      }
    case ACommit(p, fails) => if Usable(s, p) { CommitKeeps(s, p, fails); }
    case ARollback(p) =>
      if Usable(s, p) {
        assert ConnOk(s, s.proxies[p].conn);
        SetConnKeeps(s, s.proxies[p].conn, EndTransaction(Connected(s, p)));
      }
    case ASever(c) =>
      if c < |s.conns| {
        assert ConnOk(s, c);
        SetConnKeeps(s, c, Shut(s.conns[c]));
      }
  }

  lemma CloseKeepsConns(config: Config, s: State, p: nat, raises: bool)
    requires Inv(s) && p < |s.proxies| && !s.proxies[p].returned && Closable(s, p)
    ensures var t := Close(config, s, p, raises); forall d | 0 <= d < |t.conns| :: ConnOk(t, d) && StrandedOk(t, d)
  {
    var t := Close(config, s, p, raises);
    assert ProxyOk(s, p) && ConnOk(s, s.proxies[p].conn);
    CloseMovesOne(config, s, p, raises);
    hide Close, Closable;
    forall d | 0 <= d < |t.conns| ensures ConnOk(t, d) && StrandedOk(t, d) {
      assert ConnOk(s, d) && StrandedOk(s, d);
    }
  }

  lemma CloseKeepsProxies(config: Config, s: State, p: nat, raises: bool)
    requires Inv(s) && p < |s.proxies| && !s.proxies[p].returned && Closable(s, p)
    ensures var t := Close(config, s, p, raises); forall q | 0 <= q < |t.proxies| :: ProxyOk(t, q)
  {
    var t := Close(config, s, p, raises);
    assert ProxyOk(s, p);
    CloseMovesOne(config, s, p, raises);
    hide Close;
    forall q | 0 <= q < |t.proxies| ensures ProxyOk(t, q) {
      assert ProxyOk(s, q);
    }
  }

  lemma CloseKeepsPools(config: Config, s: State, p: nat, raises: bool)
    requires Inv(s) && p < |s.proxies| && !s.proxies[p].returned && Closable(s, p)
    ensures var t := Close(config, s, p, raises); forall g | 0 <= g < |t.pools| :: PoolOk(t, g)
  {
    var t := Close(config, s, p, raises);
    assert ProxyOk(s, p);
    CloseMovesOne(config, s, p, raises);
    hide Close;
    forall g | 0 <= g < |t.pools| ensures PoolOk(t, g) {
      assert PoolOk(s, g);
      forall d | d in t.pools[g].used && !t.pools[g].closed ensures UsedOk(t, g, d) {
        assert UsedOk(s, g, d);
      }
    }
  }

  lemma CloseKeeps(config: Config, s: State, p: nat, raises: bool)
    requires Inv(s) && Closable(s, p)
    ensures Inv(Close(config, s, p, raises))
  {
    if !s.proxies[p].returned {
      CloseMovesOne(config, s, p, raises);
      CloseKeepsConns(config, s, p, raises);
      CloseKeepsProxies(config, s, p, raises);
      CloseKeepsPools(config, s, p, raises);
      hide Close, ConnOk, StrandedOk, ProxyOk, PoolOk;
    }
  }

  /** What close() touches: its proxy, its connection (now clean and either idle or gone), and
      in its own pool the places of that connection. */
  lemma CloseMovesOne(config: Config, s: State, p: nat, raises: bool)
    requires Inv(s) && p < |s.proxies| && !s.proxies[p].returned && Closable(s, p)
    ensures var t := Close(config, s, p, raises); var c := s.proxies[p].conn;
            && t.proxies == s.proxies[p := s.proxies[p].(returned := true)]
            && t.database == s.database
            && |t.conns| == |s.conns| && |t.pools| == |s.pools|
            && (forall d | 0 <= d < |s.conns| && d != c :: t.conns[d] == s.conns[d])
            && !t.conns[c].autocommit && !t.conns[c].inTransaction && t.conns[c].pending == []
            && (forall g | 0 <= g < |s.pools| ::
                  if s.proxies[p].origin == Pooled(g) && !s.pools[g].closed
                  then (&& t.pools[g].used == s.pools[g].used - {c} && !t.pools[g].closed
                        && (t.pools[g].idle == s.pools[g].idle ||
                            (t.pools[g].idle == s.pools[g].idle + [c] && t.conns[c].place == IdleIn(g))))
                  else t.pools[g] == s.pools[g])
            && (t.conns[c].place == Gone || t.conns[c].place.IdleIn?)
  {
    assert ProxyOk(s, p) && ConnOk(s, s.proxies[p].conn);
  }

  lemma DirectConnectKeeps(s: State)
    requires Inv(s)
    ensures Inv(DirectConnect(s))
  {
    var t := DirectConnect(s);
    forall c | 0 <= c < |t.conns| ensures ConnOk(t, c) && StrandedOk(t, c) {
      assert c < |s.conns| ==> ConnOk(s, c) && StrandedOk(s, c);
    }
    forall p | 0 <= p < |t.proxies| ensures ProxyOk(t, p) {
      assert p < |s.proxies| ==> ProxyOk(s, p);
    }
    forall g | 0 <= g < |t.pools| ensures PoolOk(t, g) {
      assert PoolOk(s, g);
      forall c | c in t.pools[g].used && !t.pools[g].closed ensures UsedOk(t, g, c) {
        assert UsedOk(s, g, c);
      }
    }
  }

  lemma WithPoolKeeps(s: State)
    requires Inv(s)
    ensures Inv(WithPool(s)) && HasPool(WithPool(s))
  {
    var t := WithPool(s);
    forall c | 0 <= c < |t.conns| ensures ConnOk(t, c) && StrandedOk(t, c) {
      assert ConnOk(s, c) && StrandedOk(s, c);
    }
    forall p | 0 <= p < |t.proxies| ensures ProxyOk(t, p) {
      assert ProxyOk(s, p);
    }
    forall g | 0 <= g < |t.pools| ensures PoolOk(t, g) {
      assert g < |s.pools| ==> PoolOk(s, g);
      forall c | c in t.pools[g].used && !t.pools[g].closed ensures UsedOk(t, g, c) {
        assert UsedOk(s, g, c);
      }
    }
  }

  lemma ClosePoolKeeps(s: State)
    requires Inv(s)
    ensures Inv(ClosePool(s))
  {
    var t := ClosePool(s);
    forall c | 0 <= c < |t.conns| ensures ConnOk(t, c) && StrandedOk(t, c) {
      assert ConnOk(s, c) && StrandedOk(s, c);
      assert HasPool(s) ==> PoolOk(s, |s.pools| - 1);
    }
    forall p | 0 <= p < |t.proxies| ensures ProxyOk(t, p) {
      assert ProxyOk(s, p);
      assert HasPool(s) ==> PoolOk(s, |s.pools| - 1);
    }
    forall g | 0 <= g < |t.pools| ensures PoolOk(t, g) {
      assert PoolOk(s, g);
    }
  }

  lemma LastIdle(s: State)
    requires Inv(s) && HasPool(s)
    ensures var g := |s.pools| - 1; var idle := s.pools[g].idle;
            idle != [] ==> idle[|idle| - 1] < |s.conns| && s.conns[idle[|idle| - 1]].place == IdleIn(g)
  {
    assert PoolOk(s, |s.pools| - 1);
  }

  /** What taking a connection changes: nothing when the pool is exhausted, else one place, the pool's
      books, and, unless setting autocommit raised, one new proxy. */
  lemma TakeMoves(config: Config, s: State, raises: bool)
    requires Inv(s) && HasPool(s)
    ensures var g := |s.pools| - 1; var pool := s.pools[g];
            var holder := if raises then StrandedIn(g) else HeldBy(|s.proxies|);
            var (t, handedOut) := Take(config, s, raises);
            if pool.idle != [] then
              var c := pool.idle[|pool.idle| - 1];
              && c < |s.conns| && s.conns[c].place == IdleIn(g) && handedOut == !raises
              && t == State(s.conns[c := s.conns[c].(place := holder)],
                            if raises then s.proxies else s.proxies + [Proxy(c, Pooled(g), false)],
                            s.pools[g := pool.(idle := pool.idle[..|pool.idle| - 1], used := pool.used + {c})],
                            s.database)
            else if |pool.used| < config.maxConn then
              && handedOut == !raises
              && t == State(s.conns + [NewConnection(0).(place := holder)],
                            if raises then s.proxies else s.proxies + [Proxy(|s.conns|, Pooled(g), false)],
                            s.pools[g := pool.(used := pool.used + {|s.conns|})],
                            s.database)
            else t == s && !handedOut
  {
    hide Inv, PoolOk;
    LastIdle(s);
    var g := |s.pools| - 1;
    if s.pools[g].idle != [] {
      TakeIdle(config, s, raises);
    } else if |s.pools[g].used| < config.maxConn {
      TakeNew(config, s, raises);
    }
  }

  lemma TakeIdle(config: Config, s: State, raises: bool)
    requires HasPool(s)
    requires var idle := s.pools[|s.pools| - 1].idle; idle != [] && idle[|idle| - 1] < |s.conns|
    ensures var g := |s.pools| - 1; var pool := s.pools[g]; var c := pool.idle[|pool.idle| - 1];
            Take(config, s, raises)
            == (State(s.conns[c := s.conns[c].(place := if raises then StrandedIn(g) else HeldBy(|s.proxies|))],
                      if raises then s.proxies else s.proxies + [Proxy(c, Pooled(g), false)],
                      s.pools[g := pool.(idle := pool.idle[..|pool.idle| - 1], used := pool.used + {c})],
                      s.database), !raises)
  {
  }

  lemma TakeNew(config: Config, s: State, raises: bool)
    requires HasPool(s)
    requires var pool := s.pools[|s.pools| - 1]; pool.idle == [] && |pool.used| < config.maxConn
    ensures var g := |s.pools| - 1; var pool := s.pools[g];
            Take(config, s, raises)
            == (State(s.conns + [NewConnection(0).(place := if raises then StrandedIn(g) else HeldBy(|s.proxies|))],
                      if raises then s.proxies else s.proxies + [Proxy(|s.conns|, Pooled(g), false)],
                      s.pools[g := pool.(used := pool.used + {|s.conns|})],
                      s.database), !raises)
  {
  }

  lemma TakeKeepsConns(config: Config, s: State, autocommitRaises: bool)
    requires Inv(s) && HasPool(s)
    ensures var t := Take(config, s, autocommitRaises).0;
            forall c | 0 <= c < |t.conns| :: ConnOk(t, c) && StrandedOk(t, c)
  {
    hide Take, Inv;
    var t := Take(config, s, autocommitRaises).0;
    TakeMoves(config, s, autocommitRaises);
    forall c | 0 <= c < |t.conns| ensures ConnOk(t, c) && StrandedOk(t, c) {
      if c < |s.conns| {
        OldConnOk(s, c);
      }
    }
  }

  lemma OldConnOk(s: State, c: nat)
    requires Inv(s) && c < |s.conns|
    ensures ConnOk(s, c) && StrandedOk(s, c)
  {
  }

  lemma TakeKeepsProxies(config: Config, s: State, autocommitRaises: bool)
    requires Inv(s) && HasPool(s)
    ensures var t := Take(config, s, autocommitRaises).0; forall p | 0 <= p < |t.proxies| :: ProxyOk(t, p)
  {
    hide Take, Inv, ProxyOk, HasPool;
    var t := Take(config, s, autocommitRaises).0;
    ProxiesAfterTake(config, s, autocommitRaises);
    forall p | 0 <= p < |t.proxies| ensures ProxyOk(t, p) {
      if p < |s.proxies| {
        OldProxyAfterTake(config, s, autocommitRaises, p);
      }
    }
  }

  lemma OldProxyAfterTake(config: Config, s: State, autocommitRaises: bool, p: nat)
    requires Inv(s) && HasPool(s) && p < |s.proxies|
    ensures var t := Take(config, s, autocommitRaises).0; p < |t.proxies| && ProxyOk(t, p)
  {
    hide Take, Inv;
    ProxyIsOk(s, p);
    TakeMoves(config, s, autocommitRaises);
  }

  lemma ProxyIsOk(s: State, p: nat)
    requires Inv(s) && p < |s.proxies|
    ensures ProxyOk(s, p)
  {
  }

  lemma ProxiesAfterTake(config: Config, s: State, autocommitRaises: bool)
    requires Inv(s) && HasPool(s)
    ensures var t := Take(config, s, autocommitRaises).0;
            |t.proxies| <= |s.proxies| + 1 && (|t.proxies| > |s.proxies| ==> ProxyOk(t, |s.proxies|))
  {
    hide Take, Inv;
    TakeMoves(config, s, autocommitRaises);
  }

  lemma TakeKeepsPools(config: Config, s: State, autocommitRaises: bool)
    requires Inv(s) && HasPool(s)
    ensures var t := Take(config, s, autocommitRaises).0; forall g | 0 <= g < |t.pools| :: PoolOk(t, g)
  {
    hide Take, Inv, PoolOk;
    var t := Take(config, s, autocommitRaises).0;
    EarlierPoolsAreClosed(config, s, autocommitRaises);
    LastPoolAfterTake(config, s, autocommitRaises);
    PoolsOk(t);
  }

  lemma PoolsOk(s: State)
    requires s.pools != [] && PoolOk(s, |s.pools| - 1)
    requires forall g | 0 <= g < |s.pools| - 1 :: s.pools[g].closed && s.pools[g].idle == []
    ensures forall g | 0 <= g < |s.pools| :: PoolOk(s, g)
  {
    forall g | 0 <= g < |s.pools| ensures PoolOk(s, g) {
      if g < |s.pools| - 1 {
        assert s.pools[g].closed;
      }
    }
  }

  lemma EarlierPoolsAreClosed(config: Config, s: State, autocommitRaises: bool)
    requires Inv(s) && HasPool(s)
    ensures var t := Take(config, s, autocommitRaises).0;
            && |t.pools| == |s.pools|
            && forall g | 0 <= g < |t.pools| - 1 :: t.pools[g].closed && t.pools[g].idle == []
  {
    hide Take, Inv;
    var t := Take(config, s, autocommitRaises).0;
    TakeMoves(config, s, autocommitRaises);
    forall g | 0 <= g < |t.pools| - 1 ensures t.pools[g].closed && t.pools[g].idle == [] {
      PoolIsOk(s, g);
    }
  }

  lemma PoolIsOk(s: State, g: nat)
    requires Inv(s) && g < |s.pools|
    ensures PoolOk(s, g)
  {
  }

  lemma LastPoolAfterTake(config: Config, s: State, autocommitRaises: bool)
    requires Inv(s) && HasPool(s)
    ensures var t := Take(config, s, autocommitRaises).0; |t.pools| == |s.pools| && PoolOk(t, |s.pools| - 1)
  {
    hide Take, Inv, UsedOk;
    var t := Take(config, s, autocommitRaises).0;
    var g := |s.pools| - 1;
    IdleAfterTake(config, s, autocommitRaises);
    forall d | d in t.pools[g].used ensures UsedOk(t, g, d) {
      UsedAfterTake(config, s, autocommitRaises, d);
    }
  }

  lemma IdleAfterTake(config: Config, s: State, autocommitRaises: bool)
    requires Inv(s) && HasPool(s)
    ensures var t := Take(config, s, autocommitRaises).0; var g := |s.pools| - 1;
            && |t.pools| == |s.pools| && !t.pools[g].closed
            && var idle := t.pools[g].idle;
               && (forall i | 0 <= i < |idle| :: idle[i] < |t.conns| && t.conns[idle[i]].place == IdleIn(g))
               && (forall i, j | 0 <= i < j < |idle| :: idle[i] != idle[j])
  {
    hide Take, Inv, UsedOk;
    PoolIsOk(s, |s.pools| - 1);
    TakeMoves(config, s, autocommitRaises);
  }

  lemma UsedAfterTake(config: Config, s: State, autocommitRaises: bool, d: nat)
    requires Inv(s) && HasPool(s)
    requires var t := Take(config, s, autocommitRaises).0; |t.pools| == |s.pools| && d in t.pools[|s.pools| - 1].used
    ensures UsedOk(Take(config, s, autocommitRaises).0, |s.pools| - 1, d)
  {
    hide Take, Inv, PoolOk;
    TakeMoves(config, s, autocommitRaises);
    if d in s.pools[|s.pools| - 1].used {
      UsedIsOk(s, |s.pools| - 1, d);
    }
  }

  lemma UsedIsOk(s: State, g: nat, d: nat)
    requires Inv(s) && g < |s.pools| && !s.pools[g].closed && d in s.pools[g].used
    ensures UsedOk(s, g, d)
  {
    assert PoolOk(s, g);
  }

  lemma StepKeeps(config: Config, s: State, a: Action)
    requires Inv(s)
    ensures Inv(Step(config, s, a))
  {
    match a
    case AGet(enabled, autocommitRaises) =>
      if enabled {
        WithPoolKeeps(s);
        TakeKeepsConns(config, WithPool(s), autocommitRaises);
        TakeKeepsProxies(config, WithPool(s), autocommitRaises);
        TakeKeepsPools(config, WithPool(s), autocommitRaises);
        DirectConnectKeeps(Take(config, WithPool(s), autocommitRaises).0);
      } else {
        DirectConnectKeeps(s);
      }
    case AClose(p, raises) => if Closable(s, p) { CloseKeeps(config, s, p, raises); }
    case AClosePool => ClosePoolKeeps(s);
    case _ => BorrowerStep(config, s, a);
  }

  lemma {:induction false} RunKeeps(config: Config, s: State, actions: seq<Action>)
    requires Inv(s)
    ensures Inv(Run(config, s, actions))
    decreases |actions|
  {
    if actions != [] {
      StepKeeps(config, s, actions[0]);
      RunKeeps(config, Step(config, s, actions[0]), actions[1..]);
    }
  }

  // ---- What it means for borrowers ----

  /** A connection waiting in the pool carries nothing of its last borrower. */
  lemma IdleConnectionsAreClean(config: Config, actions: seq<Action>, g: nat, i: nat)
    ensures var s := Run(config, START, actions);
            g < |s.pools| && i < |s.pools[g].idle| ==>
              && s.pools[g].idle[i] < |s.conns|
              && var conn := s.conns[s.pools[g].idle[i]];
                 !conn.autocommit && !conn.inTransaction && conn.pending == []
  {
    var s := Run(config, START, actions);
    RunKeeps(config, START, actions);
    if g < |s.pools| && i < |s.pools[g].idle| {
      assert PoolOk(s, g);
      assert ConnOk(s, s.pools[g].idle[i]);
    }
  }

  /** No connection has two unreturned proxies, and none of them waits in a pool. */
  lemma OneHolderEach(config: Config, actions: seq<Action>, p: nat, q: nat)
    ensures var s := Run(config, START, actions);
            p < |s.proxies| && q < |s.proxies| && !s.proxies[p].returned && !s.proxies[q].returned
              && s.proxies[p].conn == s.proxies[q].conn ==>
              && p == q
              && forall g, i | 0 <= g < |s.pools| && 0 <= i < |s.pools[g].idle| ::
                s.pools[g].idle[i] != s.proxies[p].conn
  {
    var s := Run(config, START, actions);
    RunKeeps(config, START, actions);
    if p < |s.proxies| && q < |s.proxies| {
      assert ProxyOk(s, p) && ProxyOk(s, q);
      forall g, i | 0 <= g < |s.pools| && 0 <= i < |s.pools[g].idle| && !s.proxies[p].returned
        ensures s.pools[g].idle[i] != s.proxies[p].conn
      {
        assert PoolOk(s, g);
      }
    }
  }

  /** Work one borrower leaves uncommitted is never committed by another. */
  lemma NoBorrowedCommits(config: Config, actions: seq<Action>, i: nat)
    ensures var s := Run(config, START, actions);
            i < |s.database| ==> s.database[i].committer == s.database[i].write.borrower
  {
    RunKeeps(config, START, actions);
  }

  lemma ClosingTwiceIsClosingOnce(config: Config, s: State, p: nat, first: bool, second: bool)
    requires Inv(s) && Closable(s, p)
    ensures var t := Close(config, s, p, first); Closable(t, p) && Close(config, t, p, second) == t
  {
    CloseKeeps(config, s, p, first);
    if !s.proxies[p].returned {
      CloseMovesOne(config, s, p, first);
    }
  }

  // ---- transaction() ----

  function ExecuteAll(s: State, p: nat, items: seq<int>): (t: State)
    requires Usable(s, p)
    ensures Usable(t, p) && t.proxies == s.proxies && t.pools == s.pools && |t.conns| == |s.conns|
    decreases |items|
  {
    if items == [] then s else ExecuteAll(Execute(s, p, items[0]), p, items[1..])
  }

  /** The context manager around a body that executes `items`, and then raises or not. On a
      connection that is already dead the body cannot start. */
  function Transaction(config: Config, s: State, enabled: bool, items: seq<int>, bodyRaises: bool,
                       commitFails: bool): State
    requires Inv(s)
  {
    GetConnectionHandsOutCleanly(config, s, enabled);
    var t := GetConnection(config, s, enabled, false);
    var p := |s.proxies|;
    Close(config, if Usable(t, p) then RunBody(t, p, items, bodyRaises, commitFails) else t, p, false)
  }

  function RunBody(s: State, p: nat, items: seq<int>, bodyRaises: bool, commitFails: bool): (t: State)
    requires Usable(s, p)
    ensures Usable(t, p) && t.proxies == s.proxies && t.pools == s.pools && |t.conns| == |s.conns|
  {
    var u := ExecuteAll(s, p, items);
    if bodyRaises then Rollback(u, p)
    else if commitFails then Rollback(Commit(u, p, true), p)
    else Commit(u, p, false)
  }

  predicate Clean(conn: Connection) {
    !conn.autocommit && !conn.inTransaction && conn.pending == []
  }

  lemma TakeIsClean(config: Config, s: State)
    requires Inv(s) && HasPool(s)
    ensures var (t, handedOut) := Take(config, s, false); var p := |s.proxies|;
            && t.database == s.database
            && if handedOut
               then |t.proxies| == p + 1 && t.proxies[p].conn < |t.conns| && Clean(t.conns[t.proxies[p].conn])
               else t.proxies == s.proxies
  {
    var pool := s.pools[|s.pools| - 1];
    TakeMoves(config, s, false);
    if pool.idle != [] {
      assert ConnOk(s, pool.idle[|pool.idle| - 1]);
    }
    hide Inv, ConnOk, Take;
  }

  lemma DirectIsClean(s: State)
    ensures var t := DirectConnect(s); var p := |s.proxies|;
            && t.database == s.database && |t.proxies| == p + 1
            && t.proxies[p].conn < |t.conns| && Clean(t.conns[t.proxies[p].conn])
  {
  }

  lemma TakeRaises(config: Config, s: State)
    requires Inv(s) && HasPool(s)
    ensures var (t, handedOut) := Take(config, s, true);
            !handedOut && t.proxies == s.proxies && t.database == s.database
  {
    TakeMoves(config, s, true);
  }

  /** The new borrower's connection is outside any transaction, with autocommit off, whether it comes
      from the pool or not. */
  lemma GetConnectionHandsOutCleanly(config: Config, s: State, enabled: bool, raises: bool := false)
    requires Inv(s)
    ensures var t := GetConnection(config, s, enabled, raises); var p := |s.proxies|;
            && Inv(t) && t.database == s.database
            && |t.proxies| == p + 1 && !t.proxies[p].returned && Closable(t, p)
            && Clean(t.conns[t.proxies[p].conn])
  {
    StepKeeps(config, s, AGet(enabled, raises));
    WithPoolKeeps(s);
    if raises {
      TakeRaises(config, WithPool(s));
    } else {
      TakeIsClean(config, WithPool(s));
    }
    DirectIsClean(if enabled then Take(config, WithPool(s), raises).0 else s);
    NotReturned(config, s, enabled, raises);
    hide Take, WithPool, PoolOk, ConnOk, StrandedOk, DirectConnect;
    assert ProxyOk(GetConnection(config, s, enabled, raises), |s.proxies|);
  }

  lemma NotReturned(config: Config, s: State, enabled: bool, raises: bool)
    ensures var t := GetConnection(config, s, enabled, raises); var p := |s.proxies|;
            |t.proxies| == p + 1 && !t.proxies[p].returned
  {
  }

  function WritesOf(p: nat, items: seq<int>): seq<Write> {
    seq(|items|, (i: nat) requires i < |items| => Write(p, items[i]))
  }

  lemma {:induction false} ExecuteAllPending(s: State, p: nat, items: seq<int>)
    requires Usable(s, p) && !Connected(s, p).autocommit
    ensures var t := ExecuteAll(s, p, items);
            && t.database == s.database && !Connected(t, p).autocommit
            && Connected(t, p).pending == Connected(s, p).pending + WritesOf(p, items)
    decreases |items|
  {
    if items == [] {
      assert WritesOf(p, items) == [];
    } else {
      ExecuteAllPending(Execute(s, p, items[0]), p, items[1..]);
      assert WritesOf(p, items) == [Write(p, items[0])] + WritesOf(p, items[1..]);
    }
  }

  /** transaction() persists the whole body, in order, when body and commit succeed, and nothing
      otherwise; either way its proxy ends up returned. */
  lemma TransactionIsAllOrNothing(config: Config, s: State, enabled: bool, items: seq<int>, bodyRaises: bool,
                                  commitFails: bool)
    requires Inv(s)
    ensures var p := |s.proxies|;
            var began := Usable(GetConnection(config, s, enabled, false), p);
            var t := Transaction(config, s, enabled, items, bodyRaises, commitFails);
            && t.database == s.database
                             + (if began && !bodyRaises && !commitFails then CommitsBy(WritesOf(p, items), p) else [])
            && |t.proxies| == p + 1 && t.proxies[p].returned
  {
    hide Inv, GetConnection, RunBody;
    GetConnectionHandsOutCleanly(config, s, enabled);
    var t := GetConnection(config, s, enabled, false);
    var p := |s.proxies|;
    if Usable(t, p) {
      BodyIsAllOrNothing(t, p, items, bodyRaises, commitFails);
    }
  }

  lemma BodyIsAllOrNothing(s: State, p: nat, items: seq<int>, bodyRaises: bool, commitFails: bool)
    requires Usable(s, p) && Clean(Connected(s, p))
    ensures RunBody(s, p, items, bodyRaises, commitFails).database
            == s.database + (if !bodyRaises && !commitFails then CommitsBy(WritesOf(p, items), p) else [])
  {
    ExecuteAllPending(s, p, items);
    assert [] + WritesOf(p, items) == WritesOf(p, items);
  }

  // ---- The process itself ----

  lemma ClosedAfterwards(s: State)
    requires Inv(s)
    ensures var t := ClosePool(s);
            && (forall g | 0 <= g < |t.pools| :: t.pools[g].closed && t.pools[g].idle == [])
            && (HasPool(s) ==>
                  forall p | 0 <= p < |t.proxies| && !t.proxies[p].returned
                    && t.proxies[p].origin == Pooled(|t.pools| - 1) ::
                    t.proxies[p].conn < |t.conns| && !t.conns[t.proxies[p].conn].isOpen)
  {
    var t := ClosePool(s);
    forall g | 0 <= g < |t.pools| ensures t.pools[g].closed && t.pools[g].idle == [] {
      assert PoolOk(s, g);
    }
    if HasPool(s) {
      forall p | 0 <= p < |t.proxies| && !t.proxies[p].returned && t.proxies[p].origin == Pooled(|t.pools| - 1)
        ensures t.proxies[p].conn < |t.conns| && !t.conns[t.proxies[p].conn].isOpen
      {
        assert ProxyOk(s, p);
      }
    }
  }

  class Process {
    const config: Config
    var conns: seq<Connection>
    var proxies: seq<Proxy>
    var pools: seq<Pool>
    var database: seq<Committed>

    function View(): State
      reads this
    {
      State(conns, proxies, pools, database)
    }

    constructor (config: Config)
      ensures View() == START && this.config == config
    {
      this.config := config;
      conns, proxies, pools, database := [], [], [], [];
    }

    /** The proxy's close(): restore the connection, then give it to its pool. */
    method CloseProxy(p: nat, raises: bool)
      requires Closable(View(), p)
      modifies this
      ensures View() == Close(config, old(View()), p, raises)
    {
      if proxies[p].returned {
        return;
      }
      proxies := proxies[p := proxies[p].(returned := true)];
      var c := proxies[p].conn;
      if proxies[p].origin == Direct {
        conns := conns[c := Shut(conns[c]).(place := Gone)];
        return;
      }
      var broken := false;
      if conns[c].isOpen {
        if raises {
          broken := true;
        } else if !conns[c].autocommit {
          conns := conns[c := EndTransaction(conns[c])];
        } else {
          conns := conns[c := conns[c].(autocommit := false)];
        }
      }
      PutBack(proxies[p].origin.pool, c, broken);
    }

    method PutBack(g: nat, c: nat, broken: bool)
      requires g < |pools| && c < |conns|
      modifies this`conns, this`pools
      ensures View() == PutConn(config, old(View()), g, c, broken)
    {
      if pools[g].closed {
        conns := conns[c := Shut(conns[c]).(place := Gone)];
        return;
      }
      pools := pools[g := pools[g].(used := pools[g].used - {c})];
      if |pools[g].idle| < config.minConn && !broken {
        if conns[c].isOpen {
          pools := pools[g := pools[g].(idle := pools[g].idle + [c])];
          conns := conns[c := conns[c].(place := IdleIn(g))];
        } else {
          conns := conns[c := conns[c].(place := Gone)];
        }
      } else {
        conns := conns[c := Shut(conns[c]).(place := Gone)];
      }
    }

    /** getconn on the newest pool. */
    method TakeFromPool(holder: Place) returns (taken: Taken)
      requires HasPool(View())
      modifies this`conns, this`pools
      ensures (View(), taken) == GetConn(config, old(View()), holder)
    {
      var g := |pools| - 1;
      var pool := pools[g];
      if pool.idle != [] && pool.idle[|pool.idle| - 1] < |conns| {
        var c := pool.idle[|pool.idle| - 1];
        pools := pools[g := pool.(idle := pool.idle[..|pool.idle| - 1], used := pool.used + {c})];
        conns := conns[c := conns[c].(place := holder)];
        return Taken(c);
      }
      if |pool.used| < config.maxConn {
        var c := |conns|;
        conns := conns + [NewConnection(0).(place := holder)];
        pools := pools[g := pool.(used := pool.used + {c})];
        return Taken(c);
      }
      return Exhausted;
    }

    /** _get_pool() opens a pool when there is none. */
    method OpenPool()
      modifies this`pools
      ensures View() == WithPool(old(View()))
    {
      if pools == [] || pools[|pools| - 1].closed {
        pools := pools + [Pool(false, [], {})];
      }
    }

    /** The pooled half of get_connection(); false sends the caller on to a direct connection. */
    method ConnectPooled(autocommitRaises: bool) returns (handedOut: bool)
      requires HasPool(View())
      modifies this
      ensures (View(), handedOut) == Take(config, old(View()), autocommitRaises)
    {
      var g := |pools| - 1;
      var taken := TakeFromPool(if autocommitRaises then StrandedIn(g) else HeldBy(|proxies|));
      if taken == Exhausted || autocommitRaises {
        return false;
      }
      proxies := proxies + [Proxy(taken.conn, Pooled(g), false)];
      return true;
    }

    method ConnectDirectly()
      modifies this
      ensures View() == DirectConnect(old(View()))
    {
      conns, proxies := conns + [NewConnection(|proxies|)], proxies + [Proxy(|conns|, Direct, false)];
    }

    /** get_connection(): the new proxy is always the last one, and its connection clean. */
    method Connect(enabled: bool, autocommitRaises: bool) returns (p: nat)
      requires Inv(View())
      modifies this
      ensures View() == GetConnection(config, old(View()), enabled, autocommitRaises)
      ensures Inv(View()) && database == old(database)
      ensures p == |old(proxies)| && p == |proxies| - 1
      ensures !proxies[p].returned && proxies[p].conn < |conns| && Clean(conns[proxies[p].conn])
    {
      GetConnectionHandsOutCleanly(config, View(), enabled, autocommitRaises);
      hide Inv, Clean, Take, WithPool, DirectConnect;
      p := |proxies|;
      if enabled {
        OpenPool();
        var handedOut := ConnectPooled(autocommitRaises);
        if handedOut {
          return;
        }
      }
      ConnectDirectly();
    }

    /** close_pool(): no pool is left open, and the newest pool's borrowers hold dead connections. */
    method CloseAll()
      requires Inv(View())
      modifies this
      ensures View() == ClosePool(old(View()))
      ensures Inv(View()) && database == old(database) && proxies == old(proxies)
      ensures forall g | 0 <= g < |pools| :: pools[g].closed && pools[g].idle == []
      ensures old(HasPool(View())) ==>
                forall p | 0 <= p < |proxies| && !proxies[p].returned && proxies[p].origin == Pooled(|pools| - 1) ::
                  proxies[p].conn < |conns| && !conns[proxies[p].conn].isOpen
    {
      ClosePoolKeeps(View());
      ClosedAfterwards(View());
      hide Inv;
      if pools != [] && !pools[|pools| - 1].closed {
        var g := |pools| - 1;
        conns := ShutAll(conns, pools[g]);
        pools := pools[g := pools[g].(closed := true, idle := [])];
      }
    }

    /** with transaction(): … */
    method RunTransaction(enabled: bool, items: seq<int>, bodyRaises: bool, commitFails: bool)
      requires Inv(View())
      modifies this
      ensures View() == Transaction(config, old(View()), enabled, items, bodyRaises, commitFails)
    {
      hide Inv, GetConnection, RunBody, Close, Clean;
      GetConnectionHandsOutCleanly(config, View(), enabled);
      var p := Connect(enabled, false);
      if Usable(State(conns, proxies, pools, database), p) {
        RunStatements(p, items, bodyRaises, commitFails);
      }
      CloseProxy(p, false);
    }

    /** The block on a usable connection: its statements, then commit or rollback. */
    method RunStatements(p: nat, items: seq<int>, bodyRaises: bool, commitFails: bool)
      requires Usable(View(), p)
      modifies this
      ensures View() == RunBody(old(View()), p, items, bodyRaises, commitFails)
    {
      ghost var began := View();
      var i := 0;
      while i < |items|
        invariant 0 <= i <= |items|
        invariant Usable(View(), p)
        invariant ExecuteAll(View(), p, items[i..]) == ExecuteAll(began, p, items)
        invariant proxies == began.proxies && pools == began.pools
      {
        var t := Execute(State(conns, proxies, pools, database), p, items[i]);
        conns, database := t.conns, t.database;
        i := i + 1;
      }
      var t := State(conns, proxies, pools, database);
      if bodyRaises {
        t := Rollback(t, p);
      } else if commitFails {
        t := Rollback(Commit(t, p, true), p);
      } else {
        t := Commit(t, p, false);
      }
      conns, database := t.conns, t.database;
    }
  }
}
