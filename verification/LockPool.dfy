/** Session-level advisory locks behind a connection pool. PostgreSQL keeps a session's locks until
    they are unlocked as often as they were taken or the session ends, so a session must not go back
    to the pool while it may still hold one. */
module LockPool {
  import opened Tables
  import opened Machine
  import opened Claims

  type Session = nat

  datatype Grant = Grant(session: Session, key: int)

  /** How a statement ends: answered, failed before the server ran it, or run with the answer lost. */
  datatype Fault = Answered | Unsent | Unheard

  /** What workers ask for, and a session that dies under its worker. */
  datatype Op =
    | AcquireOp(w: Worker, key: int, fault: Fault)
    | TryOp(w: Worker, key: int, fault: Fault)
    | ReleaseOp(w: Worker, key: int, fault: Fault)
    | DieOp(w: Worker)

  /** Locks without sessions, as the state machine has them: who holds each key, and who believes to hold one. */
  datatype Table = Table(locks: map<int, Worker>, busy: set<Worker>)

  function Without(locks: map<int, Worker>, w: Worker): map<int, Worker> {
    map k | k in locks && locks[k] != w :: locks[k]
  }

  predicate Grants(table: Table, w: Worker, key: int, fault: Fault) {
    w !in table.busy && fault.Answered? && key !in table.locks
  }

  /** One operation on the abstract table: granted only if free, given up in every case when released. */
  function Step(table: Table, op: Op): Table {
    match op
    case ReleaseOp(w, _, _) => if w in table.busy then Table(Without(table.locks, w), table.busy - {w}) else table
    case DieOp(w) => if w in table.busy then Table(Without(table.locks, w), table.busy) else table
    case _ =>
      if Grants(table, op.w, op.key, op.fault) then Table(table.locks[op.key := op.w], table.busy + {op.w}) else table
  }

  function Steps(ops: seq<Op>): Table {
    if ops == [] then Table(map[], {}) else Step(Steps(ops[..|ops| - 1]), ops[|ops| - 1])
  }

  /** In the state machine a worker has no lock but that of its chat, so its release, its crash and the death
      of its session all change the lock table as here. */
  lemma UnlockIsRelease(s: State, w: Worker)
    requires LockInv(s) && w in s.pcs
    ensures Unlock(s, w) == Without(s.locks, w)
  {
    forall k | k in s.locks ensures k in Unlock(s, w) <==> s.locks[k] != w {
      if s.locks[k] == w { assert s.pcs[w].Holding() && s.keyOf(s.pcs[w].Chat()) == k; }
    }
  }

  /** The locks left when a session ends. */
  function Surviving(depth: map<Grant, nat>, c: Session): map<Grant, nat> {
    map g | g in depth && g.session != c :: depth[g]
  }

  lemma Forgotten(depth: map<Grant, nat>, c: Session, key: int)
    requires forall g | g in depth :: g.session != c
    ensures Surviving(depth, c) == depth && Surviving(depth[Grant(c, key) := 1], c) == depth
  {
  }

  /** The sessions of the busy workers realize the abstract table. */
  ghost predicate Realized(out: set<Session>, depth: map<Grant, nat>, conns: map<Worker, Session>, table: Table) {
    && conns.Keys == table.busy
    && (forall v, w | v in conns && w in conns && conns[v] == conns[w] :: v == w)
    && (forall w | w in conns :: conns[w] in out)
    && (forall k | k in table.locks :: table.locks[k] in conns && Grant(conns[table.locks[k]], k) in depth)
    && (forall g | g in depth ::
          g.key in table.locks && table.locks[g.key] in conns && conns[table.locks[g.key]] == g.session)
  }

  lemma Granted(out: set<Session>, depth: map<Grant, nat>, conns: map<Worker, Session>, table: Table, w: Worker,
      key: int, c: Session)
    requires Realized(out, depth, conns, table) && w !in conns && key !in table.locks && c !in out
    ensures Realized(out + {c}, depth[Grant(c, key) := 1], conns[w := c],
        Table(table.locks[key := w], table.busy + {w}))
  {
  }

  class Pool {
    var idle: set<Session>        // open and unused
    var out: set<Session>         // handed to a worker
    var depth: map<Grant, nat>    // the server's lock table: how often each session holds each key
    var next: Session             // sessions opened so far

    /** No lock is held outside the sessions handed out, a key has one holder, and a session handed
        out holds at most one key, once. */
    ghost predicate Valid()
      reads this
    {
      && idle !! out
      && (forall c | c in idle :: c < next) && (forall c | c in out :: c < next)
      && (forall g | g in depth :: g.session in out && depth[g] == 1)
      && (forall g, h | g in depth && h in depth && g.key == h.key :: g == h)
      && (forall g, h | g in depth && h in depth && g.session == h.session :: g == h)
    }

    ghost predicate Holds(c: Session, key: int)
      reads this
    {
      Grant(c, key) in depth
    }

    constructor ()
      ensures Valid() && depth == map[] && idle == {} && out == {}
    {
      idle, out, depth, next := {}, {}, map[], 0;
    }

    /** `Conn`: an idle session if there is one, otherwise a new one. */
    method Checkout() returns (c: Session)
      requires Valid()
      modifies this
      ensures Valid() && depth == old(depth) && c !in old(out) && out == old(out) + {c} && idle == old(idle) - {c}
      ensures c < next && next >= old(next) && forall g | g in depth :: g.session != c
    {
      if idle != {} {
        c :| c in idle;
        idle := idle - {c};
      } else {
        c := next;
        next := next + 1;
      }
      out := out + {c};
    }

    /** `pg_try_advisory_lock` on the server: granted unless another session holds the key. */
    method ServerLock(c: Session, key: int) returns (granted: bool)
      modifies this`depth
      ensures granted <==> forall g | g in old(depth) && g.key == key :: g.session == c
      ensures depth == if granted
        then old(depth)[Grant(c, key) := (if Grant(c, key) in old(depth) then old(depth)[Grant(c, key)] else 0) + 1]
        else old(depth)
    {
      granted := forall g | g in depth && g.key == key :: g.session == c;
      if granted { depth := depth[Grant(c, key) := (if Grant(c, key) in depth then depth[Grant(c, key)] else 0) + 1]; }
    }

    /** `pg_advisory_unlock` on the server: one level less, or false if the session did not hold it. */
    method ServerUnlock(c: Session, key: int) returns (released: bool)
      modifies this`depth
      ensures released == (Grant(c, key) in old(depth))
      ensures depth == if !released then old(depth)
        else if old(depth)[Grant(c, key)] <= 1 then old(depth) - {Grant(c, key)}
        else old(depth)[Grant(c, key) := old(depth)[Grant(c, key)] - 1]
    {
      var g := Grant(c, key);
      released := g in depth;
      if released { depth := if depth[g] <= 1 then depth - {g} else depth[g := depth[g] - 1]; }
    }

    /** `DiscardConnection`: the physical session ends, and with it every lock it held. */
    method Discard(c: Session)
      modifies this`out, this`depth
      ensures out == old(out) - {c}
      ensures depth == Surviving(old(depth), c)
    {
      out := out - {c};
      depth := Surviving(depth, c);
    }

    /** `Close`: the session goes back to the pool as it is. */
    method Return(c: Session)
      modifies this`out, this`idle
      ensures out == old(out) - {c} && idle == old(idle) + {c}
    {
      out, idle := out - {c}, idle + {c};
    }

    /** acquireTelegramChatAdvisoryLock. A lock that cannot be granted in time ends like an unsent
        statement. Either the caller gets a session that holds exactly this key, or no lock changes. */
    method Acquire(key: int, fault: Fault) returns (conn: Option<Session>)
      requires Valid()
      modifies this
      ensures Valid()
      ensures conn.Some? ==> conn.value !in old(out) && out == old(out) + {conn.value}
      ensures conn.Some? ==> depth == old(depth)[Grant(conn.value, key) := 1]
      ensures conn.None? ==> depth == old(depth) && out == old(out)
      ensures conn.Some? <==> fault.Answered? && forall g | g in old(depth) :: g.key != key
    {
      var c := Checkout();
      Forgotten(depth, c, key);
      var granted := false;
      if !fault.Unsent? { granted := ServerLock(c, key); }
      if fault.Answered? && granted { return Some(c); }
      Discard(c);
      conn := None;
    }

    /** acquireCronAdvisoryLock: the same without waiting; a refused session, which holds nothing,
        goes back to the pool. */
    method TryAcquire(key: int, fault: Fault) returns (conn: Option<Session>)
      requires Valid()
      modifies this
      ensures Valid()
      ensures conn.Some? ==> conn.value !in old(out) && out == old(out) + {conn.value}
      ensures conn.Some? ==> depth == old(depth)[Grant(conn.value, key) := 1]
      ensures conn.None? ==> depth == old(depth) && out == old(out)
      ensures conn.Some? <==> fault.Answered? && forall g | g in old(depth) :: g.key != key
    {
      var c := Checkout();
      Forgotten(depth, c, key);
      var granted := false;
      if !fault.Unsent? { granted := ServerLock(c, key); }
      if fault.Answered? && granted { return Some(c); }
      if fault.Answered? { Return(c); } else { Discard(c); }
      conn := None;
    }

    /** ReleaseAdvisoryLock: back to the pool only after a confirmed unlock, otherwise discarded. In
        every case the session is given up and none of its locks survives. */
    method Release(conn: Option<Session>, key: int, fault: Fault)
      requires Valid()
      modifies this
      ensures Valid()
      ensures conn.None? ==> out == old(out) && idle == old(idle) && depth == old(depth)
      ensures conn.Some? ==> out == old(out) - {conn.value} && depth == Surviving(old(depth), conn.value)
      ensures conn.Some? ==>
        idle == if fault.Answered? && old(Holds(conn.value, key)) then old(idle) + {conn.value} else old(idle)
    {
      if conn.Some? && conn.value in out {
        var c := conn.value;
        var released := false;
        if !fault.Unsent? { released := ServerUnlock(c, key); }
        if fault.Answered? && released { Return(c); } else { Discard(c); }
      }
      assert conn.Some? ==> depth == Surviving(old(depth), conn.value);
    }

    ghost predicate Realizes(conns: map<Worker, Session>, table: Table)
      reads this
    {
      Realized(out, depth, conns, table)
    }

    /** The server ends the session of a worker that does not notice. */
    method Die(c: Session)
      requires Valid()
      modifies this`depth
      ensures Valid() && depth == Surviving(old(depth), c)
    {
      depth := Surviving(depth, c);
    }

    method Obtain(op: Op, conns: map<Worker, Session>, ghost table: Table) returns (conns': map<Worker, Session>)
      requires Valid() && Realizes(conns, table) && (op.AcquireOp? || op.TryOp?)
      modifies this
      ensures Valid() && Realizes(conns', Step(table, op))
    {
      conns' := conns;
      if op.w in conns { return; }
      ghost var out0, depth0 := out, depth;
      var conn;
      if op.AcquireOp? { conn := Acquire(op.key, op.fault); } else { conn := TryAcquire(op.key, op.fault); }
      assert (forall g | g in depth0 :: g.key != op.key) <==> op.key !in table.locks;
      if conn.Some? {
        Granted(out0, depth0, conns, table, op.w, op.key, conn.value);
        conns' := conns[op.w := conn.value];
      }
    }

    method Give(op: Op, conns: map<Worker, Session>, ghost table: Table) returns (conns': map<Worker, Session>)
      requires Valid() && Realizes(conns, table) && op.ReleaseOp?
      modifies this
      ensures Valid() && Realizes(conns', Step(table, op))
    {
      conns' := conns;
      if op.w in conns {
        Release(Some(conns[op.w]), op.key, op.fault);
        conns' := conns - {op.w};
      }
    }

    method Lose(w: Worker, conns: map<Worker, Session>, ghost table: Table)
      requires Valid() && Realizes(conns, table)
      modifies this
      ensures Valid() && Realizes(conns, Step(table, DieOp(w)))
    {
      if w in conns { Die(conns[w]); }
    }

    /** Any sequence of acquisitions, releases and deaths, with any outcomes: no idle session ever holds a
        lock, and the server's locks are those of the abstract table, so that pooling, lost answers and
        discarded sessions are invisible to whoever reasons about chat locks. */
    method Drive(ops: seq<Op>) returns (conns: map<Worker, Session>)
      requires Valid() && depth == map[]
      modifies this
      ensures Valid() && Realizes(conns, Steps(ops))
      ensures forall g | g in depth :: g.session !in idle
    {
      conns := map[];
      assert ops[..0] == [];
      for i := 0 to |ops|
        invariant Valid() && Realizes(conns, Steps(ops[..i]))
      {
        assert ops[..i + 1][..i] == ops[..i];
        match ops[i]
        case ReleaseOp(_, _, _) => conns := Give(ops[i], conns, Steps(ops[..i]));
        case DieOp(w) => Lose(w, conns, Steps(ops[..i]));
        case _ => conns := Obtain(ops[i], conns, Steps(ops[..i]));
      }
      assert ops[..|ops|] == ops;
    }
  }
}
