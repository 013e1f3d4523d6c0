/**
 * The two classes of the server pool. A ServerPool owns the server list, the policy and
 * one ServerPoolState per connection; each ServerPoolState holds a private copy of the
 * list and a cursor into it and chooses the next server per the pool's strategy.
 * Randomness is a nondeterministic choice and check_availability an unconstrained oracle
 * whose answers are recorded, in order, in the state's ghost probe log.
 */
module Pooling {
  import opened Results
  import opened PoolSpec

  /** A connection, as far as the pool is concerned: a key of its state map. */
  type Connection(==)

  /** Python's random.randint(a, b): any value of the inclusive range, ValueError when it is empty. */
  method RandInt(a: int, b: int) returns (r: Result<int>)
    ensures r.Ok? <==> a <= b
    ensures r.Ok? ==> a <= r.value <= b
    ensures r.Err? ==> r.error == ValueError
  {
    if a <= b {
      var x :| a <= x <= b;
      r := Ok(x);
    } else {
      r := Err(ValueError);
    }
  }

  /** The index a selection produced (the cursor it left) when it returned a server. */
  function Chosen(r: Result<Server>, cursor: nat): Result<nat>
  {
    if r.Ok? then Ok(cursor) else Err(r.error)
  }

  class ServerPoolState {
    const pool: ServerPool
    var servers: seq<Server>
    var lastUsed: nat
    ghost var probes: seq<Probe>

    /**
     * On a non-empty list the cursor is in range, except right after a non-active RANDOM
     * selection, which may leave it one past the end.
     */
    ghost predicate Valid()
      reads this
    {
      servers != [] ==>
        lastUsed < |servers| ||
        (lastUsed == |servers| && pool.strategy == Random && !pool.active)
    }

    /** The part of __init__ before its first refresh. */
    constructor (pool: ServerPool)
      ensures this.pool == pool && servers == [] && lastUsed == 0 && probes == []
      ensures Valid()
    {
      this.pool := pool;
      servers := [];
      lastUsed := 0;
      probes := [];
    }

    /** ServerPoolState(pool): snapshot the pool's list and draw a cursor; raises on an empty pool. */
    static method Create(pool: ServerPool) returns (r: Result<ServerPoolState>)
      ensures r.Ok? <==> pool.servers != []
      ensures r.Err? ==> r.error == ValueError
      ensures r.Ok? ==> fresh(r.value) && r.value.pool == pool && r.value.Valid()
      ensures r.Ok? ==> r.value.servers == pool.servers && r.value.lastUsed < |pool.servers|
      ensures r.Ok? ==> r.value.Length() == pool.Length()
      ensures r.Ok? ==> r.value.probes == []
    {
      var st := new ServerPoolState(pool);
      var o := st.Refresh();
      if o.Fail? {
        return Err(o.error);
      }
      var d := RandInt(0, |st.servers| - 1);
      st.lastUsed := d.value;
      r := Ok(st);
    }

    /**
     * Re-copy the pool's list element by element and draw a new cursor. On an empty list
     * the draw raises ValueError after the copy was made, leaving the cursor as it was.
     */
    method Refresh() returns (o: Outcome)
      modifies this`servers, this`lastUsed
      ensures servers == pool.servers
      ensures Length() == pool.Length()
      ensures o == if servers == [] then Fail(ValueError) else Pass
      ensures o.Pass? ==> lastUsed < |servers|
      ensures o.Fail? ==> lastUsed == old(lastUsed)
      ensures Valid()
    {
      servers := [];
      var i := 0;
      while i < |pool.servers|
        invariant 0 <= i <= |pool.servers|
        invariant servers == pool.servers[..i]
        invariant lastUsed == old(lastUsed)
      {
        servers := servers + [pool.servers[i]];
        i := i + 1;
      }
      var d := RandInt(0, |servers| - 1);
      if d.Err? {
        return Fail(d.error);
      }
      lastUsed := d.value;
      o := Pass;
    }

    /** get_current_server: the server under the cursor, IndexError when it is out of range. */
    function GetCurrentServer(): (r: Result<Server>)
      reads this
      ensures r.Ok? <==> lastUsed < |servers|
      ensures r.Ok? ==> r.value == servers[lastUsed]
      ensures r.Err? ==> r.error == IndexError
    {
      PyIndex(servers, lastUsed)
    }

    /** __len__: the number of servers in the state's copy. */
    function Length(): nat
      reads this
    {
      |servers|
    }

    /** server.check_availability(): an answer the model does not constrain, appended to the log. */
    method CheckAvailability(server: Server) returns (live: bool)
      modifies this`probes
      ensures probes == old(probes) + [Probe(server, live)]
    {
      live :| true;
      probes := probes + [Probe(server, live)];
    }

    /**
     * One inner loop of find_active_server: probe `lo, lo+1, ...` below `hi` and stop at the
     * first index that answers live (`break`), or at `hi` when none does.
     */
    method ProbeRange(lo: nat, hi: nat) returns (hit: bool, index: nat)
      requires lo <= hi <= |servers|
      modifies this`probes
      ensures lo <= index <= hi
      ensures hit ==> index < hi
      ensures !hit ==> index == hi
      ensures probes == old(probes) + DeadRange(servers, lo, index) +
                        (if hit then [Probe(servers[index], true)] else [])
    {
      index := lo;
      hit := false;
      while index < hi && !hit
        invariant lo <= index <= hi
        invariant hit ==> index < hi
        invariant probes == old(probes) + DeadRange(servers, lo, index) +
                            (if hit then [Probe(servers[index], true)] else [])
        decreases hi - index, if hit then 0 else 1
      {
        hit := CheckAvailability(servers[index]);
        if !hit {
          assert DeadRange(servers, lo, index) + [Probe(servers[index], false)] == DeadRange(servers, lo, index + 1);
          index := index + 1;
        }
      }
    }

    /**
     * One pass of find_active_server: the loop over `starting..n-1`, then, when nothing
     * answered, the loop over `0..starting-1`. A hit is at position `k` of the pass.
     */
    method ScanPass(starting: nat) returns (hit: bool, index: nat, ghost k: nat)
      requires starting <= |servers|
      modifies this`probes
      ensures hit ==> k < |servers| && CircularOrder(|servers|, starting)[k] == index
      ensures hit ==> probes == old(probes) + (DeadPass(servers, starting)[..k] + [Probe(servers[index], true)])
      ensures !hit ==> probes == old(probes) + DeadPass(servers, starting)
    {
      hit, index := ProbeRange(starting, |servers|);
      if hit {
        k := index - starting;
        FirstLoopHit(servers, starting, index, old(probes), probes);
        return;
      }
      ghost var mid := probes;
      hit, index := ProbeRange(0, starting);
      if hit {
        k := |servers| - starting + index;
        SecondLoopHit(servers, starting, index, old(probes), mid, probes);
        return;
      }
      BothLoopsMissed(servers, starting, old(probes), mid, probes);
      k := 0;
    }

    /**
     * find_active_server(starting, exhaust): probe `starting..n-1`, then `0..starting-1`,
     * and return the first index that answers live. When none does, raise with `exhaust`
     * and otherwise start over; the model gives up with Blocked after `fuel` retries.
     */
    method FindActiveServer(starting: nat, exhaust: bool, fuel: nat) returns (r: Result<nat>)
      requires starting <= |servers|
      modifies this`probes
      ensures old(probes) <= probes
      ensures r.Ok? ==> r.value < |servers|
      ensures CircularScan(servers, starting, exhaust, fuel, probes[|old(probes)|..], r)
    {
      ghost var before := probes;
      ghost var dead := DeadPass(servers, starting);
      var retries: nat := 0;
      while true
        invariant retries <= fuel
        invariant exhaust ==> retries == 0
        invariant probes == before + Repeat(dead, retries)
        decreases fuel - retries
      {
        ghost var mid := probes;
        var hit, index, k := ScanPass(starting);
        if hit {
          PassHit(servers, starting, exhaust, fuel, retries, k, index, before, mid, probes);
          return Ok(index);
        }
        PassMissed(servers, starting, exhaust, fuel, retries, before, mid, probes);
        if exhaust {
          return Err(PoolExhausted);
        }
        if retries == fuel {
          return Err(Blocked);
        }
        retries := retries + 1;
      }
    }

    /**
     * One pass of find_active_random_server's inner loop: copy the list, then pop a random
     * element of the copy and probe it until one answers live or the copy is empty.
     */
    method RandomPassProbe() returns (found: Option<Server>, ghost picks: seq<nat>, ghost pass: seq<Probe>)
      modifies this`probes
      ensures probes == old(probes) + pass
      ensures RandomPass(servers, picks, pass, found.Some?)
      ensures found.Some? ==> found.value == pass[|pass| - 1].server
    {
      found := None;
      var temp := servers;
      ghost var positions: seq<nat> := Range(0, |servers|);
      PopStart(servers);
      picks, pass := [], [];
      while temp != []
        invariant found == None
        invariant Popping(servers, temp, positions, picks, pass)
        invariant probes == old(probes) + pass
        decreases |temp|
      {
        var d := RandInt(0, |temp| - 1);
        ghost var before, at := temp, positions;
        var server := temp[d.value];
        temp := temp[..d.value] + temp[d.value + 1..];
        var hit := CheckAvailability(server);
        if hit {
          PopLive(servers, before, at, picks, pass, d.value);
        } else {
          PopDead(servers, before, at, picks, pass, d.value);
        }
        positions := at[..d.value] + at[d.value + 1..];
        picks := picks + [at[d.value]];
        pass := pass + [Probe(server, hit)];
        if hit {
          return Some(server), picks, pass;
        }
      }
      PopEnd(servers, temp, positions, picks, pass);
    }

    /**
     * find_active_random_server(exhaust): pop random elements from a fresh copy of the list
     * and probe each; on the first live answer return `servers.index` of that server. When
     * the copy runs empty, raise with `exhaust` and otherwise start over with a new copy;
     * the model gives up with Blocked after `fuel` retries.
     */
    method FindActiveRandomServer(exhaust: bool, fuel: nat) returns (r: Result<nat>)
      modifies this`probes
      ensures old(probes) <= probes
      ensures r.Ok? ==> r.value < |servers|
      ensures RandomScan(servers, exhaust, fuel, probes[|old(probes)|..], r)
    {
      ghost var before := probes;
      ghost var earlier: seq<Probe> := [];
      ghost var retried: seq<seq<nat>> := [];
      var retries: nat := 0;
      while true
        invariant retries == |retried| <= fuel
        invariant exhaust ==> retried == []
        invariant probes == before + earlier
        invariant DeadRandomPasses(servers, earlier, retried)
        decreases fuel - retries
      {
        ghost var mid := probes;
        var found, picks, pass := RandomPassProbe();
        if found.Some? {
          RandomHit(servers, exhaust, fuel, retried, earlier, picks, pass, before, mid, probes, found.value);
          return Ok(IndexOf(servers, found.value));
        }
        RandomMiss(servers, exhaust, fuel, retried, earlier, picks, pass, before, mid, probes);
        if exhaust {
          return Err(PoolExhausted);
        }
        if retries == fuel {
          return Err(Blocked);
        }
        earlier := earlier + pass;
        retried := retried + [picks];
        retries := retries + 1;
      }
    }

    /**
     * The effect of get_server(), with `fuel` bounding the retries of a non-exhausting scan.
     * An empty list raises and changes nothing. Otherwise the cursor moves per strategy
     * (FirstSelected, RoundRobinSelected, RandomSelected). The server returned is the one
     * under the new cursor.
     */
    twostate predicate Selected(fuel: nat, new r: Result<Server>)
      reads this
    {
      && servers == old(servers)
      && old(probes) <= probes
      && (r.Ok? ==> lastUsed < |servers| && r.value == servers[lastUsed])
      && if servers == [] then
           r == Err(ServerPoolError(NoServers)) && lastUsed == old(lastUsed) && probes == old(probes)
         else
           match pool.strategy
           case First => FirstSelected(fuel, r)
           case RoundRobin => RoundRobinSelected(fuel, r)
           case Random => RandomSelected(fuel, r)
    }

    /**
     * FIRST: without liveness checks the cursor goes to 0; with them it goes to the index
     * the circular scan from 0 returns, and stays where it was when the scan raises.
     */
    twostate predicate FirstSelected(fuel: nat, new r: Result<Server>)
      reads this
    {
      && servers != []
      && old(probes) <= probes
      && if !pool.active then
           probes == old(probes) && lastUsed == 0 && r == Ok(servers[0])
         else
           && (r.Err? ==> lastUsed == old(lastUsed))
           && CircularScan(servers, 0, pool.exhaust, fuel, probes[|old(probes)|..], Chosen(r, lastUsed))
    }

    /**
     * ROUND_ROBIN: without liveness checks the cursor moves one step round the list; with
     * them it goes to the index the circular scan from the next position returns, and stays
     * where it was when the scan raises.
     */
    twostate predicate RoundRobinSelected(fuel: nat, new r: Result<Server>)
      reads this
    {
      && servers != []
      && old(probes) <= probes
      && if !pool.active then
           probes == old(probes) && lastUsed == NextRoundRobin(old(lastUsed), |servers|) && r == Ok(servers[lastUsed])
         else
           && (r.Err? ==> lastUsed == old(lastUsed))
           && old(lastUsed) < |servers|
           && CircularScan(servers, old(lastUsed) + 1, pool.exhaust, fuel, probes[|old(probes)|..], Chosen(r, lastUsed))
    }

    /**
     * RANDOM: without liveness checks the cursor is a draw from the inclusive range 0..n,
     * and a draw of n raises IndexError; with them it goes to the index the random scan
     * returns, and stays where it was when the scan raises.
     */
    twostate predicate RandomSelected(fuel: nat, new r: Result<Server>)
      reads this
    {
      && servers != []
      && old(probes) <= probes
      && if !pool.active then
           && probes == old(probes)
           && lastUsed <= |servers|
           && r == if lastUsed < |servers| then Ok(servers[lastUsed]) else Err(IndexError)
         else
           && (r.Err? ==> lastUsed == old(lastUsed))
           && RandomScan(servers, pool.exhaust, fuel, probes[|old(probes)|..], Chosen(r, lastUsed))
    }

    /** The FIRST branch of get_server(). */
    method GetFirst(fuel: nat) returns (r: Result<Server>)
      requires Valid() && servers != [] && pool.strategy == First
      modifies this`lastUsed, this`probes
      ensures Valid()
      ensures r.Ok? ==> lastUsed < |servers| && r.value == servers[lastUsed]
      ensures FirstSelected(fuel, r)
    {
      if pool.active {
        var i := FindActiveServer(0, pool.exhaust, fuel);
        if i.Err? {
          return Err(i.error);
        }
        lastUsed := i.value;
      } else {
        lastUsed := 0;
      }
      r := PyIndex(servers, lastUsed);
    }

    /** The ROUND_ROBIN branch of get_server(). */
    method GetRoundRobin(fuel: nat) returns (r: Result<Server>)
      requires Valid() && servers != [] && pool.strategy == RoundRobin
      modifies this`lastUsed, this`probes
      ensures Valid()
      ensures r.Ok? ==> lastUsed < |servers| && r.value == servers[lastUsed]
      ensures RoundRobinSelected(fuel, r)
    {
      if pool.active {
        var i := FindActiveServer(lastUsed + 1, pool.exhaust, fuel);
        if i.Err? {
          return Err(i.error);
        }
        lastUsed := i.value;
      } else {
        lastUsed := NextRoundRobin(lastUsed, |servers|);
      }
      r := PyIndex(servers, lastUsed);
    }

    /** The RANDOM branch of get_server(). */
    method GetRandom(fuel: nat) returns (r: Result<Server>)
      requires Valid() && servers != [] && pool.strategy == Random
      modifies this`lastUsed, this`probes
      ensures Valid()
      ensures r.Ok? ==> lastUsed < |servers| && r.value == servers[lastUsed]
      ensures RandomSelected(fuel, r)
    {
      if pool.active {
        var i := FindActiveRandomServer(pool.exhaust, fuel);
        if i.Err? {
          return Err(i.error);
        }
        lastUsed := i.value;
      } else {
        var d := RandInt(0, |servers|);
        lastUsed := d.value;
      }
      r := PyIndex(servers, lastUsed);
    }

    /** get_server(): raise on an empty list, otherwise follow the pool's strategy. */
    method GetServer(fuel: nat) returns (r: Result<Server>)
      requires Valid()
      modifies this`lastUsed, this`probes
      ensures Valid()
      ensures Selected(fuel, r)
    {
      if servers == [] {
        return Err(ServerPoolError(NoServers));
      }
      match pool.strategy {
      case First => r := GetFirst(fuel);
      case RoundRobin => r := GetRoundRobin(fuel);
      case Random => r := GetRandom(fuel);
      }
    }
  }

  class ServerPool {
    const strategy: Strategy
    const active: bool
    const exhaust: bool
    var servers: seq<Server>
    var states: map<Connection, ServerPoolState>

    /** Every constructed pool has `exhaust ==> active`, and owns valid states that point back to it. */
    ghost predicate Valid()
      reads this, states.Values
    {
      && (exhaust ==> active)
      && forall st :: st in states.Values ==> st.pool == this && st.Valid()
    }

    /** The part of __init__ after validation and before the initial add. */
    constructor (strategy: Strategy, active: bool, exhaust: bool)
      requires exhaust ==> active
      ensures this.strategy == strategy && this.active == active && this.exhaust == exhaust
      ensures servers == [] && states == map[]
      ensures Valid()
    {
      this.strategy := strategy;
      this.active := active;
      this.exhaust := exhaust;
      servers := [];
      states := map[];
    }

    /**
     * ServerPool(servers, pool_strategy, active, exhaust): reject an unknown strategy, then
     * exhaust without active, then add the initial servers, whose failure aborts construction.
     */
    static method Create(initial: Value, strategyName: string, active: bool, exhaust: bool)
      returns (r: Result<ServerPool>)
      ensures CheckPolicy(strategyName, active, exhaust).Err? ==>
                r == Err(CheckPolicy(strategyName, active, exhaust).error)
      ensures CheckPolicy(strategyName, active, exhaust).Ok? ==>
                (r.Ok? <==> InitialServers(initial).outcome.Pass?)
      ensures r.Err? && CheckPolicy(strategyName, active, exhaust).Ok? ==>
                r.error == InitialServers(initial).outcome.error
      ensures r.Ok? ==> fresh(r.value) && r.value.Valid() && r.value.states == map[]
      ensures r.Ok? ==> r.value.servers == InitialServers(initial).servers
      ensures r.Ok? ==> StrategyName(r.value.strategy) == strategyName &&
                        r.value.active == active && r.value.exhaust == exhaust
    {
      var policy := CheckPolicy(strategyName, active, exhaust);
      if policy.Err? {
        return Err(policy.error);
      }
      var pool := new ServerPool(policy.value, active, exhaust);
      var o := Pass;
      match initial {
        case StringValue(a) =>
          o := pool.Add(ServerValue(FromAddress(a)));
        case OtherValue =>
        case _ =>
          o := pool.Add(initial);
      }
      if o.Fail? {
        return Err(o.error);
      }
      r := Ok(pool);
    }

    /** __len__: the number of servers in the pool. */
    function Length(): nat
      reads this
    {
      |servers|
    }

    /** __getitem__ with an integer index. */
    function GetItem(i: int): (r: Result<Server>)
      reads this
      ensures r.Ok? <==> -(Length() as int) <= i < Length()
      ensures r.Ok? ==> r.value == servers[if i < 0 then Length() + i else i]
      ensures r.Err? ==> r.error == IndexError
    {
      PyIndex(servers, i)
    }

    /**
     * After telling every state to refresh: on a non-empty list each state holds a copy of
     * it and a cursor in range; on an empty list, when some state exists, the first refresh
     * raised ValueError after emptying that state's copy: one state holds the empty copy,
     * no other copy changed and no cursor moved.
     */
    twostate predicate Notified(new o: Outcome)
      reads this, states.Values
    {
      && states == old(states)
      && (o.Pass? <==> servers != [] || states == map[])
      && (o.Fail? ==> o.error == ValueError)
      && (forall st :: st in old(states.Values) ==>
           && st.probes == old(st.probes)
           && if o.Pass? then st.servers == servers && st.lastUsed < |servers|
              else (st.servers == old(st.servers) || st.servers == []) && st.lastUsed == old(st.lastUsed))
      && (o.Fail? ==> exists st :: st in old(states.Values) && st.servers == [])
      && (o.Fail? ==>
            forall a, b ::
              a in old(states.Values) && b in old(states.Values) &&
              a.servers != old(a.servers) && b.servers != old(b.servers)
              ==> a == b)
    }

    twostate predicate StatesUnchanged()
      reads this, states.Values
    {
      && states == old(states)
      && forall st :: st in old(states.Values) ==> unchanged(st)
    }

    /** Refresh every registered state, stopping at the first refresh that raises. */
    method NotifyStates() returns (o: Outcome)
      requires Valid()
      modifies states.Values
      ensures Valid()
      ensures Notified(o)
    {
      var todo := states.Values;
      while todo != {}
        invariant todo <= states.Values
        invariant forall st :: st in states.Values ==> st.Valid()
        invariant forall st :: st in states.Values - todo ==>
                    st.servers == servers && st.lastUsed < |servers| && st.probes == old(st.probes)
        invariant forall st :: st in todo ==> unchanged(st)
        invariant todo != states.Values ==> servers != []
        decreases |todo|
      {
        var st :| st in todo;
        o := st.Refresh();
        if o.Fail? {
          assert todo == states.Values;
          assert st in old(states.Values) && st.servers == [];
          return;
        }
        todo := todo - {st};
      }
      if states != map[] {
        var c :| c in states;
        assert states[c] in states.Values;
      }
      o := Pass;
    }

    /**
     * add(servers): a Server is appended unless an equal one is present, a string is
     * appended as a new Server, a sequence element by element without de-duplication, and
     * any other value raises. A bad sequence element raises with the earlier elements left
     * appended and no state refreshed; on success every state is refreshed.
     */
    method Add(v: Value) returns (o: Outcome)
      requires Valid()
      modifies this`servers, states.Values
      ensures Valid()
      ensures servers == AddValue(old(servers), v).servers
      ensures AddValue(old(servers), v).outcome.Fail? ==>
                o == AddValue(old(servers), v).outcome && StatesUnchanged()
      ensures AddValue(old(servers), v).outcome.Pass? ==> Notified(o)
    {
      match v {
      case ServerValue(s) =>
        if s !in servers {
          servers := servers + [s];
        }
      case StringValue(a) =>
        servers := servers + [FromAddress(a)];
      case SequenceValue(es) =>
        var i := 0;
        while i < |es|
          invariant 0 <= i <= |es|
          invariant AppendElements(servers, es[i..]) == AppendElements(old(servers), es)
          invariant forall st :: st in states.Values ==> unchanged(st)
        {
          assert es[i..][1..] == es[i + 1..];
          if es[i].ServerValue? {
            servers := servers + [es[i].server];
          } else if es[i].StringValue? {
            servers := servers + [FromAddress(es[i].text)];
          } else {
            return Fail(ServerPoolError(ElementNotServer));
          }
          i := i + 1;
        }
      case OtherValue =>
        return Fail(ServerPoolError(NotServerOrList));
      }
      o := NotifyStates();
    }

    /**
     * remove(server): drop the first equal server and refresh every state; a server that is
     * absent raises and changes nothing.
     */
    method Remove(server: Server) returns (o: Outcome)
      requires Valid()
      modifies this`servers, states.Values
      ensures Valid()
      ensures server in old(servers) ==> servers == RemoveFirst(old(servers), server) && Notified(o)
      ensures server !in old(servers) ==>
                o == Fail(ServerPoolError(ServerNotInPool)) && servers == old(servers) && StatesUnchanged()
    {
      if server !in servers {
        return Fail(ServerPoolError(ServerNotInPool));
      }
      servers := RemoveFirst(servers, server);
      assert Valid();
      o := NotifyStates();
    }

    /**
     * initialize(connection): register a fresh state for the connection, replacing any
     * earlier one; the other connections keep theirs. Raises ValueError, registering
     * nothing, when the pool is empty.
     */
    method Initialize(c: Connection) returns (o: Outcome)
      requires Valid()
      modifies this`states
      ensures Valid()
      ensures o.Pass? <==> servers != []
      ensures o.Fail? ==> o.error == ValueError && states == old(states)
      ensures o.Pass? ==> c in states && fresh(states[c]) && states == old(states)[c := states[c]]
      ensures o.Pass? ==> states[c].servers == servers && states[c].lastUsed < |servers| && states[c].probes == []
    {
      var st := ServerPoolState.Create(this);
      if st.Err? {
        return Fail(st.error);
      }
      states := states[c := st.value];
      o := Pass;
    }

    /** get_server(connection): the connection's state selects; an unknown connection raises. */
    method GetServer(c: Connection, fuel: nat) returns (r: Result<Server>)
      requires Valid()
      modifies if c in states then {states[c]} else {}
      ensures Valid()
      ensures c !in states ==> r == Err(ServerPoolError(ConnectionNotRegistered))
      ensures c in states ==> states[c].Selected(fuel, r)
    {
      if c !in states {
        return Err(ServerPoolError(ConnectionNotRegistered));
      }
      r := states[c].GetServer(fuel);
    }

    /** get_current_server(connection): the server under the connection's cursor. */
    function GetCurrentServer(c: Connection): (r: Result<Server>)
      reads this, states.Values
      ensures c !in states ==> r == Err(ServerPoolError(ConnectionNotRegistered))
      ensures c in states ==> (r.Ok? <==> states[c].lastUsed < |states[c].servers|)
      ensures c in states && r.Ok? ==> r.value == states[c].servers[states[c].lastUsed]
      ensures c in states && r.Err? ==> r.error == IndexError
    {
      if c in states then states[c].GetCurrentServer() else Err(ServerPoolError(ConnectionNotRegistered))
    }
  }
}
