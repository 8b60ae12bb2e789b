/** The lock that keeps two instances from deciding the same review at once. */
module Locks {
  import opened Leases
  import opened Options

  /** What becomes of a call to Redis: it may be carried out and its answer still be lost. */
  datatype Trip = Arrives | AnswerLost | NeverSent

  /** The keys in Redis, shared by every lock client. Clients read it through their own calls only. */
  class LockServer {
    var keys: map<string, Lease>
    var clock: nat

    constructor ()
      ensures keys == map[] && clock == 0
    {
      keys := map[];
      clock := 0;
    }

    /** Time and the other clients, each with a token of its own. */
    method Others(ops: seq<Op<string>>, ttl: nat)
      modifies this
      ensures (keys, clock) == Play(old(keys), old(clock), ttl, ops)
    {
      hide Do;
      for i := 0 to |ops|
        invariant Play(keys, clock, ttl, ops[i..]) == Play(old(keys), old(clock), ttl, ops)
      {
        assert ops[i..][1..] == ops[i + 1..];
        var (k, c) := Do(keys, clock, ttl, ops[i]);
        keys, clock := k, c;
      }
    }
  }

  class DistributedLock {
    const server: LockServer
    const prefix: string
    /** In milliseconds. */
    const ttl: nat

    constructor (server: LockServer, prefix: string, ttl: int)
      ensures this.server == server && this.prefix == if prefix == "" then "agent:lock:" else prefix
      ensures this.ttl == if ttl <= 0 then 120000 else ttl
    {
      this.server := server;
      this.prefix := if prefix == "" then "agent:lock:" else prefix;
      this.ttl := if ttl <= 0 then 120000 else ttl;
    }

    /** `random` is the fresh token, when the system has one to give. An answer that is lost leaves the key taken until it lapses. */
    method Acquire(key: string, random: Option<nat>, trip: Trip) returns (token: Option<nat>, ok: bool, err: bool)
      modifies server`keys
      ensures err <==> random.None? || trip != Arrives
      ensures ok ==> !err && token == random && SetNX(old(server.keys), prefix + key, random.value, server.clock + ttl).1
      ensures !ok ==> token == None
      ensures !ok && !err ==> prefix + key in old(server.keys) && server.keys == old(server.keys)
      ensures server.keys == if random.None? || trip == NeverSent then old(server.keys)
                             else SetNX(old(server.keys), prefix + key, random.value, server.clock + ttl).0
    {
      if random.None? {
        return None, false, true;
      }
      if trip == NeverSent {
        return None, false, true;
      }
      var (keys, free) := SetNX(server.keys, prefix + key, random.value, server.clock + ttl);
      server.keys := keys;
      if trip == AnswerLost || !free {
        return None, false, trip == AnswerLost;
      }
      return random, true, false;
    }

    method Renew(key: string, token: nat, trip: Trip) returns (ok: bool, err: bool)
      modifies server`keys
      ensures err <==> trip != Arrives
      ensures ok <==> !err && Leases.Renew(old(server.keys), prefix + key, token, server.clock + ttl).1
      ensures server.keys == if trip == NeverSent then old(server.keys)
                             else Leases.Renew(old(server.keys), prefix + key, token, server.clock + ttl).0
    {
      if trip == NeverSent {
        return false, true;
      }
      var k := prefix + key;
      if k in server.keys && server.keys[k].token == token {
        server.keys := server.keys[k := Lease(token, server.clock + ttl)];
        return trip == Arrives, trip == AnswerLost;
      }
      return false, trip == AnswerLost;
    }

    method Release(key: string, token: nat, trip: Trip) returns (err: bool)
      modifies server`keys
      ensures err <==> trip != Arrives
      ensures server.keys == if trip == NeverSent then old(server.keys) else Leases.Release(old(server.keys), prefix + key, token)
    {
      if trip == NeverSent {
        return true;
      }
      var k := prefix + key;
      if k in server.keys && server.keys[k].token == token {
        server.keys := map j | j in server.keys && j != k :: server.keys[j];
      }
      return trip == AnswerLost;
    }
  }

  // ---- Keeping a lease alive -----------------------------------------------------------------

  /** One renewal: when it was sent, when it was answered or given up on, and whether it was good. */
  datatype Beat = Beat(start: int, end: int, good: bool)

  /** A third of the lease, but at least a second. Without a lease time to go by it is ten seconds. */
  function Interval(ttl: nat): (i: nat)
    ensures i >= 1000
  {
    if ttl == 0 then 10000 else if ttl / 3 < 1000 then 1000 else ttl / 3
  }

  /** How long a renewal is waited for. Acquiring has no such limit. */
  const PATIENCE: nat := 3000

  /** The first tick after t of a ticker made at `born`. */
  function NextTick(ttl: nat, born: int, t: int): int
    requires born <= t
  {
    born + ((t - born) / Interval(ttl) + 1) * Interval(ttl)
  }

  /**
    The renewals after one that was sent at `sent` and over at `over`: the ticker keeps one tick for later, so the next
    is sent at the first tick since, or as soon as the one before is over. The ticker is made when Acquire has answered.
   */
  ghost predicate Beats(ttl: nat, born: int, sent: int, over: int, beats: seq<Beat>)
    requires born <= sent
    decreases |beats|
  {
    beats == [] ||
    var b, tick := beats[0], NextTick(ttl, born, sent);
    && b.start == (if tick < over then over else tick)
    && b.start <= b.end <= b.start + PATIENCE
    && born <= b.start
    && (b.good ==> Beats(ttl, born, b.start, b.end, beats[1..]))
  }

  /** Whoever is told to stop, because a renewal was not good, is told before the lease can lapse; `last` bounds its start from below. */
  ghost predicate StopsInTime(ttl: nat, last: int, beats: seq<Beat>)
    decreases |beats|
  {
    beats == [] || (if beats[0].good then StopsInTime(ttl, beats[0].start, beats[1..]) else beats[0].end <= last + ttl)
  }

  lemma TickIsNear(ttl: nat, born: int, t: int)
    requires born <= t
    ensures t < NextTick(ttl, born, t) <= t + Interval(ttl)
    ensures NextTick(ttl, born, born) == born + Interval(ttl)
  {
    var i := Interval(ttl);
    var q, r := (t - born) / i, (t - born) % i;
    hide Interval;
    assert t - born == q * i + r && 0 <= r < i;
    assert (q + 1) * i == q * i + i;
    assert (born - born) / i == 0;
  }

  lemma {:induction false} LaterBeatsStopInTime(ttl: nat, born: int, sent: int, over: int, beats: seq<Beat>)
    requires Interval(ttl) + PATIENCE <= ttl && 2 * PATIENCE <= ttl
    requires born <= sent <= over <= sent + PATIENCE && Beats(ttl, born, sent, over, beats)
    ensures StopsInTime(ttl, sent, beats)
    decreases |beats|
  {
    TickIsNear(ttl, born, sent);
    hide Interval, NextTick;
    if beats != [] && beats[0].good { LaterBeatsStopInTime(ttl, born, beats[0].start, beats[0].end, beats[1..]); }
  }

  /** The whole course: Acquire was sent `latency` before its answer, at which the ticker is made. */
  ghost predicate AlwaysInTime(ttl: nat, latency: nat) {
    forall born: int, beats: seq<Beat> :: Beats(ttl, born, born, born, beats) ==> StopsInTime(ttl, born - latency, beats)
  }

  /** A first renewal given up on, or a slow one followed by one given up on. */
  lemma LeaseCanLapse(ttl: nat, latency: nat)
    requires latency + Interval(ttl) + PATIENCE > ttl || 2 * PATIENCE > ttl
    ensures !AlwaysInTime(ttl, latency)
  {
    var i := Interval(ttl);
    TickIsNear(ttl, 0, 0);
    TickIsNear(ttl, 0, i);
    hide Interval, NextTick;
    var lost := [Beat(i, i + PATIENCE, false)];
    if latency + i + PATIENCE > ttl {
      assert Beats(ttl, 0, 0, 0, lost) && !StopsInTime(ttl, 0 - latency, lost);
    } else {
      var tick := NextTick(ttl, 0, i);
      var second := if tick < i + PATIENCE then i + PATIENCE else tick;
      var rest := [Beat(second, second + PATIENCE, false)];
      var slow := [Beat(i, i + PATIENCE, true)] + rest;
      assert slow[1..] == rest;
      assert Beats(ttl, 0, i, i + PATIENCE, rest) && !StopsInTime(ttl, i, rest);
      assert Beats(ttl, 0, 0, 0, slow) && !StopsInTime(ttl, 0 - latency, slow);
    }
  }

  /**
    Work under the lock always stops before the lease can lapse exactly when the lease outlasts the latency of Acquire,
    an interval and a renewal given up on, and also two such renewals. With default leases that is a latency of up to 77 s.
   */
  lemma WorkEndsWithinLease(ttl: nat, latency: nat)
    ensures AlwaysInTime(ttl, latency) <==> latency + Interval(ttl) + PATIENCE <= ttl && 2 * PATIENCE <= ttl
  {
    if latency + Interval(ttl) + PATIENCE <= ttl && 2 * PATIENCE <= ttl {
      forall born: int, beats: seq<Beat> | Beats(ttl, born, born, born, beats)
        ensures StopsInTime(ttl, born - latency, beats)
      {
        TickIsNear(ttl, born, born);
        hide Interval, NextTick;
        if beats != [] && beats[0].good { LaterBeatsStopInTime(ttl, born, beats[0].start, beats[0].end, beats[1..]); }
      }
    } else {
      LeaseCanLapse(ttl, latency);
    }
  }
}
