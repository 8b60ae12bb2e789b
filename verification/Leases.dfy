/**
  Token leases: a key holds the random token of its owner until it is released by that token or
  lapses. The job claim, the review claim and the decision lock are three uses of the same scripts.
 */
module Leases {

  datatype Lease = Lease(token: nat, expires: nat)

  /** A key is readable while the clock has not passed its deadline. */
  function Elapse<K>(t: map<K, Lease>, now: nat): map<K, Lease> {
    map k | k in t && now <= t[k].expires :: t[k]
  }

  /** SET key token NX PX ttl */
  function SetNX<K>(t: map<K, Lease>, k: K, token: nat, deadline: nat): (r: (map<K, Lease>, bool)) {
    if k in t then (t, false) else (t[k := Lease(token, deadline)], true)
  }

  function Renew<K>(t: map<K, Lease>, k: K, token: nat, deadline: nat): (r: (map<K, Lease>, bool)) {
    if k in t && t[k].token == token then (t[k := Lease(token, deadline)], true) else (t, false)
  }

  function Release<K>(t: map<K, Lease>, k: K, token: nat): map<K, Lease> {
    if k in t && t[k].token == token then map j | j in t && j != k :: t[j] else t
  }

  datatype Op<K> =
    | Pass(until: nat)
    | Acquire(key: K, token: nat)
    | Extend(key: K, token: nat)
    | Drop(key: K, token: nat)

  function Do<K>(t: map<K, Lease>, now: nat, ttl: nat, op: Op<K>): (map<K, Lease>, nat) {
    match op
    case Pass(until) => if until < now then (t, now) else (Elapse(t, until), until)
    case Acquire(k, token) => (SetNX(t, k, token, now + ttl).0, now)
    case Extend(k, token) => (Renew(t, k, token, now + ttl).0, now)
    case Drop(k, token) => (Release(t, k, token), now)
  }

  function Play<K>(t: map<K, Lease>, now: nat, ttl: nat, ops: seq<Op<K>>): (map<K, Lease>, nat)
    decreases |ops|
  {
    if ops == [] then (t, now) else
    var (t', now') := Do(t, now, ttl, ops[0]);
    Play(t', now', ttl, ops[1..])
  }

  /** Leases never run past a lease taken now. */
  ghost predicate Dated<K>(t: map<K, Lease>, horizon: nat) {
    forall k | k in t :: t[k].expires <= horizon
  }

  ghost predicate Holds<K>(t: map<K, Lease>, k: K, token: nat, deadline: nat) {
    k in t && t[k].token == token && deadline <= t[k].expires
  }

  /** A token that is not the holder's neither frees nor prolongs nor replaces the lease. */
  lemma StaleTokenIsInert<K>(t: map<K, Lease>, k: K, token: nat, stale: nat, deadline: nat)
    requires k in t && t[k].token == token && stale != token
    ensures Release(t, k, stale) == t
    ensures Renew(t, k, stale, deadline) == (t, false)
    ensures SetNX(t, k, stale, deadline) == (t, false)
  {
  }

  /** Until it lapses, a lease is lost only by releasing it with its own token. */
  lemma LeaseSurvives<K>(t: map<K, Lease>, now: nat, ttl: nat, op: Op<K>, k: K, token: nat, deadline: nat)
    requires Dated(t, now + ttl) && Holds(t, k, token, deadline)
    requires op != Drop(k, token)
    ensures var (t', now') := Do(t, now, ttl, op); Dated(t', now' + ttl) && (now' <= deadline ==> Holds(t', k, token, deadline))
  {
  }

  /** The same over a whole run of scripts by any number of clients. */
  lemma {:induction false} LeaseSurvivesRun<K>(t: map<K, Lease>, now: nat, ttl: nat, ops: seq<Op<K>>, k: K, token: nat, deadline: nat)
    requires Dated(t, now + ttl) && (now <= deadline ==> Holds(t, k, token, deadline))
    requires Drop(k, token) !in ops
    ensures var (t', now') := Play(t, now, ttl, ops); now <= now' && (now' <= deadline ==> Holds(t', k, token, deadline))
    decreases |ops|
  {
    if ops != [] {
      var (t', now') := Do(t, now, ttl, ops[0]);
      if now <= deadline { LeaseSurvives(t, now, ttl, ops[0], k, token, deadline); }
      LeaseSurvivesRun(t', now', ttl, ops[1..], k, token, deadline);
    }
  }

  /**
    Mutual exclusion: from the moment a client's SetNX succeeds until its lease's first deadline, and
    as long as it does not release, nobody else's SetNX on that key succeeds, whatever everyone does.
   */
  lemma HolderExcludes<K>(t: map<K, Lease>, now: nat, ttl: nat, k: K, token: nat, ops: seq<Op<K>>, rival: nat)
    requires Dated(t, now + ttl) && SetNX(t, k, token, now + ttl).1
    requires Drop(k, token) !in ops
    ensures var (t', now') := Play(SetNX(t, k, token, now + ttl).0, now, ttl, ops);
      now' <= now + ttl ==> !SetNX(t', k, rival, now' + ttl).1 && t'[k].token == token
  {
    LeaseSurvivesRun(SetNX(t, k, token, now + ttl).0, now, ttl, ops, k, token, now + ttl);
  }
}
