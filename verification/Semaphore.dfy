/**
  The two-level concurrency limit of the job queue: one sorted set for the whole queue and one for
  each store/activity scope. A member is a worker's slot token and its score is the time at which
  the slot lapses; every key also carries a whole-key expiry (PEXPIRE).
 */
module Semaphore {

  /** A Redis sorted set with the deadline of its key. A missing key is the empty set. */
  datatype ZSet = ZSet(scores: map<nat, nat>, expires: nat)

  const NOTHING := ZSet(map[], 0)

  /** K is the type of a scope's key. */
  datatype Slots<K(==)> = Slots(global: ZSet, scopes: map<K, ZSet>)

  /** GlobalConcurrency, ScopeConcurrency and the lifetime of a slot. */
  datatype Limits = Limits(global: nat, scope: nat, ttl: nat)

  function Empty<K>(): Slots<K> {
    Slots(NOTHING, map[])
  }

  function Scope<K>(s: Slots<K>, k: K): ZSet {
    if k in s.scopes then s.scopes[k] else NOTHING
  }

  /** ZREMRANGEBYSCORE key -inf now */
  function Prune(z: ZSet, now: nat): ZSet {
    z.(scores := map t | t in z.scores && now < z.scores[t] :: z.scores[t])
  }

  /** ZADD and PEXPIRE, always issued as a pair with the same deadline. */
  function Put(z: ZSet, token: nat, deadline: nat): ZSet {
    ZSet(z.scores[token := deadline], deadline)
  }

  /** ZREM */
  function Remove(z: ZSet, token: nat): ZSet {
    z.(scores := map t | t in z.scores && t != token :: z.scores[t])
  }

  /** Key expiry: Redis drops a key once the clock is past its deadline. */
  function Expire(z: ZSet, now: nat): ZSet {
    if z.expires < now then NOTHING else z
  }

  function Elapse<K>(s: Slots<K>, now: nat): Slots<K> {
    Slots(Expire(s.global, now), map k | k in s.scopes :: Expire(s.scopes[k], now))
  }

  function Acquire<K>(s: Slots<K>, limits: Limits, k: K, token: nat, now: nat): (r: (Slots<K>, bool)) {
    var g := Prune(s.global, now);
    var z := Prune(Scope(s, k), now);
    var pruned := Slots(g, s.scopes[k := z]);
    if |g.scores| >= limits.global || |z.scores| >= limits.scope then (pruned, false)
    else (Take(pruned, k, token, now + limits.ttl), true)
  }

  function Take<K>(s: Slots<K>, k: K, token: nat, deadline: nat): Slots<K> {
    Slots(Put(s.global, token, deadline), s.scopes[k := Put(Scope(s, k), token, deadline)])
  }

  /** Looks the token up in the global set only, and then writes both sets. */
  function Renew<K>(s: Slots<K>, limits: Limits, k: K, token: nat, now: nat): (r: (Slots<K>, bool)) {
    if token !in s.global.scores then (s, false) else (Take(s, k, token, now + limits.ttl), true)
  }

  function Release<K>(s: Slots<K>, k: K, token: nat): Slots<K> {
    Slots(Remove(s.global, token), s.scopes[k := Remove(Scope(s, k), token)])
  }

  // ---- The invariant -------------------------------------------------------------------------

  /** Tokens that count against scope k: its own members, and the global members issued for it. */
  ghost function Charged<K(!new)>(home: map<nat, K>, s: Slots<K>, k: K): set<nat> {
    Scope(s, k).scores.Keys + set t | t in s.global.scores && t in home && home[t] == k
  }

  /** An unexpired global member sits in its scope's set with the same score, under a key that outlives it. */
  ghost predicate Mirrored<K(!new)>(home: map<nat, K>, s: Slots<K>, now: nat) {
    forall t | t in s.global.scores && now < s.global.scores[t] ::
      && t in home
      && home[t] in s.scopes
      && t in s.scopes[home[t]].scores
      && s.scopes[home[t]].scores[t] == s.global.scores[t]
      && s.global.scores[t] <= s.scopes[home[t]].expires
  }

  ghost predicate Homed<K(!new)>(home: map<nat, K>, s: Slots<K>) {
    && (forall t | t in s.global.scores :: t in home)
    && (forall k | k in s.scopes :: forall t | t in s.scopes[k].scores :: t in home && home[t] == k)
  }

  ghost predicate Bounded(z: ZSet, horizon: nat) {
    && z.expires <= horizon
    && forall t | t in z.scores :: z.scores[t] <= z.expires
  }

  /** No score outlives its key, and no key outlives a lease taken now. */
  ghost predicate Dated<K(!new)>(s: Slots<K>, horizon: nat) {
    && Bounded(s.global, horizon)
    && forall k | k in s.scopes :: Bounded(s.scopes[k], horizon)
  }

  ghost predicate Fits<K(!new)>(home: map<nat, K>, s: Slots<K>, limits: Limits, k: K) {
    |Charged(home, s, k)| <= limits.scope
  }

  ghost predicate WithinCaps<K(!new)>(home: map<nat, K>, s: Slots<K>, limits: Limits) {
    && |s.global.scores| <= limits.global
    && forall k :: Fits(home, s, limits, k)
  }

  /** `home` says which scope each token was issued for; a token is never used with another one. */
  ghost predicate Inv<K(!new)>(home: map<nat, K>, s: Slots<K>, limits: Limits, now: nat) {
    && Homed(home, s)
    && Dated(s, now + limits.ttl)
    && Mirrored(home, s, now)
    && WithinCaps(home, s, limits)
  }

  // ---- Every script keeps it -----------------------------------------------------------------

  lemma SubsetSize<T>(a: set<T>, b: set<T>)
    requires a <= b
    ensures |a| <= |b|
  {
    assert b == a + (b - a);
  }

  /** Whatever only removes members keeps the caps. */
  lemma CapsShrink<K(!new)>(home: map<nat, K>, s: Slots<K>, s': Slots<K>, limits: Limits)
    requires WithinCaps(home, s, limits)
    requires s'.global.scores.Keys <= s.global.scores.Keys
    requires forall k :: Scope(s', k).scores.Keys <= Scope(s, k).scores.Keys
    ensures WithinCaps(home, s', limits)
  {
    forall k ensures Fits(home, s', limits, k) {
      assert Fits(home, s, limits, k);
      SubsetSize(Charged(home, s', k), Charged(home, s, k));
    }
    SubsetSize(s'.global.scores.Keys, s.global.scores.Keys);
  }

  lemma ElapseKeeps<K(!new)>(home: map<nat, K>, s: Slots<K>, s': Slots<K>, limits: Limits, now: nat, later: nat)
    requires Inv(home, s, limits, now) && now <= later
    requires s' == Elapse(s, later)
    ensures Inv(home, s', limits, later)
  {
    CapsShrink(home, s, s', limits);
  }

  lemma ReleaseKeeps<K(!new)>(home: map<nat, K>, s: Slots<K>, s': Slots<K>, limits: Limits, now: nat, k: K, token: nat)
    requires Inv(home, s, limits, now)
    requires token in home && home[token] == k
    requires s' == Release(s, k, token)
    ensures Inv(home, s', limits, now)
  {
    CapsShrink(home, s, s', limits);
  }

  lemma TakeKeepsMirror<K(!new)>(home: map<nat, K>, s: Slots<K>, s': Slots<K>, k: K, token: nat, now: nat, deadline: nat)
    requires Homed(home, s) && Mirrored(home, s, now) && Dated(s, deadline)
    requires token in home && home[token] == k
    requires s' == Take(s, k, token, deadline)
    ensures Homed(home, s') && Dated(s', deadline) && Mirrored(home, s', now)
  {
    forall t | t in s'.global.scores && now < s'.global.scores[t]
      ensures t in home && home[t] in s'.scopes && t in s'.scopes[home[t]].scores
      ensures s'.scopes[home[t]].scores[t] == s'.global.scores[t] <= s'.scopes[home[t]].expires
    {
      if t != token { assert t in s.global.scores; }
    }
  }

  /** Writing a token into both sets charges it to its own scope and to no other. */
  lemma TakeCharges<K(!new)>(home: map<nat, K>, s: Slots<K>, k: K, token: nat, deadline: nat, j: K)
    requires token in home && home[token] == k
    ensures Charged(home, Take(s, k, token, deadline), j) == Charged(home, s, j) + if j == k then {token} else {}
  {
    assert Scope(Take(s, k, token, deadline), j).scores.Keys == Scope(s, j).scores.Keys + if j == k then {token} else {};
  }

  /** Renewing checks the global set only, yet a renewed token was already charged to its scope. */
  lemma RenewCaps<K(!new)>(home: map<nat, K>, s: Slots<K>, s': Slots<K>, limits: Limits, k: K, token: nat, deadline: nat)
    requires WithinCaps(home, s, limits)
    requires token in home && home[token] == k && token in s.global.scores
    requires s' == Take(s, k, token, deadline)
    ensures WithinCaps(home, s', limits)
  {
    forall j ensures Fits(home, s', limits, j) {
      assert Fits(home, s, limits, j);
      TakeCharges(home, s, k, token, deadline, j);
      assert Charged(home, s', j) == Charged(home, s, j);
    }
  }

  lemma RenewKeeps<K(!new)>(home: map<nat, K>, s: Slots<K>, s': Slots<K>, limits: Limits, now: nat, k: K, token: nat)
    requires Inv(home, s, limits, now)
    requires token in home && home[token] == k
    requires s' == Renew(s, limits, k, token, now).0
    ensures Inv(home, s', limits, now)
  {
    if token in s.global.scores {
      TakeKeepsMirror(home, s, s', k, token, now, now + limits.ttl);
      RenewCaps(home, s, s', limits, k, token, now + limits.ttl);
    }
  }

  lemma PruneKeeps<K(!new)>(home: map<nat, K>, s: Slots<K>, p: Slots<K>, limits: Limits, now: nat, k: K)
    requires Inv(home, s, limits, now)
    requires p == Slots(Prune(s.global, now), s.scopes[k := Prune(Scope(s, k), now)])
    ensures Inv(home, p, limits, now)
  {
    CapsShrink(home, s, p, limits);
  }

  /** When every global member of scope k is mirrored, the scope's own set is all that is charged to it. */
  lemma TakeCaps<K(!new)>(home: map<nat, K>, s: Slots<K>, s': Slots<K>, limits: Limits, k: K, token: nat, deadline: nat)
    requires WithinCaps(home, s, limits)
    requires token in home && home[token] == k
    requires forall t | t in s.global.scores && t in home && home[t] == k :: t in Scope(s, k).scores
    requires |s.global.scores| < limits.global && |Scope(s, k).scores| < limits.scope
    requires s' == Take(s, k, token, deadline)
    ensures WithinCaps(home, s', limits)
  {
    assert Charged(home, s, k) == Scope(s, k).scores.Keys;
    forall j ensures Fits(home, s', limits, j) {
      assert Fits(home, s, limits, j);
      TakeCharges(home, s, k, token, deadline, j);
    }
  }

  /** What a granted Acquire found once the lapsed members were gone. */
  lemma Granted<K>(s: Slots<K>, p: Slots<K>, s': Slots<K>, limits: Limits, now: nat, k: K, token: nat)
    requires p == Slots(Prune(s.global, now), s.scopes[k := Prune(Scope(s, k), now)])
    requires (s', true) == Acquire(s, limits, k, token, now)
    ensures s' == Take(p, k, token, now + limits.ttl)
    ensures |p.global.scores| < limits.global && |Scope(p, k).scores| < limits.scope
  {
    hide Prune, Take;
  }

  /** Unlapsed members charged to a scope are in its own set. */
  lemma ChargedAreScoped<K(!new)>(home: map<nat, K>, s: Slots<K>, now: nat, k: K)
    requires Mirrored(home, s, now) && forall t | t in s.global.scores :: now < s.global.scores[t]
    ensures forall t | t in s.global.scores && t in home && home[t] == k :: t in Scope(s, k).scores
  {
  }

  /** A grant out of pruned sets. */
  lemma GrantKeeps<K(!new)>(home: map<nat, K>, p: Slots<K>, s': Slots<K>, limits: Limits, now: nat, k: K, token: nat)
    requires Inv(home, p, limits, now) && forall t | t in p.global.scores :: now < p.global.scores[t]
    requires token in home && home[token] == k
    requires s' == Take(p, k, token, now + limits.ttl)
    requires |p.global.scores| < limits.global && |Scope(p, k).scores| < limits.scope
    ensures Inv(home, s', limits, now)
  {
    hide Take, WithinCaps, Scope, Mirrored, Homed, Dated;
    ChargedAreScoped(home, p, now, k);
    TakeKeepsMirror(home, p, s', k, token, now, now + limits.ttl);
    TakeCaps(home, p, s', limits, k, token, now + limits.ttl);
  }

  lemma AcquireKeeps<K(!new)>(home: map<nat, K>, s: Slots<K>, s': Slots<K>, limits: Limits, now: nat, k: K, token: nat)
    requires Inv(home, s, limits, now)
    requires token in home && home[token] == k
    requires s' == Acquire(s, limits, k, token, now).0
    ensures Inv(home, s', limits, now)
  {
    hide Inv, Take;
    var p := Slots(Prune(s.global, now), s.scopes[k := Prune(Scope(s, k), now)]);
    PruneKeeps(home, s, p, limits, now, k);
    if Acquire(s, limits, k, token, now).1 {
      Granted(s, p, s', limits, now, k, token);
      GrantKeeps(home, p, s', limits, now, k, token);
    } else {
      assert s' == p;
    }
  }

  // ---- Whole runs ----------------------------------------------------------------------------

  datatype Op<K> =
    | Pass(until: nat)
    | AcquireOp(scope: K, token: nat)
    | RenewOp(scope: K, token: nat)
    | ReleaseOp(scope: K, token: nat)

  /** One script, or the passing of time; a clock never goes back. */
  function Do<K>(s: Slots<K>, limits: Limits, now: nat, op: Op<K>): (Slots<K>, nat) {
    match op
    case Pass(until) => if until < now then (s, now) else (Elapse(s, until), until)
    case AcquireOp(k, t) => (Acquire(s, limits, k, t, now).0, now)
    case RenewOp(k, t) => (Renew(s, limits, k, t, now).0, now)
    case ReleaseOp(k, t) => (Release(s, k, t), now)
  }

  function Play<K>(s: Slots<K>, limits: Limits, now: nat, ops: seq<Op<K>>): (Slots<K>, nat)
    decreases |ops|
  {
    if ops == [] then (s, now) else
    var (s', now') := Do(s, limits, now, ops[0]);
    Play(s', limits, now', ops[1..])
  }

  /** Each token belongs to one record and is therefore only ever used with that record's scope. */
  ghost predicate WellScoped<K(!new)>(home: map<nat, K>, ops: seq<Op<K>>) {
    forall op | op in ops && !op.Pass? :: op.token in home && home[op.token] == op.scope
  }

  lemma DoKeeps<K(!new)>(home: map<nat, K>, s: Slots<K>, limits: Limits, now: nat, op: Op<K>)
    requires Inv(home, s, limits, now)
    requires op.Pass? || (op.token in home && home[op.token] == op.scope)
    ensures var (s', now') := Do(s, limits, now, op); Inv(home, s', limits, now')
  {
    var (s', now') := Do(s, limits, now, op);
    match op
    case Pass(until) => if until >= now { ElapseKeeps(home, s, s', limits, now, until); }
    case AcquireOp(k, t) => AcquireKeeps(home, s, s', limits, now, k, t);
    case RenewOp(k, t) => RenewKeeps(home, s, s', limits, now, k, t);
    case ReleaseOp(k, t) => ReleaseKeeps(home, s, s', limits, now, k, t);
  }

  lemma {:induction false} PlayKeeps<K(!new)>(home: map<nat, K>, s: Slots<K>, limits: Limits, now: nat, ops: seq<Op<K>>)
    requires Inv(home, s, limits, now) && WellScoped(home, ops)
    ensures var (s', now') := Play(s, limits, now, ops); Inv(home, s', limits, now')
    decreases |ops|
  {
    if ops != [] {
      var (s', now') := Do(s, limits, now, ops[0]);
      DoKeeps(home, s, limits, now, ops[0]);
      PlayKeeps(home, s', limits, now', ops[1..]);
    }
  }

  /** Caps survive every interleaving of acquire, renew, release, score expiry and key expiry. */
  lemma CapsHold<K(!new)>(home: map<nat, K>, limits: Limits, ops: seq<Op<K>>)
    requires WellScoped(home, ops)
    ensures var (s, now) := Play(Empty<K>(), limits, 0, ops);
      && |s.global.scores| <= limits.global
      && forall k :: |Scope(s, k).scores| <= limits.scope
  {
    assert forall k :: Charged(home, Empty<K>(), k) == {};
    PlayKeeps(home, Empty<K>(), limits, 0, ops);
    var (s, now) := Play(Empty<K>(), limits, 0, ops);
    forall k ensures |Scope(s, k).scores| <= limits.scope {
      assert Fits(home, s, limits, k);
      SubsetSize(Scope(s, k).scores.Keys, Charged(home, s, k));
    }
  }

  /** Issuing tokens that are in no set yet changes nothing. */
  lemma HomeExtends<K(!new)>(home: map<nat, K>, home': map<nat, K>, s: Slots<K>, limits: Limits, now: nat)
    requires Inv(home, s, limits, now)
    requires forall t | t in home :: t in home' && home'[t] == home[t]
    ensures Inv(home', s, limits, now)
  {
    forall k ensures Fits(home', s, limits, k) {
      assert Fits(home, s, limits, k);
      assert Charged(home', s, k) == Charged(home, s, k);
    }
  }

  // ---- What holding a slot means -------------------------------------------------------------

  ghost predicate Holds<K(!new)>(s: Slots<K>, token: nat, deadline: nat) {
    token in s.global.scores && deadline <= s.global.scores[token]
  }

  /** Until it lapses, a slot is lost only by releasing that very token. */
  lemma SlotSurvives<K(!new)>(home: map<nat, K>, s: Slots<K>, limits: Limits, now: nat, op: Op<K>, token: nat, deadline: nat)
    requires Inv(home, s, limits, now)
    requires Holds(s, token, deadline)
    requires op.ReleaseOp? ==> op.token != token
    ensures var (s', now') := Do(s, limits, now, op); now' < deadline ==> Holds(s', token, deadline)
  {
  }

  /** Tokens whose slots have not lapsed are at most as many as the caps allow, overall and per scope. */
  lemma HoldersFit<K(!new)>(home: map<nat, K>, s: Slots<K>, limits: Limits, now: nat, tokens: set<nat>, k: K)
    requires Inv(home, s, limits, now)
    requires forall t | t in tokens :: Holds(s, t, now + 1)
    ensures |tokens| <= limits.global
    ensures (forall t | t in tokens :: t in home && home[t] == k) ==> |tokens| <= limits.scope
  {
    SubsetSize(tokens, s.global.scores.Keys);
    if forall t | t in tokens :: t in home && home[t] == k {
      assert Fits(home, s, limits, k);
      SubsetSize(tokens, Charged(home, s, k));
    }
  }
}
