/** The two implementations of the memory store: a Go map with eviction, and keyed Redis values. */
module MemoryStores {
  import opened Memory
  import opened Options

  datatype Entry = Entry(session: Session, updatedAt: int)

  /** Constructors replace values that are not positive. */
  function Defaults(maxSessions: int, maxRecentSteps: int, maxSummaryChars: int, sessionTtl: int): (cfg: Config)
    ensures Normalised(cfg)
    ensures (maxSessions > 0 ==> cfg.maxSessions == maxSessions) && (maxSessions <= 0 ==> cfg.maxSessions == 1000)
    ensures (maxRecentSteps > 0 ==> cfg.maxRecentSteps == maxRecentSteps) && (maxRecentSteps <= 0 ==> cfg.maxRecentSteps == 8)
    ensures (maxSummaryChars > 0 ==> cfg.maxSummaryChars == maxSummaryChars) && (maxSummaryChars <= 0 ==> cfg.maxSummaryChars == 1200)
    ensures (sessionTtl > 0 ==> cfg.sessionTtl == sessionTtl) && (sessionTtl <= 0 ==> cfg.sessionTtl == 1800)
  {
    Config(if maxSessions <= 0 then 1000 else maxSessions, if maxRecentSteps <= 0 then 8 else maxRecentSteps,
           if maxSummaryChars <= 0 then 1200 else maxSummaryChars, if sessionTtl <= 0 then 1800 else sessionTtl)
  }

  function Sessions(m: map<string, Entry>): map<string, Session> {
    map k | k in m :: m[k].session
  }

  function Times<K>(m: map<K, Entry>): map<K, int> {
    map k | k in m :: m[k].updatedAt
  }

  ghost predicate Within<K(!new), V>(m': map<K, V>, m: map<K, V>) {
    forall k | k in m' :: k in m && m'[k] == m[k]
  }

  lemma BoundedWithin(cfg: Config, m: map<string, Session>, m': map<string, Session>)
    requires AllBounded(cfg, m) && Within(m', m)
    ensures AllBounded(cfg, m')
  {
  }

  ghost predicate Drops<K(!new)>(m: map<K, int>, m': map<K, int>, k: K) {
    && k in m && (forall j | j in m :: m[k] <= m[j])
    && m' == map j | j in m && j != k :: m[j]
  }

  /** Dropping one entry that was written no later than any other. */
  ghost predicate DropsOldest<K(!new)>(m: map<K, int>, m': map<K, int>) {
    exists k :: Drops(m, m', k)
  }

  /** A write at time t, followed by at most one eviction. */
  ghost predicate Wrote<K(!new)>(max: nat, m: map<K, int>, k: K, t: int, m': map<K, int>) {
    var w := m[k := t];
    if |w| <= max then m' == w else DropsOldest(w, m')
  }

  class InMemoryStore {
    const cfg: Config
    var states: map<string, Entry>

    constructor (maxSessions: int, maxRecentSteps: int, maxSummaryChars: int, sessionTtl: int)
      ensures Valid() && states == map[] && cfg == Defaults(maxSessions, maxRecentSteps, maxSummaryChars, sessionTtl)
    {
      cfg := Defaults(maxSessions, maxRecentSteps, maxSummaryChars, sessionTtl);
      states := map[];
    }

    /** Every record is within its limits, and there are never more than MaxSessions of them. */
    ghost predicate Valid()
      reads this
    {
      Normalised(cfg) && AllBounded(cfg, Sessions(states)) && |states| <= cfg.maxSessions
    }

    predicate Expired(e: Entry, now: int) {
      e.updatedAt + cfg.sessionTtl < now
    }

    method Load(memoryKey: string, now: int) returns (r: Option<Session>)
      requires Valid()
      modifies this
      ensures Valid()
      ensures var key := KeyOr(memoryKey, "default");
        if key in old(states) && !Expired(old(states)[key], now) then r == Some(old(states)[key].session) && states == old(states)
        else r == None && states == map k | k in old(states) && k != key :: old(states)[k]
    {
      var key := KeyOr(memoryKey, "default");
      if key !in states {
        assert states == map k | k in states && k != key :: states[k];
        return None;
      }
      var entry := states[key];
      if Expired(entry, now) {
        Remove(key);
        return None;
      }
      return Some(entry.session);
    }

    method Save(memoryKey: string, session: Session, now: int)
      requires Valid()
      modifies this
      ensures Valid()
      ensures Wrote(cfg.maxSessions, Times(old(states)), KeyOr(memoryKey, KeyOr(session.sessionId, "default")), now, Times(states))
      ensures Within(Sessions(states), Saved(cfg, Sessions(old(states)), memoryKey, session))
    {
      OpsAgree(cfg, Sessions(states), Op.Save(memoryKey, session));
      var state := session;
      if state.sessionId == "" {
        state := state.(sessionId := "default");
      }
      var key := memoryKey;
      if key == "" {
        key := state.sessionId;
      }
      state := Normalize(cfg, state);
      Write(key, state, now);
    }

    method AppendStep(memoryKey: string, step: StepRecord, now: int)
      requires Valid()
      modifies this
      ensures Valid()
      ensures Wrote(cfg.maxSessions, Times(old(states)), KeyOr(memoryKey, "default"), now, Times(states))
      ensures Within(Sessions(states), AppendedInMemory(cfg, Sessions(old(states)), memoryKey, step))
    {
      OpsAgree(cfg, Sessions(states), Op.AppendStep(memoryKey, step));
      var key := KeyOr(memoryKey, "default");
      var state := if key in states then states[key].session else Fresh("");
      if state.sessionId == "" {
        state := state.(sessionId := key);
      }
      state := state.(recentSteps := state.recentSteps + [step]);
      state := Shorten(state);
      Write(key, state, now);
    }

    /** Moves the steps beyond the limit into the summary. */
    method Shorten(session: Session) returns (state: Session)
      ensures state == Compact(cfg, session)
    {
      hide SummarizeSteps, MergeSummary, TrimText;
      state := session;
      if |state.recentSteps| > cfg.maxRecentSteps {
        var overflow := |state.recentSteps| - cfg.maxRecentSteps;
        state := state.(summary := MergeSummary(state.summary, SummarizeSteps(state.recentSteps[..overflow])));
        state := state.(recentSteps := state.recentSteps[overflow..]);
        state := state.(summary := TrimText(state.summary, cfg.maxSummaryChars));
      }
    }

    method ClearSession(memoryKey: string)
      requires Valid()
      modifies this
      ensures Valid() && Sessions(states) == Cleared(Sessions(old(states)), memoryKey)
    {
      Remove(KeyOr(memoryKey, "default"));
    }

    method Remove(key: string)
      requires Valid()
      modifies this
      ensures Valid() && states == map k | k in old(states) && k != key :: old(states)[k]
    {
      Fewer(states, key);
      states := map k | k in states && k != key :: states[k];
      BoundedWithin(cfg, Sessions(old(states)), Sessions(states));
    }

    method Snapshot(memoryKey: string, now: int) returns (view: View)
      requires Valid()
      modifies this
      ensures Valid()
      ensures var key := KeyOr(memoryKey, "default");
        if key in old(states) && !Expired(old(states)[key], now)
        then view == ViewInMemory(Sessions(old(states)), memoryKey) && states == old(states)
        else view == Fresh(memoryKey) && states == map k | k in old(states) && k != key :: old(states)[k]
    {
      var loaded := Load(memoryKey, now);
      if loaded.None? {
        return Fresh(memoryKey);
      }
      return loaded.value;
    }

    lemma Fewer(m: map<string, Entry>, key: string)
      ensures |map k | k in m && k != key :: m[k]| <= |m|
    {
      var m' := map k | k in m && k != key :: m[k];
      assert m'.Keys <= m.Keys;
      assert m.Keys == m'.Keys + (m.Keys - m'.Keys);
    }

    /** Stores a record and evicts if that was one too many. */
    method Write(key: string, session: Session, now: int)
      requires Valid() && key != "" && Bounded(cfg, session)
      modifies this
      ensures Valid()
      ensures Wrote(cfg.maxSessions, Times(old(states)), key, now, Times(states))
      ensures Within(Sessions(states), Sessions(old(states))[key := session])
    {
      states := states[key := Entry(session, now)];
      assert Times(states) == Times(old(states))[key := now];
      assert Times(states).Keys == states.Keys;
      assert Sessions(states) == Sessions(old(states))[key := session];
      EvictIfNeeded();
    }

    /** Removes the record with the oldest write, when there is one record too many. */
    method EvictIfNeeded()
      requires Normalised(cfg) && AllBounded(cfg, Sessions(states)) && |states| <= cfg.maxSessions + 1
      modifies this
      ensures Valid()
      ensures |old(states)| <= cfg.maxSessions ==> states == old(states)
      ensures |old(states)| > cfg.maxSessions ==> DropsOldest(Times(old(states)), Times(states))
      ensures forall k | k in states :: k in old(states) && states[k] == old(states)[k]
    {
      if |states| <= cfg.maxSessions {
        return;
      }
      var left := states.Keys;
      var oldest: string :| oldest in left;
      left := left - {oldest};
      while left != {}
        invariant left <= states.Keys && oldest in states
        invariant forall k | k in states && k !in left :: states[oldest].updatedAt <= states[k].updatedAt
        decreases |left|
      {
        var k: string :| k in left;
        if states[k].updatedAt < states[oldest].updatedAt {
          oldest := k;
        }
        left := left - {k};
      }
      states := map k | k in states && k != oldest :: states[k];
      assert states.Keys == old(states).Keys - {oldest};
      assert Drops(Times(old(states)), Times(states), oldest);
      BoundedWithin(cfg, Sessions(old(states)), Sessions(states));
    }
  }

  /** What Redis keeps: the marshalled record and the deadline of its key. */
  datatype Stored = Stored(session: Session, expires: int)

  /** `reachable` arguments say whether the client call gets through; the last outcome is kept in lastErr. */
  class RedisStore {
    const cfg: Config
    var values: map<string, Stored>
    var lastErr: bool

    constructor (maxSessions: int, maxRecentSteps: int, maxSummaryChars: int, sessionTtl: int)
      ensures values == map[] && !lastErr && cfg == Defaults(maxSessions, maxRecentSteps, maxSummaryChars, sessionTtl)
    {
      cfg := Defaults(maxSessions, maxRecentSteps, maxSummaryChars, sessionTtl);
      values := map[];
      lastErr := false;
    }

    /** The records that can still be read at a time. */
    ghost function Live(now: int): map<string, Session>
      reads this
    {
      map k | k in values && now <= values[k].expires :: values[k].session
    }

    method Load(memoryKey: string, now: int, reachable: bool) returns (r: Option<Session>)
      modifies this`lastErr
      ensures lastErr == !reachable
      ensures var key := KeyOr(memoryKey, "default");
        r == if reachable && key in Live(now) then Some(Normalize(cfg, Live(now)[key])) else None
    {
      var key := KeyOr(memoryKey, "default");
      if !reachable {
        lastErr := true;
        return None;
      }
      lastErr := false;
      if key !in values || values[key].expires < now {
        return None;
      }
      return Some(Normalize(cfg, values[key].session));
    }

    method Save(memoryKey: string, session: Session, now: int, reachable: bool)
      modifies this
      ensures lastErr == !reachable
      ensures Live(now) == if reachable then Saved(cfg, old(Live(now)), memoryKey, session) else old(Live(now))
    {
      var state := session;
      if state.sessionId == "" {
        state := state.(sessionId := "default");
      }
      var key := memoryKey;
      if key == "" {
        key := state.sessionId;
      }
      state := Normalize(cfg, state);
      if !reachable {
        lastErr := true;
        return;
      }
      values := values[key := Stored(state, now + cfg.sessionTtl)];
      lastErr := false;
    }

    /**
      A read that fails is taken for a missing record: the step is then written over whatever was there,
      and the successful write clears the error.
     */
    method AppendStep(memoryKey: string, step: StepRecord, now: int, readable: bool, writable: bool)
      modifies this
      ensures lastErr == !writable
      ensures !writable ==> Live(now) == old(Live(now))
      ensures readable && writable ==> Live(now) == AppendedInRedis(cfg, old(Live(now)), memoryKey, step)
      ensures !readable && writable ==>
        Live(now) == Saved(cfg, old(Live(now)), memoryKey, Fresh(memoryKey).(recentSteps := [step]))
    {
      var loaded := Load(memoryKey, now, readable);
      var key, state := memoryKey, Fresh(memoryKey);
      if loaded.Some? {
        key, state := KeyOr(memoryKey, "default"), loaded.value;
      }
      assert Fresh(memoryKey).recentSteps + [step] == [step];
      state := state.(recentSteps := state.recentSteps + [step]);
      Save(key, state, now, writable);
    }

    method ClearSession(memoryKey: string, now: int, reachable: bool)
      modifies this
      ensures lastErr == !reachable
      ensures Live(now) == if reachable then Cleared(old(Live(now)), memoryKey) else old(Live(now))
    {
      lastErr := !reachable;
      if reachable {
        values := map k | k in values && k != KeyOr(memoryKey, "default") :: values[k];
      }
    }

    method Snapshot(memoryKey: string, now: int, reachable: bool) returns (view: View)
      modifies this`lastErr
      ensures lastErr == !reachable
      ensures view == if reachable then ViewInRedis(cfg, Live(now), memoryKey) else Fresh(memoryKey)
    {
      var loaded := Load(memoryKey, now, reachable);
      if loaded.None? {
        return Fresh(memoryKey);
      }
      return loaded.value;
    }
  }
}
