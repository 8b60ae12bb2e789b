/** Session ids, memory keys and the keys derived from store and review numbers: what each of them determines. */
module SessionScope {
  import opened Text

  datatype Scope = Scope(storeId: int, campaignId: string, scene: string, windowId: string)

  /** The two ReplaceAll calls. */
  function Dashed(s: string): (t: string)
    ensures |t| == |s| && forall i | 0 <= i < |s| :: t[i] == if s[i] == ':' || s[i] == ' ' then '-' else s[i]
  {
    seq(|s|, i requires 0 <= i < |s| => if s[i] == ':' || s[i] == ' ' then '-' else s[i])
  }

  function Sanitize(value: string): string {
    var t := Dashed(Trim(value));
    if t == "" then "default" else t
  }

  function SanitizeOptional(value: string): string {
    if Trim(value) == "" then "" else Sanitize(Trim(value))
  }

  /** The store, the kind of scope, its name and the window, as they appear between colons. */
  function Parts(s: Scope): seq<string> {
    var campaign := SanitizeOptional(s.campaignId);
    var scene := SanitizeOptional(s.scene);
    if campaign != "" then ["store", Decimal(s.storeId), "campaign", campaign, "window", Sanitize(s.windowId)]
    else ["store", Decimal(s.storeId), "scene", if scene == "" then "daily_review_coupon" else scene, "window", Sanitize(s.windowId)]
  }

  /** BuildScopedSessionID; without a store the job layer falls back to a session of its own. */
  function BuildSessionId(s: Scope): string {
    if s.storeId <= 0 then "job" else Join(Parts(s), ":")
  }

  /** executionScopeID */
  function MemoryKey(sessionId: string, executionId: string): string {
    if Trim(executionId) == "" then Trim(sessionId) else Trim(sessionId) + ":execution:" + Trim(executionId)
  }

  // ---- Splitting at colons -------------------------------------------------------------------

  function Split(s: string): (parts: seq<string>)
    ensures parts != []
  {
    if s == "" then [""] else
    var rest := Split(s[1..]);
    if s[0] == ':' then [""] + rest else [[s[0]] + rest[0]] + rest[1..]
  }

  predicate ColonFree(s: string) {
    ':' !in s
  }

  lemma {:induction false} SplitFirst(a: string, b: string)
    requires ColonFree(a)
    ensures Split(a) == [a]
    ensures Split(a + ":" + b) == [a] + Split(b)
  {
    if a == "" {
      assert (a + ":" + b)[1..] == b;
    } else {
      SplitFirst(a[1..], b);
      assert (a + ":" + b)[1..] == a[1..] + ":" + b;
      assert [a[0]] + a[1..] == a;
    }
  }

  /** Joining colon-free parts loses nothing. */
  lemma {:induction false} SplitJoin(parts: seq<string>)
    requires parts != [] && forall p | p in parts :: ColonFree(p)
    ensures Split(Join(parts, ":")) == parts
    decreases |parts|
  {
    hide Split;
    if |parts| == 1 {
      SplitFirst(parts[0], "");
    } else {
      SplitJoin(parts[1..]);
      SplitFirst(parts[0], Join(parts[1..], ":"));
      assert parts == [parts[0]] + parts[1..];
    }
  }

  /** Nor does it lose anything of what follows. */
  lemma {:induction false} SplitJoinThen(parts: seq<string>, rest: string)
    requires parts != [] && forall p | p in parts :: ColonFree(p)
    ensures Split(Join(parts, ":") + ":" + rest) == parts + Split(rest)
    decreases |parts|
  {
    hide Split;
    if |parts| == 1 {
      SplitFirst(parts[0], rest);
      assert parts == [parts[0]];
    } else {
      var more := Join(parts[1..], ":") + ":" + rest;
      SplitJoinThen(parts[1..], rest);
      SplitFirst(parts[0], more);
      assert Join(parts, ":") + ":" + rest == parts[0] + ":" + more;
      assert [parts[0]] + (parts[1..] + Split(rest)) == ([parts[0]] + parts[1..]) + Split(rest);
      assert parts == [parts[0]] + parts[1..];
    }
  }

  // ---- Sanitising ----------------------------------------------------------------------------

  lemma SanitizeFacts(value: string)
    ensures ColonFree(Sanitize(value)) && Sanitize(value) != "" && IsTrimmed(Sanitize(value))
    ensures forall c | c in Sanitize(value) :: c != ' '
  {
    TrimFacts(value);
  }

  lemma SanitizeIdempotent(value: string)
    ensures Sanitize(Sanitize(value)) == Sanitize(value)
  {
    SanitizeFacts(value);
    TrimFacts(Sanitize(value));
    assert Dashed(Sanitize(value)) == Sanitize(value);
  }

  lemma PartsFacts(s: Scope)
    requires s.storeId > 0
    ensures |Parts(s)| == 6 && forall p | p in Parts(s) :: ColonFree(p)
    ensures IsTrimmed(Join(Parts(s), ":"))
  {
    SanitizeFacts(s.windowId);
    SanitizeFacts(Trim(s.campaignId));
    SanitizeFacts(Trim(s.scene));
    DecimalColonFree(s.storeId);
    hide Sanitize, Trim, Decimal, Join;
    var p := Parts(s);
    assert ColonFree(p[0]) && ColonFree(p[1]) && ColonFree(p[2]) && ColonFree(p[3]) && ColonFree(p[4]) && ColonFree(p[5]);
    EndsOfJoin(p);
  }

  lemma {:induction false} EndsOfJoin(parts: seq<string>)
    requires parts != [] && parts[0] != "" && parts[|parts| - 1] != ""
    ensures Join(parts, ":") != "" && Join(parts, ":")[0] == parts[0][0]
    ensures var last := parts[|parts| - 1]; Join(parts, ":")[|Join(parts, ":")| - 1] == last[|last| - 1]
    decreases |parts|
  {
    if |parts| > 1 {
      if parts[1] == "" { TailOfJoin(parts[1..]); } else { EndsOfJoin(parts[1..]); }
    }
  }

  lemma {:induction false} TailOfJoin(parts: seq<string>)
    requires parts != [] && parts[|parts| - 1] != ""
    ensures var last := parts[|parts| - 1]; Join(parts, ":") != "" && Join(parts, ":")[|Join(parts, ":")| - 1] == last[|last| - 1]
    decreases |parts|
  {
    if |parts| > 1 { TailOfJoin(parts[1..]); }
  }

  /** A session id with a store determines the store, whether it is a campaign or a scene, and the sanitised parts. */
  lemma SessionIdDetermines(a: Scope, b: Scope)
    requires a.storeId > 0 && b.storeId > 0
    ensures BuildSessionId(a) == BuildSessionId(b) <==> a.storeId == b.storeId && Parts(a) == Parts(b)
  {
    PartsFacts(a);
    PartsFacts(b);
    SplitJoin(Parts(a));
    SplitJoin(Parts(b));
    if Parts(a) == Parts(b) {
      assert Parts(a)[1] == Parts(b)[1];
      DecimalInjective(a.storeId, b.storeId);
    }
  }

  /** Executions under scoped sessions share a memory key only when they are the same. */
  lemma MemoryKeysAreDistinct(a: Scope, b: Scope, e: string, f: string)
    requires a.storeId > 0 && b.storeId > 0
    ensures MemoryKey(BuildSessionId(a), e) == MemoryKey(BuildSessionId(b), f) <==> BuildSessionId(a) == BuildSessionId(b) && Trim(e) == Trim(f)
  {
    PartsFacts(a);
    PartsFacts(b);
    TrimFacts(BuildSessionId(a));
    TrimFacts(BuildSessionId(b));
    hide Parts, Trim, IsTrimmed;
    var s, t, x, y := BuildSessionId(a), BuildSessionId(b), Trim(e), Trim(f);
    if MemoryKey(s, e) == MemoryKey(t, f) {
      KeyFields(Parts(a), x);
      KeyFields(Parts(b), y);
      assert Split(MemoryKey(s, e))[..6] == Parts(a);
      assert Split(MemoryKey(t, f))[..6] == Parts(b);
      if x != "" && y != "" {
        SameTail(s + ":execution:", x, y);
      }
    }
  }

  lemma KeyFields(parts: seq<string>, x: string)
    requires |parts| == 6 && forall p | p in parts :: ColonFree(p)
    ensures Split(Join(parts, ":")) == parts
    ensures |Split(Join(parts, ":") + ":execution:" + x)| > 6 && Split(Join(parts, ":") + ":execution:" + x)[..6] == parts
  {
    SplitJoin(parts);
    SplitJoinThen(parts, "execution:" + x);
    hide Split, Join;
    var joined := Join(parts, ":");
    assert ":execution:" + x == ":" + ("execution:" + x);
    assert joined + ":execution:" + x == joined + (":execution:" + x);
    assert joined + ":" + ("execution:" + x) == joined + (":" + ("execution:" + x));
  }

  lemma SameTail(head: string, x: string, y: string)
    requires head + x == head + y
    ensures x == y
  {
    assert x == (head + x)[|head|..] == (head + y)[|head|..] == y;
  }

  // ---- Session ids a caller makes up ---------------------------------------------------------

  function Joint(s: string, e: string): string {
    s + ":execution:" + e
  }

  /** A shorter id ends at n, and what follows is the marker of an execution, at the very end or before more text. */
  ghost predicate NestedAt(s: string, n: nat) {
    && 0 < n <= |s| && !IsSpace(s[n - 1])
    && (s[n..] == ":execution" || (":execution:" <= s[n..] && (|s| == n + 11 || !IsSpace(s[n + 11]))))
  }

  ghost predicate Nested(s: string) {
    exists n :: NestedAt(s, n)
  }

  /** An execution of one session shares its memory with one of a shorter session. */
  ghost predicate Collides(s: string, t: string, e: string, f: string) {
    && Trim(t) != "" && |Trim(t)| < |Trim(s)| && Trim(e) != "" && Trim(f) != ""
    && MemoryKey(s, e) == MemoryKey(t, f)
  }

  /**
    A caller may send any session id. Its memory keys collide with those of some shorter session id
    exactly when, once trimmed, it is nested under one.
   */
  lemma CollidesIffNested(s: string)
    requires Trim(s) != ""
    ensures Nested(Trim(s)) <==> exists t, e, f :: Collides(s, t, e, f)
  {
    var u := Trim(s);
    TrimFacts(s);
    if Nested(u) {
      var n :| NestedAt(u, n);
      NestedCollides(s, u, n);
    }
    if exists t, e, f :: Collides(s, t, e, f) {
      var t, e, f :| Collides(s, t, e, f);
      TrimFacts(t);
      TrimFacts(f);
      hide Trim;
      CollisionNests(u, Trim(t), Trim(e), Trim(f));
    }
  }

  lemma NestedCollides(s: string, u: string, n: nat)
    requires u == Trim(s) != "" && IsTrimmed(u) && NestedAt(u, n)
    ensures exists t, e, f :: Collides(s, t, e, f)
  {
    var t, rest := u[..n], u[n..];
    var f := if |rest| == 10 then "execution:x" else rest[11..] + ":execution:x";
    NestedText(u, n, rest, f);
    assert IsTrimmed(t) && t[0] == u[0] && t[n - 1] == u[n - 1];
    assert IsTrimmed("x");
    TrimFacts(t);
    TrimFacts(f);
    TrimFacts("x");
    hide Trim;
    assert Collides(s, t, "x", f);
  }

  lemma NestedText(u: string, n: nat, rest: string, f: string)
    requires NestedAt(u, n) && rest == u[n..]
    requires f == if |rest| == 10 then "execution:x" else rest[11..] + ":execution:x"
    ensures IsTrimmed(f) && f != "" && Joint(u, "x") == Joint(u[..n], f)
  {
    assert f[|f| - 1] == 'x';
    if |rest| > 11 { assert f[0] == rest[11] == u[n + 11]; }
    assert u == u[..n] + rest;
    assert rest + (":execution:" + "x") == ":execution:" + f;
    Regroup(u[..n], rest, ":execution:", "x");
    Regroup(u[..n], "", ":execution:", f);
  }

  lemma Regroup(a: string, b: string, c: string, d: string)
    ensures (a + b) + c + d == a + (b + (c + d))
  {
  }

  lemma CollisionNests(s: string, t: string, e: string, f: string)
    requires t != "" && |t| < |s| && IsTrimmed(t) && IsTrimmed(f) && Joint(s, e) == Joint(t, f)
    ensures Nested(s)
  {
    var all, n, d := Joint(s, e), |t|, |s| - |t|;
    var marker := ":execution:";
    assert all[n..] == marker + f && all[..|s|] == s && all[..n] == t;
    assert s[n - 1] == all[n - 1] == t[n - 1];
    assert s[n..] == all[n..|s|] == (marker + f)[..d];
    if d < 11 {
      assert all[|s|] == ':';
      assert all[|s|] == all[n..][d] == marker[d];
      assert d == 10;
      assert s[n..] == marker[..10] == ":execution";
    } else {
      assert s[n..][..11] == marker;
      if d > 11 { assert s[n + 11] == s[n..][11] == f[0]; }
    }
    assert NestedAt(s, n);
  }

  // ---- Keys of a store's review --------------------------------------------------------------

  /** reviewExecutionKey, the decision lock key and the decision id share this shape. */
  function ReviewKey(prefix: string, storeId: int, reviewId: int): string {
    prefix + "store:" + Decimal(storeId) + ":review:" + Decimal(reviewId)
  }

  /** BuildReviewCouponGrantIdempotencyKey */
  function GrantKey(reviewId: int, storeId: int): string {
    ReviewKey("review:", storeId, reviewId)
  }

  lemma DecimalColonFree(n: int)
    ensures ColonFree(Decimal(n))
  {
  }

  /** Distinct (store, review) pairs never share a key. */
  lemma ReviewKeyInjective(prefix: string, s: int, r: int, s': int, r': int)
    requires ReviewKey(prefix, s, r) == ReviewKey(prefix, s', r')
    ensures s == s' && r == r'
  {
    DecimalColonFree(s);
    DecimalColonFree(s');
    SplitFirst(Decimal(s), "review:" + Decimal(r));
    SplitFirst(Decimal(s'), "review:" + Decimal(r'));
    hide Decimal, Split;
    KeyTail(prefix, Decimal(s), Decimal(r), Decimal(s'), Decimal(r'));
    assert [Decimal(s)] + Split("review:" + Decimal(r)) == [Decimal(s')] + Split("review:" + Decimal(r'));
    assert Decimal(s) == ([Decimal(s)] + Split("review:" + Decimal(r)))[0] == Decimal(s');
    SameTail(prefix + "store:" + Decimal(s) + ":review:", Decimal(r), Decimal(r'));
    DecimalInjective(s, s');
    DecimalInjective(r, r');
  }

  lemma KeyTail(prefix: string, s: string, r: string, s': string, r': string)
    requires prefix + "store:" + s + ":review:" + r == prefix + "store:" + s' + ":review:" + r'
    ensures s + ":" + ("review:" + r) == s' + ":" + ("review:" + r')
  {
    var head := prefix + "store:";
    assert prefix + "store:" + s + ":review:" + r == head + (s + ":" + ("review:" + r));
    assert prefix + "store:" + s' + ":review:" + r' == head + (s' + ":" + ("review:" + r'));
    SameTail(head, s + ":" + ("review:" + r), s' + ":" + ("review:" + r'));
  }
}
