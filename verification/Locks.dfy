/** Transaction advisory locks: canonical batches (src/core/db.ts), the lock order of the lifecycle code paths,
    and when that order rules out a wait cycle. PostgreSQL locks the 32-bit hash of a key, so the
    theorem is about keys and the slots they hash to. */
module Locks {
  import opened Base
  import opened Fences

  // ---------------------------------------------------------------------------------------------
  // The order on keys
  // ---------------------------------------------------------------------------------------------

  predicate LexLess(a: string, b: string) {
    if b == "" then false
    else if a == "" then true
    else if a[0] != b[0] then a[0] < b[0]
    else LexLess(a[1..], b[1..])
  }

  lemma {:induction false} LexIrreflexive(a: string)
    ensures !LexLess(a, a)
  {
    if a != "" {
      LexIrreflexive(a[1..]);
    }
  }

  lemma {:induction false} LexTransitive(a: string, b: string, c: string)
    requires LexLess(a, b) && LexLess(b, c)
    ensures LexLess(a, c)
  {
    if a != "" && a[0] == b[0] == c[0] {
      LexTransitive(a[1..], b[1..], c[1..]);
    }
  }

  lemma {:induction false} LexTotal(a: string, b: string)
    ensures a == b || LexLess(a, b) || LexLess(b, a)
  {
    if a != "" && b != "" && a[0] == b[0] {
      LexTotal(a[1..], b[1..]);
      assert a == [a[0]] + a[1..] && b == [b[0]] + b[1..];
    }
  }

  /** Credential keys come first, then revocation scopes, then offboarding scopes. */
  function Tier(k: string): nat {
    if k == "" then 0 else if k[0] == 'p' then 1 else if k[0] == 'o' then 2 else 0
  }

  /** The global order: tier first, then the string order that the source sorts a batch by. */
  predicate Less(a: string, b: string) {
    Tier(a) < Tier(b) || (Tier(a) == Tier(b) && LexLess(a, b))
  }

  lemma LessIsStrictTotal(a: string, b: string, c: string)
    ensures !Less(a, a)
    ensures Less(a, b) && Less(b, c) ==> Less(a, c)
    ensures a == b || Less(a, b) || Less(b, a)
    ensures !(Less(a, b) && Less(b, a))
  {
    hide LexLess;
    LexIrreflexive(a);
    LexTotal(a, b);
    if LexLess(a, b) && LexLess(b, c) {
      LexTransitive(a, b, c);
    }
    if LexLess(a, b) && LexLess(b, a) {
      LexTransitive(a, b, a);
    }
  }

  // ---------------------------------------------------------------------------------------------
  // Canonical batches
  // ---------------------------------------------------------------------------------------------

  function Insert(k: string, s: seq<string>): seq<string> {
    if s == [] then [k]
    else if k == s[0] then s
    else if LexLess(k, s[0]) then [k] + s
    else [s[0]] + Insert(k, s[1..])
  }

  /** `[...new Set(keys)].sort()`. */
  function Canonical(keys: seq<string>): seq<string> {
    if keys == [] then [] else Insert(keys[0], Canonical(keys[1..]))
  }

  ghost predicate StrictlySorted(s: seq<string>) {
    forall i, j :: 0 <= i < j < |s| ==> LexLess(s[i], s[j])
  }

  lemma {:induction false} InsertSorted(k: string, s: seq<string>)
    requires StrictlySorted(s)
    ensures StrictlySorted(Insert(k, s))
    ensures forall x :: x in Insert(k, s) <==> x == k || x in s
  {
    hide LexLess;
    if s != [] {
      var rest := s[1..];
      assert forall x :: x in s <==> x == s[0] || x in rest;
      if k != s[0] && !LexLess(k, s[0]) {
        InsertSorted(k, rest);
        LexTotal(k, s[0]);
        var r := Insert(k, rest);
        forall j | 0 <= j < |r| ensures LexLess(s[0], r[j]) {
          assert r[j] in r;
        }
      } else if LexLess(k, s[0]) {
        forall j | 0 <= j < |s| ensures LexLess(k, s[j]) {
          if j > 0 {
            LexTransitive(k, s[0], s[j]);
          }
        }
      }
    }
  }

  /** A canonical batch holds exactly the requested keys, once each, in string order. */
  lemma {:induction false} CanonicalExact(keys: seq<string>)
    ensures StrictlySorted(Canonical(keys))
    ensures forall x :: x in Canonical(keys) <==> x in keys
  {
    if keys != [] {
      CanonicalExact(keys[1..]);
      InsertSorted(keys[0], Canonical(keys[1..]));
      assert keys == [keys[0]] + keys[1..];
    }
  }

  /** So every caller that asks for the same keys, in whatever order and however often, locks the same
      sequence. */
  lemma CanonicalIsOrderFree(a: seq<string>, b: seq<string>)
    requires forall x :: x in a <==> x in b
    ensures Canonical(a) == Canonical(b)
  {
    CanonicalExact(a);
    CanonicalExact(b);
    hide Canonical;
    SortedUnique(Canonical(a), Canonical(b));
  }

  lemma {:induction false} SortedUnique(a: seq<string>, b: seq<string>)
    requires StrictlySorted(a) && StrictlySorted(b)
    requires forall x :: x in a <==> x in b
    ensures a == b
  {
    hide LexLess;
    assert (a == [] || a[0] in a) && (b == [] || b[0] in b);
    if a != [] {
      HeadIsLeast(a, b[0]);
      HeadIsLeast(b, a[0]);
      LessHeads(a[0], b[0]);
      forall x ensures x in a[1..] <==> x in b[1..] {
        LexIrreflexive(a[0]);
        assert x in a <==> x == a[0] || x in a[1..];
        assert x in b <==> x == b[0] || x in b[1..];
      }
      SortedUnique(a[1..], b[1..]);
      assert a == [a[0]] + a[1..] && b == [b[0]] + b[1..];
    }
  }

  lemma HeadIsLeast(s: seq<string>, x: string)
    requires StrictlySorted(s) && x in s
    ensures s[0] == x || LexLess(s[0], x)
  {
  }

  lemma LessHeads(a: string, b: string)
    ensures !(LexLess(a, b) && LexLess(b, a))
  {
    if LexLess(a, b) && LexLess(b, a) {
      LexTransitive(a, b, a);
      LexIrreflexive(a);
      assert false;
    }
  }

  // ---------------------------------------------------------------------------------------------
  // Transactions and their locks
  // ---------------------------------------------------------------------------------------------

  /** The slot that a key's lock occupies. */
  type Hash = string -> int

  datatype Tx = Tx(held: seq<string>, want: Option<string>)

  type System = map<nat, Tx>

  datatype Step = Begin(id: nat) | Request(id: nat, key: string) | Grant(id: nat) | End(id: nat)

  /** The discipline: a new key is above everything held, or is already held. */
  predicate Follows(held: seq<string>, k: string) {
    k in held || forall x :: x in held ==> Less(x, k)
  }

  predicate HoldsSlot(h: Hash, tx: Tx, slot: int) {
    exists k :: k in tx.held && h(k) == slot
  }

  predicate Free(h: Hash, s: System, id: nat, slot: int) {
    forall other :: other in s && other != id ==> !HoldsSlot(h, s[other], slot)
  }

  predicate Enabled(h: Hash, keys: set<string>, s: System, step: Step) {
    match step
    case Begin(id) => id !in s
    case Request(id, k) => id in s && s[id].want.None? && k in keys && Follows(s[id].held, k)
    case Grant(id) => id in s && s[id].want.Some? && Free(h, s, id, h(s[id].want.value))
    case End(id) => id in s
  }

  /** A transaction asks for one key at a time, is granted its slot once no other holds it, and at its commit or
      rollback releases everything. */
  function Exec(s: System, step: Step): System
    requires match step case Begin(_) => true case Grant(id) => id in s && s[id].want.Some? case _ => step.id in s
  {
    match step
    case Begin(id) => s[id := Tx([], None)]
    case Request(id, k) => s[id := s[id].(want := Some(k))]
    case Grant(id) => s[id := Tx(s[id].held + [s[id].want.value], None)]
    case End(id) => s - {id}
  }

  datatype Run = Run(states: seq<System>, steps: seq<Step>)

  ghost predicate StepOk(h: Hash, keys: set<string>, r: Run, i: nat)
    requires i < |r.steps| && |r.states| == |r.steps| + 1
  {
    Enabled(h, keys, r.states[i], r.steps[i]) && r.states[i + 1] == Exec(r.states[i], r.steps[i])
  }

  ghost predicate ValidRun(h: Hash, keys: set<string>, r: Run) {
    && |r.states| == |r.steps| + 1 && r.states[0] == map[]
    && forall i: nat :: i < |r.steps| ==> StepOk(h, keys, r, i)
  }

  ghost predicate Inv(h: Hash, keys: set<string>, s: System) {
    && (forall a, b, x, y :: a in s && b in s && a != b && x in s[a].held && y in s[b].held ==> h(x) != h(y))
    && (forall a, x :: a in s && x in s[a].held ==> x in keys)
    && (forall a :: a in s && s[a].want.Some? ==> s[a].want.value in keys && Follows(s[a].held, s[a].want.value))
  }

  lemma StepKeepsInv(h: Hash, keys: set<string>, s: System, step: Step)
    requires Inv(h, keys, s) && Enabled(h, keys, s, step)
    ensures Inv(h, keys, Exec(s, step))
  {
    hide Follows, Less;
    var s' := Exec(s, step);
    forall a, b, x, y | a in s' && b in s' && a != b && x in s'[a].held && y in s'[b].held ensures h(x) != h(y) {
      if step.Grant? {
        assert a != step.id ==> x in s[a].held && a in s;
        assert b != step.id ==> y in s[b].held && b in s;
      }
    }
  }

  lemma {:induction false} RunInv(h: Hash, keys: set<string>, r: Run, i: nat)
    requires ValidRun(h, keys, r) && i <= |r.steps|
    ensures Inv(h, keys, r.states[i])
  {
    hide Exec, Enabled;
    if i > 0 {
      RunInv(h, keys, r, i - 1);
      assert StepOk(h, keys, r, i - 1);
      StepKeepsInv(h, keys, r.states[i - 1], r.steps[i - 1]);
    }
  }

  // ---------------------------------------------------------------------------------------------
  // Wait cycles
  // ---------------------------------------------------------------------------------------------

  ghost predicate Waits(h: Hash, s: System, a: nat, b: nat) {
    a in s && b in s && a != b && s[a].want.Some? && HoldsSlot(h, s[b], h(s[a].want.value))
  }

  ghost predicate WaitCycle(h: Hash, s: System, c: seq<nat>) {
    && c != []
    && (forall i {:trigger c[i]} :: 0 <= i < |c| - 1 ==> Waits(h, s, c[i], c[i + 1]))
    && Waits(h, s, c[|c| - 1], c[0])
  }

  ghost predicate DeadlockFree(h: Hash, keys: set<string>) {
    forall r: Run, c: seq<nat> :: ValidRun(h, keys, r) ==> !WaitCycle(h, r.states[|r.steps|], c)
  }

  /** The keys that share a slot are an interval of the keys in use. Distinct slots are the usual case. */
  ghost predicate ConvexSlots(h: Hash, keys: set<string>) {
    forall x, y, z :: x in keys && y in keys && z in keys && Less(x, y) && Less(y, z) && h(x) == h(z) ==> h(y) == h(x)
  }

  ghost predicate InjectiveOn(h: Hash, keys: set<string>) {
    forall x, y :: x in keys && y in keys && h(x) == h(y) ==> x == y
  }

  lemma InjectiveIsConvex(h: Hash, keys: set<string>)
    requires InjectiveOn(h, keys)
    ensures ConvexSlots(h, keys)
  {
    hide Less;
    forall x, y, z ensures x in keys && y in keys && z in keys && Less(x, y) && Less(y, z) && h(x) == h(z) ==> h(y) == h(x) {
      LessIsStrictTotal(x, y, z);
    }
  }

  /** Different slots are ordered as wholes. */
  lemma SlotsAreOrdered(h: Hash, keys: set<string>, x: string, x': string, z: string)
    requires ConvexSlots(h, keys) && x in keys && x' in keys && z in keys
    requires h(x) == h(x') && h(z) != h(x) && Less(x, z)
    ensures Less(x', z)
  {
    hide Less;
    LessIsStrictTotal(x', z, x);
    assert Less(x, z) && Less(z, x') ==> h(z) == h(x);
  }

  /** Along a wait edge to a transaction that itself waits, the wanted key grows. */
  lemma WantsIncrease(h: Hash, keys: set<string>, s: System, a: nat, b: nat, d: nat)
    requires Inv(h, keys, s) && ConvexSlots(h, keys) && Waits(h, s, a, b) && Waits(h, s, b, d)
    ensures Less(s[a].want.value, s[b].want.value)
  {
    hide Less;
    var held :| held in s[b].held && h(held) == h(s[a].want.value);
    var other :| other in s[d].held && h(other) == h(s[b].want.value);
    assert h(held) != h(other);
    assert s[b].want.value !in s[b].held;
    SlotsAreOrdered(h, keys, held, s[a].want.value, s[b].want.value);
  }

  lemma {:induction false} WantsClimb(h: Hash, keys: set<string>, s: System, c: seq<nat>, i: nat)
    requires Inv(h, keys, s) && ConvexSlots(h, keys) && WaitCycle(h, s, c) && 0 < i < |c|
    ensures Less(s[c[0]].want.value, s[c[i]].want.value)
  {
    hide Inv, ConvexSlots, Less;
    var next := if i + 1 < |c| then c[i + 1] else c[0];
    assert Waits(h, s, c[i - 1], c[i]) && Waits(h, s, c[i], next);
    WantsIncrease(h, keys, s, c[i - 1], c[i], next);
    if i > 1 {
      WantsClimb(h, keys, s, c, i - 1);
      LessIsStrictTotal(s[c[0]].want.value, s[c[i - 1]].want.value, s[c[i]].want.value);
    }
  }

  lemma NoCycle(h: Hash, keys: set<string>, s: System, c: seq<nat>)
    requires Inv(h, keys, s) && ConvexSlots(h, keys)
    ensures !WaitCycle(h, s, c)
  {
    hide Inv, ConvexSlots, Less;
    if WaitCycle(h, s, c) {
      var n := |c|;
      assert n > 1;
      WantsClimb(h, keys, s, c, n - 1);
      WantsIncrease(h, keys, s, c[n - 1], c[0], c[1]);
      LessIsStrictTotal(s[c[0]].want.value, s[c[n - 1]].want.value, s[c[0]].want.value);
      assert false;
    }
  }

  /** Two transactions, each taking one canonical batch of two keys, that wait for each other: the lower key
      of one collides with the upper key of the other. */
  lemma CollisionDeadlocks(h: Hash, keys: set<string>, x: string, y: string, z: string) returns (r: Run)
    requires x in keys && y in keys && z in keys && Less(x, y) && Less(y, z) && h(x) == h(z) != h(y)
    ensures ValidRun(h, keys, r) && WaitCycle(h, r.states[|r.steps|], [0, 1])
  {
    hide Less;
    var s0: System := map[];
    var s1 := s0[0 := Tx([], None)];
    var s2 := s1[1 := Tx([], None)];
    var s3 := s2[0 := Tx([], Some(y))];
    var s4 := s3[0 := Tx([y], None)];
    var s5 := s4[1 := Tx([], Some(x))];
    var s6 := s5[1 := Tx([x], None)];
    var s7 := s6[0 := Tx([y], Some(z))];
    var s8 := s7[1 := Tx([x], Some(y))];
    var steps := [Begin(0), Begin(1), Request(0, y), Grant(0), Request(1, x), Grant(1), Request(0, z), Request(1, y)];
    r := Run([s0, s1, s2, s3, s4, s5, s6, s7, s8], steps);
    assert [] + [x] == [x] && [] + [y] == [y];
    forall i: nat | i < |steps| ensures StepOk(h, keys, r, i) {
    }
    assert x in s8[1].held && y in s8[0].held;
    assert Waits(h, s8, 0, 1) && Waits(h, s8, 1, 0);
  }

  /** The discipline prevents every wait cycle exactly when colliding keys are intervals of the order. In
      particular it does for an injective hash, and the latency-only reading of a collision does not
      hold in general. */
  lemma DeadlockFreeIff(h: Hash, keys: set<string>)
    ensures DeadlockFree(h, keys) <==> ConvexSlots(h, keys)
    ensures InjectiveOn(h, keys) ==> DeadlockFree(h, keys)
  {
    if ConvexSlots(h, keys) {
      forall r: Run, c: seq<nat> | ValidRun(h, keys, r) ensures !WaitCycle(h, r.states[|r.steps|], c) {
        RunInv(h, keys, r, |r.steps|);
        NoCycle(h, keys, r.states[|r.steps|], c);
      }
    } else {
      var x, y, z :| x in keys && y in keys && z in keys && Less(x, y) && Less(y, z) && h(x) == h(z) != h(y);
      var r := CollisionDeadlocks(h, keys, x, y, z);
    }
    if InjectiveOn(h, keys) {
      InjectiveIsConvex(h, keys);
    }
  }

  ghost predicate Grantable(h: Hash, s: System, id: nat) {
    id in s && s[id].want.Some? && Free(h, s, id, h(s[id].want.value))
  }

  lemma {:induction false} HighestWant(s: System, ids: set<nat>) returns (m: nat)
    requires ids != {} && forall a :: a in ids ==> a in s && s[a].want.Some?
    ensures m in ids && forall a :: a in ids ==> !Less(s[m].want.value, s[a].want.value)
    decreases ids
  {
    hide Less;
    var one :| one in ids;
    LessIsStrictTotal(s[one].want.value, s[one].want.value, s[one].want.value);
    if ids == {one} {
      m := one;
    } else {
      var best := HighestWant(s, ids - {one});
      m := if Less(s[best].want.value, s[one].want.value) then one else best;
      forall a | a in ids ensures !Less(s[m].want.value, s[a].want.value) {
        LessIsStrictTotal(s[best].want.value, s[one].want.value, s[a].want.value);
      }
    }
  }

  /** Progress: whenever every transaction waits, one of them can be granted. */
  lemma SomeoneProceeds(h: Hash, keys: set<string>, r: Run, i: nat)
    requires ValidRun(h, keys, r) && i <= |r.steps| && ConvexSlots(h, keys)
    requires r.states[i] != map[] && forall a :: a in r.states[i] ==> r.states[i][a].want.Some?
    ensures exists a :: Grantable(h, r.states[i], a)
  {
    hide Less, ConvexSlots;
    var s := r.states[i];
    RunInv(h, keys, r, i);
    var a := HighestWant(s, s.Keys);
    if !Grantable(h, s, a) {
      var b :| b in s && b != a && HoldsSlot(h, s[b], h(s[a].want.value));
      if !Grantable(h, s, b) {
        var d :| d in s && d != b && HoldsSlot(h, s[d], h(s[b].want.value));
        WantsIncrease(h, keys, s, a, b, d);
      }
    }
  }
}
