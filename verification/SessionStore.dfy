/** `beginWorkerSession` statement by statement (src/core/delegation.ts). Its read, its credential lookup and
    its upsert are not one transaction, so other replicas commit between any two of them. */
module SessionStore {
  import opened Base
  import opened Fences
  import opened ActionKey
  import opened ApprovalModel
  import opened ApprovalInvariant
  import opened ApprovalRuns
  import opened ApprovalTheorems
  import opened SessionTheorems

  // ---------------------------------------------------------------------------------------------
  // What other replicas may do between two statements
  // ---------------------------------------------------------------------------------------------

  /** A session keeps its binding for as long as it keeps its id. */
  ghost predicate SessionsFollow(a: Tables, b: Tables) {
    && (forall s :: s in a.sessions && s in b.sessions && b.sessions[s].id == a.sessions[s].id && a.sessions[s].binding.Some? ==>
         b.sessions[s].binding == a.sessions[s].binding)
    && (forall s :: s in b.sessions && b.sessions[s].id in a.minted ==> s in a.sessions && a.sessions[s].id == b.sessions[s].id)
  }

  /** And a generation that is not live never becomes live. */
  ghost predicate Interleaves(a: Tables, b: Tables) {
    && Grows(a, b) && SessionsFollow(a, b)
    && (forall o :: o in b.live && b.live[o] in a.minted ==> o in a.live && a.live[o] == b.live[o])
  }

  /** Every transaction of the machine is such an interference. */
  lemma StepInterleaves(cfg: Config, t: Tables, op: Op)
    requires Inv(cfg, t) && Enabled(t, op)
    ensures Interleaves(t, Apply(cfg, t, op).0)
  {
    hide Inv, Apply, SessionsFollow;
    StepGrows(cfg, t, op);
    StepSessionsFollow(cfg, t, op);
    var t' := Apply(cfg, t, op).0;
    forall o | o in t'.live && t'.live[o] in t.minted ensures o in t.live && t.live[o] == t'.live[o] {
      StepLive(cfg, t, op, o.0, o.1);
    }
  }

  lemma StepSessionsFollow(cfg: Config, t: Tables, op: Op)
    requires Inv(cfg, t) && Enabled(t, op)
    ensures SessionsFollow(t, Apply(cfg, t, op).0)
  {
    hide Apply, Inv, KeepsBindings, SessionsFollow;
    SessionsAfter(cfg, t, op);
    SessionIdsMinted(cfg, t);
    var t' := Apply(cfg, t, op).0;
    if op.DecideOp? || op.ConsumeOp? {
      KeptFollow(t, t');
    } else {
      OthersFollow(t, op, t');
    }
  }

  lemma OthersFollow(t: Tables, op: Op, t': Tables)
    requires (forall s :: s in t.sessions ==> t.sessions[s].id in t.minted) && Enabled(t, op)
    requires match op
      case BeginSessionOp(s, newId) => t'.sessions == BeginSession(t, s, newId).sessions
      case RevokeForUser(i) => t'.sessions == SessionsWithoutUser(t.sessions, i)
      case Sweep => t'.sessions == LiveSessions(t.sessions, t.now)
      case _ => t'.sessions == t.sessions
    ensures SessionsFollow(t, t')
  {
    hide SessionUsable, NormalKey;
  }

  lemma KeptFollow(t: Tables, t': Tables)
    requires KeepsBindings(t.sessions, t'.sessions)
    ensures SessionsFollow(t, t')
  {
    assert forall s :: s in t'.sessions ==> s in t.sessions.Keys;
  }

  lemma InterleavesTransitive(a: Tables, b: Tables, c: Tables)
    requires Interleaves(a, b) && Interleaves(b, c) && forall s :: s in a.sessions ==> a.sessions[s].id in a.minted
    ensures Interleaves(a, c)
  {
    forall s | s in a.sessions && s in c.sessions && c.sessions[s].id == a.sessions[s].id
      ensures s in b.sessions && b.sessions[s].id == a.sessions[s].id
    {
      assert c.sessions[s].id in b.minted;
    }
  }

  /** The tables as each statement of one call finds them. */
  ghost predicate Schedule(cfg: Config, found: seq<Tables>) {
    && (forall i :: 0 <= i < |found| ==> Inv(cfg, found[i]))
    && (forall i {:trigger found[i]} :: 0 <= i < |found| - 1 ==> Interleaves(found[i], found[i + 1]))
  }

  lemma {:induction false} ScheduleInterleaves(cfg: Config, found: seq<Tables>, i: nat, j: nat)
    requires Schedule(cfg, found) && i < j < |found|
    ensures Interleaves(found[i], found[j])
    decreases j
  {
    hide Interleaves;
    assert found[j - 1] == found[j - 1];
    if i < j - 1 {
      ScheduleInterleaves(cfg, found, i, j - 1);
      SessionIdsMinted(cfg, found[i]);
      InterleavesTransitive(found[i], found[j - 1], found[j]);
    }
  }

  lemma SessionIdsMinted(cfg: Config, t: Tables)
    requires Inv(cfg, t)
    ensures forall s :: s in t.sessions ==> t.sessions[s].id in t.minted
  {
    forall s | s in t.sessions ensures t.sessions[s].id in t.minted {
      assert SessionFits(t, s, t.sessions[s]);
    }
  }

  // ---------------------------------------------------------------------------------------------
  // The three statements of an attempt
  // ---------------------------------------------------------------------------------------------

  /** No member is bound, or the bound one holds exactly the bound generation (`liveCredential`). */
  predicate HoldsBound(live: map<(Owner, string), Id>, s: SessionScope, w: Session) {
    w.binding.Some? ==> Lookup(live, (Owner(s.team, UserOwned, w.binding.value.member), s.provider)) == Some(w.binding.value.credential)
  }

  /** A session read and then found to hold its credential was usable when it was read. */
  lemma ReadWasUsable(cfg: Config, a: Tables, b: Tables, s: SessionScope)
    requires Inv(cfg, a) && Interleaves(a, b) && SessionFor(a, s).Some? && HoldsBound(b.live, s, a.sessions[s])
    ensures SessionUsable(a, s)
  {
    hide RowsFit;
    assert SessionFits(a, s, a.sessions[s]);
  }

  /** A session that was read, found dead and then replaced by the id that was read is still dead. */
  lemma ReplacedWasDead(cfg: Config, a: Tables, b: Tables, c: Tables, s: SessionScope)
    requires Inv(cfg, a) && Inv(cfg, b) && Interleaves(a, b) && Interleaves(b, c) && Interleaves(a, c)
    requires SessionFor(a, s).Some? && !HoldsBound(b.live, s, a.sessions[s])
    requires s in c.sessions && c.sessions[s].id == a.sessions[s].id
    ensures !SessionUsable(c, s)
  {
    hide RowsFit;
    assert SessionFits(a, s, a.sessions[s]);
    var bound := a.sessions[s].binding.value;
    assert bound.credential in b.minted;
  }

  /** So when the upsert's condition holds, the upsert is an atomic begin. */
  lemma UpsertIsBegin(cfg: Config, a: Tables, b: Tables, c: Tables, s: SessionScope, newId: Id)
    requires Inv(cfg, a) && Inv(cfg, b) && Interleaves(a, b) && Interleaves(b, c) && Interleaves(a, c)
    requires SessionFor(a, s).Some? ==> !HoldsBound(b.live, s, a.sessions[s])
    requires s !in c.sessions || c.sessions[s].expiresAt <= c.now || (SessionFor(a, s).Some? && c.sessions[s].id == a.sessions[s].id)
    ensures !SessionUsable(c, s)
    ensures BeginSession(c, s, newId) ==
      c.(sessions := c.sessions[s := Session(newId, None, c.now + SESSION_IDLE_TTL)], minted := c.minted[newId := ForSession])
  {
    if s in c.sessions && c.sessions[s].expiresAt > c.now {
      ReplacedWasDead(cfg, a, b, c, s);
    }
    hide Inv, Interleaves;
  }

  /** Another replica began this scope's session between the read and the upsert: the one live reason to try again. */
  ghost predicate Replaced(a: Tables, c: Tables, s: SessionScope) {
    && s in c.sessions && c.sessions[s].expiresAt > c.now
    && !(s in a.sessions && a.sessions[s].expiresAt > a.now && a.sessions[s].id == c.sessions[s].id)
  }

  lemma OthersReplaced(a: Tables, c: Tables, s: SessionScope)
    requires s in c.sessions && c.sessions[s].expiresAt > c.now
    requires SessionFor(a, s).Some? ==> c.sessions[s].id != a.sessions[s].id
    ensures Replaced(a, c, s)
  {
  }

  class SessionTables {
    const cfg: Config
    var now: int
    var minted: map<Id, Mint>
    var sessions: map<SessionScope, Session>
    var live: map<(Owner, string), Id>

    constructor (cfg: Config, t: Tables)
      ensures this.cfg == cfg && Sees(t)
    {
      this.cfg := cfg;
      now, minted, sessions, live := t.now, t.minted, t.sessions, t.live;
    }

    ghost predicate Sees(t: Tables)
      reads this
    {
      now == t.now && minted == t.minted && sessions == t.sessions && live == t.live
    }

    /** Other replicas commit. */
    method Advance(t: Tables)
      modifies this
      ensures Sees(t)
    {
      now, minted, sessions, live := t.now, t.minted, t.sessions, t.live;
    }

    /** One attempt: read the session, look up its credential, upsert if the row lapsed or is the one read. */
    method Attempt(s: SessionScope, newId: Id, a: Tables, b: Tables, c: Tables) returns (w: Option<Session>, ghost asRead: bool)
      requires Inv(cfg, a) && Inv(cfg, b) && Interleaves(a, b) && Interleaves(b, c) && Interleaves(a, c)
      modifies this
      ensures w.None? ==> Sees(c) && Replaced(a, c, s)
      ensures w.Some? && asRead ==> SessionUsable(a, s) && w.value == a.sessions[s] && Sees(b)
      ensures w.Some? && !asRead ==>
        !SessionUsable(c, s) && w.value == Session(newId, None, c.now + SESSION_IDLE_TTL) && Sees(BeginSession(c, s, newId))
    {
      hide Inv, Interleaves, SessionUsable, BeginSession, HoldsBound, Replaced;
      Advance(a);
      var current := if s in sessions && sessions[s].expiresAt > now then Some(sessions[s]) else None;
      asRead := current.Some? && HoldsBound(b.live, s, current.value);
      Advance(b);
      if current.Some? && HoldsBound(live, s, current.value) {
        ReadWasUsable(cfg, a, b, s);
        return current, asRead;
      }
      Advance(c);
      w := Upsert(s, newId, current);
      if w.Some? {
        UpsertIsBegin(cfg, a, b, c, s, newId);
      } else {
        OthersReplaced(a, c, s);
      }
      return w, false;
    }

    /** INSERT ... ON CONFLICT DO UPDATE ... WHERE the stored session lapsed or is the one that was read. */
    method Upsert(s: SessionScope, newId: Id, current: Option<Session>) returns (w: Option<Session>)
      modifies this`sessions, this`minted
      ensures w.Some? <==> s !in old(sessions) || old(sessions)[s].expiresAt <= now || (current.Some? && old(sessions)[s].id == current.value.id)
      ensures w.Some? ==> (
        && w.value == Session(newId, None, now + SESSION_IDLE_TTL)
        && sessions == old(sessions)[s := w.value] && minted == old(minted)[newId := ForSession])
      ensures w.None? ==> sessions == old(sessions) && minted == old(minted)
    {
      if s !in sessions || sessions[s].expiresAt <= now || (current.Some? && sessions[s].id == current.value.id) {
        w := Some(Session(newId, None, now + SESSION_IDLE_TTL));
        sessions := sessions[s := w.value];
        minted := minted[newId := ForSession];
        return w;
      }
      return None;
    }

    /** Up to three attempts against whatever each statement finds. A returned session was usable at one instant
        of the call, and whatever the call wrote is one atomic begin at its last statement: a stale read
        never overwrites a session that is live with its credential current. */
    method BeginWorkerSession(s: SessionScope, newIds: seq<Id>, found: seq<Tables>) returns (w: Option<Session>, ghost at: nat)
      requires |found| == 9 && Schedule(cfg, found) && |newIds| == 3
      modifies this
      ensures at < 9 && (w.None? ==> Sees(found[8]) && forall a :: 0 <= a < 3 ==> Replaced(found[3 * a], found[3 * a + 2], s))
      ensures w.Some? ==> Began(found, at, s, newIds, w.value)
      ensures w.Some? ==> if SessionUsable(found[at], s) then at < 8 && Sees(found[at + 1])
        else exists a :: 0 <= a < 3 && Sees(BeginSession(found[at], s, newIds[a]))
    {
      hide SessionUsable, BeginSession, Sees, Inv, Interleaves, Replaced;
      var attempt := 0;
      while attempt < 3
        invariant 0 <= attempt <= 3
        invariant attempt == 3 ==> Sees(found[8])
        invariant forall a :: 0 <= a < attempt ==> Replaced(found[3 * a], found[3 * a + 2], s)
      {
        var i := 3 * attempt;
        ScheduleInterleaves(cfg, found, i, i + 1);
        ScheduleInterleaves(cfg, found, i, i + 2);
        ScheduleInterleaves(cfg, found, i + 1, i + 2);
        ghost var asRead;
        w, asRead := Attempt(s, newIds[attempt], found[i], found[i + 1], found[i + 2]);
        if w.Some? {
          at := if asRead then i else i + 2;
          BeganEitherWay(found, at, s, newIds, attempt, w.value);
          return w, at;
        }
        attempt := attempt + 1;
      }
      return None, 8;
    }
  }

  /** The session is what an atomic begin at that statement would have returned. */
  ghost predicate Began(found: seq<Tables>, at: nat, s: SessionScope, newIds: seq<Id>, w: Session) {
    at < |found| && exists a :: 0 <= a < |newIds| && IsBegun(BeginSession(found[at], s, newIds[a]), s, w)
  }

  ghost predicate IsBegun(t: Tables, s: SessionScope, w: Session) {
    s in t.sessions && t.sessions[s] == w && SessionUsable(t, s)
  }

  lemma BeganEitherWay(found: seq<Tables>, at: nat, s: SessionScope, newIds: seq<Id>, a: nat, w: Session)
    requires at < |found| && a < |newIds|
    requires if SessionUsable(found[at], s) then w == found[at].sessions[s]
      else w == Session(newIds[a], None, found[at].now + SESSION_IDLE_TTL)
    ensures Began(found, at, s, newIds, w)
  {
    assert IsBegun(BeginSession(found[at], s, newIds[a]), s, w);
  }
}
