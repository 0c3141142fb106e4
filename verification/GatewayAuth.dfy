/**
  One-use activation tickets behind a single-writer store.

  Activation references are random in the program and are taken to be fresh here: the n-th ticket has reference n.
*/
module GatewayAuth {
  import opened Wrappers

  const PURPOSE := "pd_observation"
  const OWNERSHIP_MODE := "user_owned_session"
  const IDLE_TTL := 90.0
  const GRACE := 60.0

  datatype TicketStatus = Issued | Consumed | Expired | Revoked

  datatype AssociationState = PendingActivation | Observing | Reconnecting | Stale | Ended | Detached | Rejected

  datatype Binding = Binding(observer: string, owner: string, profile: string, workspace: string, session: string, association: string)

  datatype OpKey = OpKey(activation: nat, observer: string, association: string, purpose: string)

  datatype Ticket = Ticket(binding: Binding, expiresAt: real, purpose: string, ownershipMode: string, status: TicketStatus,
                           consumedAt: Option<real>, revokedAt: Option<real>, consumedKey: Option<OpKey>)

  datatype Presentation = Presentation(activation: nat, binding: Binding, purpose: string)

  datatype BoundedResult = BoundedResult(association: string, ownershipMode: string, status: AssociationState)

  datatype Association = Association(state: AssociationState, createdAt: real, lastHeartbeatAt: real)

  datatype Reason = Unknown | CapabilityDenied | ActivationInvalid | ActivationExpired | ForeignOwner | BindingMismatch | Replayed

  datatype Reply = Activated(result: BoundedResult) | Denied(reason: Reason)

  datatype State = State(
    minted: nat,
    tickets: map<nat, Ticket>,
    associations: map<string, Association>,
    idempotency: map<OpKey, BoundedResult>,
    audit: seq<(nat, Reason)>)

  datatype Step =
    | Issue(binding: Binding, now: real, ttl: real)
    | Revoke(activation: nat, now: real)
    | Consume(presentation: Presentation, now: real)
    | Touch(association: string, now: real)
    | Evaluate(association: string, now: real)
    | Move(association: string, target: AssociationState)

  const INITIAL := State(0, map[], map[], map[], [])

  /** The legal edges between association states. */
  predicate Edge(from: AssociationState, to: AssociationState) {
    match from
    case PendingActivation => to == Observing || to == Rejected
    case Observing => to == Reconnecting || to == Ended || to == Detached
    case Reconnecting => to == Stale || to == Detached
    case Stale => to == PendingActivation
    case _ => false
  }

  function KeyFor(p: Presentation): OpKey {
    OpKey(p.activation, p.binding.observer, p.binding.association, p.purpose)
  }

  // ----- tickets

  function DoIssue(s: State, b: Binding, now: real, ttl: real): State {
    s.(minted := s.minted + 1,
       tickets := s.tickets[s.minted := Ticket(b, now + ttl, PURPOSE, OWNERSHIP_MODE, Issued, None, None, None)])
  }

  function DoRevoke(s: State, activation: nat, now: real): State {
    if activation !in s.tickets || s.tickets[activation].status != Issued then s
    else s.(tickets := s.tickets[activation := s.tickets[activation].(status := Revoked, revokedAt := Some(now))])
  }

  function Deny(s: State, activation: nat, reason: Reason): (State, Reply) {
    (s.(audit := s.audit + [(activation, reason)]), Denied(reason))
  }

  predicate Lapsed(t: Ticket, now: real) {
    t.status == Expired || (t.status == Issued && now > t.expiresAt)
  }

  /** The one atomic consume transaction, for any operation key. */
  function Transact(s: State, p: Presentation, key: OpKey, now: real): (State, Reply) {
    var ref := p.activation;
    if ref !in s.tickets then Deny(s, ref, Unknown)
    else
      var t := s.tickets[ref];
      if t.purpose != p.purpose then Deny(s, ref, CapabilityDenied)
      else if t.status == Revoked then Deny(s, ref, ActivationInvalid)
      else if Lapsed(t, now) then Deny(s.(tickets := s.tickets[ref := t.(status := Expired)]), ref, ActivationExpired)
      else if t.binding.observer != p.binding.observer then Deny(s, ref, ForeignOwner)
      else if t.binding != p.binding then Deny(s, ref, BindingMismatch)
      else if t.status == Consumed then
        if t.consumedKey == Some(key) && key in s.idempotency then (s, Activated(s.idempotency[key]))
        else Deny(s, ref, Replayed)
      else
        var bounded := BoundedResult(t.binding.association, t.ownershipMode, Observing);
        (s.(associations := s.associations[t.binding.association := Association(Observing, now, now)],
            tickets := s.tickets[ref := t.(status := Consumed, consumedAt := Some(now), consumedKey := Some(key))],
            idempotency := s.idempotency[key := bounded]),
         Activated(bounded))
  }

  /** What the service does: the operation key is computed from the presentation. */
  function DoConsume(s: State, p: Presentation, now: real): (State, Reply) {
    Transact(s, p, KeyFor(p), now)
  }

  // ----- associations

  function Touched(a: Association, now: real): Association {
    if a.state == Observing || a.state == Reconnecting then a.(lastHeartbeatAt := now) else a
  }

  function Evaluated(a: Association, now: real): Association {
    if a.state == Observing && now - a.lastHeartbeatAt > IDLE_TTL then a.(state := Reconnecting)
    else if a.state == Reconnecting && now - a.lastHeartbeatAt > IDLE_TTL + GRACE then a.(state := Stale)
    else a
  }

  function Moved(a: Association, target: AssociationState): Association {
    if Edge(a.state, target) then a.(state := target) else a
  }

  function DoAssociation(s: State, name: string, step: Step): State {
    if name !in s.associations then s
    else
      var a := s.associations[name];
      var next :=
        match step
        case Touch(_, now) => Touched(a, now)
        case Evaluate(_, now) => Evaluated(a, now)
        case Move(_, target) => Moved(a, target)
        case _ => a;
      s.(associations := s.associations[name := next])
  }

  function Next(s: State, step: Step): State {
    match step
    case Issue(b, now, ttl) => DoIssue(s, b, now, ttl)
    case Revoke(activation, now) => DoRevoke(s, activation, now)
    case Consume(p, now) => DoConsume(s, p, now).0
    case Touch(name, _) => DoAssociation(s, name, step)
    case Evaluate(name, _) => DoAssociation(s, name, step)
    case Move(name, _) => DoAssociation(s, name, step)
  }

  function After(run: seq<Step>): State {
    if run == [] then INITIAL else Next(After(run[..|run| - 1]), run[|run| - 1])
  }

  lemma AfterOne(run: seq<Step>, step: Step)
    ensures After(run + [step]) == Next(After(run), step)
  {
    assert (run + [step])[..|run|] == run;
  }

  // ----- what every run keeps

  /** A consumed ticket is recorded under the key its own binding determines; no other ticket carries a key. */
  ghost predicate TicketInv(s: State, ref: nat, t: Ticket) {
    && t.purpose == PURPOSE && t.ownershipMode == OWNERSHIP_MODE
    && if t.status == Consumed then
         && t.consumedKey == Some(OpKey(ref, t.binding.observer, t.binding.association, t.purpose))
         && t.consumedKey.value in s.idempotency
         && s.idempotency[t.consumedKey.value] == BoundedResult(t.binding.association, t.ownershipMode, Observing)
       else t.consumedKey == None
  }

  ghost predicate Owned(s: State, name: string) {
    exists ref :: ref in s.tickets && s.tickets[ref].status == Consumed && s.tickets[ref].binding.association == name
  }

  /** No half-made ownership: every association and every stored result belongs to a consumed ticket. */
  ghost predicate Inv(s: State) {
    && (forall ref | ref in s.tickets :: ref < s.minted && TicketInv(s, ref, s.tickets[ref]))
    && (forall k | k in s.idempotency :: k.activation in s.tickets && s.tickets[k.activation].consumedKey == Some(k))
    && (forall name | name in s.associations :: Owned(s, name))
  }

  /** How a ticket may change: only while it is issued, and never in what it is bound to. */
  ghost predicate TicketGrows(a: Ticket, b: Ticket) {
    && b.binding == a.binding && b.purpose == a.purpose && b.expiresAt == a.expiresAt
    && (a.status != Issued ==> b == a)
  }

  ghost predicate Grows(s: State, t: State) {
    && s.minted <= t.minted
    && (forall ref | ref in s.tickets :: ref in t.tickets && TicketGrows(s.tickets[ref], t.tickets[ref]))
    && (forall k | k in s.idempotency :: k in t.idempotency && t.idempotency[k] == s.idempotency[k])
    && s.associations.Keys <= t.associations.Keys
    && s.audit <= t.audit
  }

  lemma OwnershipKept(s: State, t: State)
    requires forall name | name in s.associations :: Owned(s, name)
    requires forall ref | ref in s.tickets :: ref in t.tickets && TicketGrows(s.tickets[ref], t.tickets[ref])
    ensures forall name | name in s.associations :: Owned(t, name)
  {
    forall name | name in s.associations
      ensures Owned(t, name)
    {
      var ref :| ref in s.tickets && s.tickets[ref].status == Consumed && s.tickets[ref].binding.association == name;
      assert t.tickets[ref] == s.tickets[ref];
    }
  }

  ghost predicate Keeps(s: State, t: State) {
    Inv(t) && Grows(s, t)
  }

  lemma AuditKeeps(s: State, entry: (nat, Reason))
    requires Inv(s)
    ensures Keeps(s, s.(audit := s.audit + [entry]))
  {
    var t := s.(audit := s.audit + [entry]);
    OwnershipKept(s, t);
  }

  /** Replacing an issued ticket by its expired or revoked form. */
  lemma SettleKeeps(s: State, ref: nat, settled: Ticket)
    requires Inv(s) && ref in s.tickets && s.tickets[ref].status == Issued
    requires settled.status == Expired || settled.status == Revoked
    requires TicketGrows(s.tickets[ref], settled) && settled.ownershipMode == s.tickets[ref].ownershipMode
    requires settled.consumedKey == None
    ensures Keeps(s, s.(tickets := s.tickets[ref := settled]))
  {
    OwnershipKept(s, s.(tickets := s.tickets[ref := settled]));
  }

  function Committed(s: State, ref: nat, key: OpKey, now: real): State
    requires ref in s.tickets
  {
    var t := s.tickets[ref];
    s.(associations := s.associations[t.binding.association := Association(Observing, now, now)],
       tickets := s.tickets[ref := t.(status := Consumed, consumedAt := Some(now), consumedKey := Some(key))],
       idempotency := s.idempotency[key := BoundedResult(t.binding.association, t.ownershipMode, Observing)])
  }

  lemma CommitKeepsTickets(s: State, ref: nat, now: real)
    requires Inv(s) && ref in s.tickets && s.tickets[ref].status == Issued
    ensures var b := s.tickets[ref].binding;
            var t := Committed(s, ref, OpKey(ref, b.observer, b.association, PURPOSE), now);
            && (forall r | r in t.tickets :: r < t.minted && TicketInv(t, r, t.tickets[r]))
            && Grows(s, t)
  {
  }

  lemma CommitKeeps(s: State, ref: nat, now: real)
    requires Inv(s) && ref in s.tickets && s.tickets[ref].status == Issued
    ensures var b := s.tickets[ref].binding;
            Keeps(s, Committed(s, ref, OpKey(ref, b.observer, b.association, PURPOSE), now))
  {
    var b := s.tickets[ref].binding;
    var t := Committed(s, ref, OpKey(ref, b.observer, b.association, PURPOSE), now);
    CommitKeepsTickets(s, ref, now);
    OwnershipKept(s, t);
    assert Owned(t, b.association) by { assert t.tickets[ref].status == Consumed; }
    forall name | name in t.associations
      ensures Owned(t, name)
    {
      if name != b.association { assert name in s.associations; }
    }
  }

  lemma ConsumeKeeps(s: State, p: Presentation, now: real)
    requires Inv(s)
    ensures Keeps(s, DoConsume(s, p, now).0)
  {
    var (t, reply) := DoConsume(s, p, now);
    var ref := p.activation;
    if reply.Denied? {
      if reply.reason == ActivationExpired {
        var settled := s.tickets[ref].(status := Expired);
        var u := s.(tickets := s.tickets[ref := settled]);
        if s.tickets[ref].status == Issued { SettleKeeps(s, ref, settled); } else { assert u == s; }
        AuditKeeps(u, (ref, reply.reason));
        GrowsTransitive(s, u, t);
      } else {
        AuditKeeps(s, (ref, reply.reason));
      }
    } else if s.tickets[ref].status == Issued {
      CommitKeeps(s, ref, now);
    }
  }

  lemma IssueKeeps(s: State, b: Binding, now: real, ttl: real)
    requires Inv(s)
    ensures Keeps(s, DoIssue(s, b, now, ttl))
  {
    assert s.minted !in s.tickets;
    OwnershipKept(s, DoIssue(s, b, now, ttl));
  }

  lemma AssociationKeeps(s: State, name: string, step: Step)
    requires Inv(s)
    ensures Keeps(s, DoAssociation(s, name, step))
  {
    if name in s.associations {
      SameTicketsKeep(s, name, DoAssociation(s, name, step).associations[name]);
      assert DoAssociation(s, name, step) == s.(associations := s.associations[name := DoAssociation(s, name, step).associations[name]]);
    }
  }

  lemma SameTicketsKeep(s: State, name: string, a: Association)
    requires Inv(s) && name in s.associations
    ensures Keeps(s, s.(associations := s.associations[name := a]))
  {
    OwnershipKept(s, s.(associations := s.associations[name := a]));
  }

  lemma StepKeeps(s: State, step: Step)
    requires Inv(s)
    ensures Keeps(s, Next(s, step))
  {
    match step
    case Issue(b, now, ttl) => IssueKeeps(s, b, now, ttl);
    case Revoke(ref, now) =>
      if ref in s.tickets && s.tickets[ref].status == Issued {
        SettleKeeps(s, ref, s.tickets[ref].(status := Revoked, revokedAt := Some(now)));
      }
    case Consume(p, now) => ConsumeKeeps(s, p, now);
    case Touch(name, _) => AssociationKeeps(s, name, step);
    case Evaluate(name, _) => AssociationKeeps(s, name, step);
    case Move(name, _) => AssociationKeeps(s, name, step);
  }

  lemma {:induction false} Reachable(run: seq<Step>)
    ensures Inv(After(run))
  {
    if run != [] {
      Reachable(run[..|run| - 1]);
      StepKeeps(After(run[..|run| - 1]), run[|run| - 1]);
    }
  }

  lemma {:induction false} History(run: seq<Step>, more: seq<Step>)
    ensures Grows(After(run), After(run + more))
    decreases |more|
  {
    if more == [] {
      assert run + more == run;
    } else {
      var shorter := run + more[..|more| - 1];
      assert (run + more)[..|run + more| - 1] == shorter;
      History(run, more[..|more| - 1]);
      Reachable(shorter);
      StepKeeps(After(shorter), more[|more| - 1]);
      GrowsTransitive(After(run), After(shorter), After(run + more));
    }
  }

  lemma GrowsTransitive(a: State, b: State, c: State)
    requires Grows(a, b) && Grows(b, c)
    ensures Grows(a, c)
  {
  }

  // ----- one-use tickets

  predicate Commits(s: State, step: Step, ref: nat) {
    && step.Consume? && step.presentation.activation == ref
    && ref in s.tickets && s.tickets[ref].status == Issued
    && DoConsume(s, step.presentation, step.now).1.Activated?
  }

  /** How many times a ticket was turned into an association. */
  function CommitCount(run: seq<Step>, ref: nat): nat {
    if run == [] then 0
    else
      var past := run[..|run| - 1];
      CommitCount(past, ref) + if Commits(After(past), run[|run| - 1], ref) then 1 else 0
  }

  predicate Spent(s: State, ref: nat) {
    ref in s.tickets && s.tickets[ref].status == Consumed
  }

  /** Over every run a ticket commits at most once, and exactly once when it is consumed. */
  lemma {:induction false} CommitsOnce(run: seq<Step>, ref: nat)
    ensures CommitCount(run, ref) == if Spent(After(run), ref) then 1 else 0
  {
    if run != [] {
      var past := run[..|run| - 1];
      CommitsOnce(past, ref);
      Reachable(past);
      CommitStep(After(past), run[|run| - 1], ref);
    }
  }

  lemma CommitStep(s: State, step: Step, ref: nat)
    requires Inv(s)
    ensures Spent(Next(s, step), ref) <==> Spent(s, ref) || Commits(s, step, ref)
    ensures Commits(s, step, ref) ==> !Spent(s, ref)
  {
    if step.Consume? { ConsumeSpends(s, step.presentation, step.now, ref); }
  }

  lemma ConsumeSpends(s: State, p: Presentation, now: real, ref: nat)
    ensures Spent(DoConsume(s, p, now).0, ref) <==>
              Spent(s, ref) || (p.activation == ref && ref in s.tickets && s.tickets[ref].status == Issued && DoConsume(s, p, now).1.Activated?)
  {
  }

  /** A ticket that is consumed, expired or revoked never changes again. */
  lemma SettledForever(run: seq<Step>, more: seq<Step>, ref: nat)
    requires ref in After(run).tickets && After(run).tickets[ref].status != Issued
    ensures ref in After(run + more).tickets && After(run + more).tickets[ref] == After(run).tickets[ref]
  {
    History(run, more);
  }

  /** Exactly which presentations are accepted. */
  lemma AcceptedExactly(run: seq<Step>, p: Presentation, now: real)
    ensures var s := After(run);
            DoConsume(s, p, now).1.Activated? <==>
              && p.activation in s.tickets
              && var t := s.tickets[p.activation];
              && p.binding == t.binding && p.purpose == PURPOSE
              && (t.status == Consumed || (t.status == Issued && now <= t.expiresAt))
  {
    Reachable(run);
  }

  /** After a commit, presenting the same ticket correctly at any later time gives the same result and changes nothing. */
  lemma CommittedIsIdempotent(run: seq<Step>, p: Presentation, now: real, more: seq<Step>, later: real)
    requires DoConsume(After(run), p, now).1.Activated?
    ensures var all := run + [Consume(p, now)] + more;
            && DoConsume(After(all), p, later) == (After(all), DoConsume(After(run), p, now).1)
            && After(all + [Consume(p, later)]) == After(all)
  {
    var once := run + [Consume(p, now)];
    var all := once + more;
    AfterOne(run, Consume(p, now));
    Reachable(run);
    Reachable(once);
    Reachable(all);
    History(once, more);
    ConsumedStays(After(run), p, now, After(all), later);
    AfterOne(all, Consume(p, later));
  }

  lemma ConsumedStays(s: State, p: Presentation, now: real, t: State, later: real)
    requires Inv(s) && Inv(t) && DoConsume(s, p, now).1.Activated? && Grows(DoConsume(s, p, now).0, t)
    ensures DoConsume(t, p, later) == (t, DoConsume(s, p, now).1)
  {
    var u := DoConsume(s, p, now).0;
    assert Inv(u) by { ConsumeKeeps(s, p, now); }
    assert u.tickets[p.activation].status == Consumed;
    assert t.tickets[p.activation] == u.tickets[p.activation];
  }

  /** Through the service the replay denial cannot happen: the bindings already checked determine the operation key. */
  lemma ReplayDenialUnreachable(run: seq<Step>, p: Presentation, now: real)
    ensures DoConsume(After(run), p, now).1 != Denied(Replayed)
  {
    Reachable(run);
  }

  /** Used directly, the store denies a replay exactly when a correctly bound, consumed ticket comes with another key. */
  lemma ReplayDeniedExactly(run: seq<Step>, p: Presentation, key: OpKey, now: real)
    ensures Transact(After(run), p, key, now).1 == Denied(Replayed) <==>
              && Spent(After(run), p.activation)
              && After(run).tickets[p.activation].binding == p.binding && p.purpose == PURPOSE
              && key != KeyFor(p)
  {
    Reachable(run);
  }

  /** A denied presentation touches no association and no stored result, and of the tickets at most expires its own. */
  lemma DeniedChangesNothing(s: State, p: Presentation, now: real)
    requires DoConsume(s, p, now).1.Denied?
    ensures var t := DoConsume(s, p, now).0;
            && t.associations == s.associations && t.idempotency == s.idempotency && t.minted == s.minted
            && t.audit == s.audit + [(p.activation, DoConsume(s, p, now).1.reason)]
            && t.tickets.Keys == s.tickets.Keys
            && forall ref | ref in s.tickets ::
                 t.tickets[ref] == s.tickets[ref] ||
                 (ref == p.activation && s.tickets[ref].status == Issued && now > s.tickets[ref].expiresAt
                  && t.tickets[ref] == s.tickets[ref].(status := Expired))
  {
  }

  // ----- ownership and association states

  /** An association exists exactly because some ticket naming it was consumed, and so does every stored result. */
  lemma OwnershipIsWhole(run: seq<Step>, name: string)
    ensures name in After(run).associations <==> Owned(After(run), name)
  {
    Reachable(run);
    if Owned(After(run), name) { OwnedExists(run, name); }
  }

  lemma {:induction false} OwnedExists(run: seq<Step>, name: string)
    requires Owned(After(run), name)
    ensures name in After(run).associations
  {
    if run != [] {
      var past := run[..|run| - 1];
      Reachable(past);
      if Owned(After(past), name) {
        OwnedExists(past, name);
        StepKeeps(After(past), run[|run| - 1]);
      } else {
        NewlyOwned(After(past), run[|run| - 1], name);
      }
    }
  }

  lemma BindingStays(s: State, t: State, ref: nat)
    requires Grows(s, t)
    ensures ref in s.tickets ==> ref in t.tickets && t.tickets[ref].binding == s.tickets[ref].binding
  {
  }

  /** Ownership begins with the commit that also creates the association. */
  lemma NewlyOwned(s: State, step: Step, name: string)
    requires Inv(s) && !Owned(s, name) && Owned(Next(s, step), name)
    ensures name in Next(s, step).associations
  {
    var t := Next(s, step);
    var ref :| ref in t.tickets && t.tickets[ref].status == Consumed && t.tickets[ref].binding.association == name;
    assert Grows(s, t) by { StepKeeps(s, step); }
    assert Spent(s, ref) || Commits(s, step, ref) by { CommitStep(s, step, ref); }
    BindingStays(s, t, ref);
    if Commits(s, step, ref) { CommitCreates(s, step, ref); }
  }

  lemma CommitCreates(s: State, step: Step, ref: nat)
    requires Commits(s, step, ref)
    ensures s.tickets[ref].binding.association in Next(s, step).associations
  {
  }

  /** An association changes state only along a legal edge, or because a ticket for it is consumed. */
  lemma AssociationMovesLegally(run: seq<Step>, step: Step, name: string)
    requires name in After(run).associations
    ensures name in After(run + [step]).associations
    ensures MovesLegally(After(run), step, After(run + [step]), name)
  {
    AfterOne(run, step);
    Reachable(run);
    MoveStep(After(run), step, name);
  }

  ghost predicate MovesLegally(s: State, step: Step, t: State, name: string)
    requires name in s.associations && name in t.associations
  {
    || t.associations[name].state == s.associations[name].state
    || Edge(s.associations[name].state, t.associations[name].state)
    || (step.Consume? && step.presentation.binding.association == name
        && Commits(s, step, step.presentation.activation) && t.associations[name].state == Observing)
  }

  lemma MoveStep(s: State, step: Step, name: string)
    requires Inv(s) && name in s.associations
    ensures name in Next(s, step).associations && MovesLegally(s, step, Next(s, step), name)
  {
  }

  // ----- the store itself

  class SingleWriterTicketStore {
    var minted: nat
    var tickets: map<nat, Ticket>
    var associations: map<string, Association>
    var idempotency: map<OpKey, BoundedResult>
    var audit: seq<(nat, Reason)>
    ghost var run: seq<Step>

    ghost function View(): State
      reads this
    {
      State(minted, tickets, associations, idempotency, audit)
    }

    ghost predicate Valid()
      reads this
    {
      View() == After(run)
    }

    constructor ()
      ensures Valid() && run == []
    {
      minted, tickets, associations, idempotency, audit, run := 0, map[], map[], map[], [], [];
    }

    ghost method Performed(step: Step)
      requires View() == Next(After(run), step)
      modifies this`run
      ensures run == old(run) + [step] && Valid()
    {
      AfterOne(run, step);
      run := run + [step];
    }

    method IssueTicket(b: Binding, now: real, ttl: real) returns (ref: nat)
      requires Valid()
      modifies this
      ensures Valid() && run == old(run) + [Issue(b, now, ttl)]
      ensures ref == old(minted) && View() == DoIssue(old(View()), b, now, ttl)
    {
      ref := minted;
      minted := minted + 1;
      tickets := tickets[ref := Ticket(b, now + ttl, PURPOSE, OWNERSHIP_MODE, Issued, None, None, None)];
      Performed(Issue(b, now, ttl));
    }

    method RevokeTicket(ref: nat, now: real) returns (revoked: bool)
      requires Valid()
      modifies this
      ensures Valid() && run == old(run) + [Revoke(ref, now)]
      ensures View() == DoRevoke(old(View()), ref, now)
      ensures revoked <==> ref in old(tickets) && old(tickets)[ref].status == Issued
    {
      revoked := ref in tickets && tickets[ref].status == Issued;
      if revoked { tickets := tickets[ref := tickets[ref].(status := Revoked, revokedAt := Some(now))]; }
      Performed(Revoke(ref, now));
    }

    method Refuse(ref: nat, reason: Reason) returns (reply: Reply)
      modifies this`audit
      ensures audit == old(audit) + [(ref, reason)] && reply == Denied(reason)
    {
      audit := audit + [(ref, reason)];
      reply := Denied(reason);
    }

    /** The transaction for any operation key; it leaves the recorded run to its caller. */
    method ConsumeTransaction(p: Presentation, key: OpKey, now: real) returns (reply: Reply)
      modifies this`tickets, this`associations, this`idempotency, this`audit
      ensures (View(), reply) == Transact(old(View()), p, key, now)
    {
      var ref := p.activation;
      if ref !in tickets {
        reply := Refuse(ref, Unknown);
        return;
      }
      var t := tickets[ref];
      if t.purpose != p.purpose {
        reply := Refuse(ref, CapabilityDenied);
      } else if t.status == Revoked {
        reply := Refuse(ref, ActivationInvalid);
      } else if t.status == Expired || (t.status == Issued && now > t.expiresAt) {
        if t.status == Issued { tickets := tickets[ref := t.(status := Expired)]; }
        assert tickets == old(tickets)[ref := t.(status := Expired)];
        reply := Refuse(ref, ActivationExpired);
      } else if t.binding.observer != p.binding.observer {
        reply := Refuse(ref, ForeignOwner);
      } else if t.binding != p.binding {
        reply := Refuse(ref, BindingMismatch);
      } else if t.status == Consumed {
        if t.consumedKey == Some(key) && key in idempotency {
          reply := Activated(idempotency[key]);
        } else {
          reply := Refuse(ref, Replayed);
        }
      } else {
        associations := associations[t.binding.association := Association(Observing, now, now)];
        tickets := tickets[ref := t.(status := Consumed, consumedAt := Some(now), consumedKey := Some(key))];
        var bounded := BoundedResult(t.binding.association, t.ownershipMode, associations[t.binding.association].state);
        idempotency := idempotency[key := bounded];
        reply := Activated(bounded);
      }
    }

    method ConsumeTicket(p: Presentation, now: real) returns (reply: Reply)
      requires Valid()
      modifies this
      ensures Valid() && run == old(run) + [Consume(p, now)]
      ensures (View(), reply) == DoConsume(old(View()), p, now)
    {
      var key := OpKey(p.activation, p.binding.observer, p.binding.association, p.purpose);
      reply := ConsumeTransaction(p, key, now);
      Performed(Consume(p, now));
    }

    method TouchAssociation(name: string, now: real) returns (state: Option<AssociationState>)
      requires Valid()
      modifies this
      ensures Valid() && run == old(run) + [Touch(name, now)]
      ensures View() == DoAssociation(old(View()), name, Touch(name, now))
      ensures state == if name in associations then Some(associations[name].state) else None
    {
      state := None;
      if name in associations {
        var a := associations[name];
        if a.state == Observing || a.state == Reconnecting { a := a.(lastHeartbeatAt := now); }
        associations := associations[name := a];
        state := Some(a.state);
      }
      Performed(Touch(name, now));
    }

    method EvaluateAssociation(name: string, now: real) returns (state: Option<AssociationState>)
      requires Valid()
      modifies this
      ensures Valid() && run == old(run) + [Evaluate(name, now)]
      ensures View() == DoAssociation(old(View()), name, Evaluate(name, now))
      ensures state == if name in associations then Some(associations[name].state) else None
    {
      state := None;
      if name in associations {
        var a := associations[name];
        if a.state == Observing && now - a.lastHeartbeatAt > IDLE_TTL {
          a := a.(state := Reconnecting);
        } else if a.state == Reconnecting && now - a.lastHeartbeatAt > IDLE_TTL + GRACE {
          a := a.(state := Stale);
        }
        associations := associations[name := a];
        state := Some(a.state);
      }
      Performed(Evaluate(name, now));
    }

    /** Move an association along an edge; `Err` leaves it where it is. */
    method Transition(name: string, target: AssociationState) returns (r: Result<Option<AssociationState>, AssociationState>)
      requires Valid()
      modifies this
      ensures Valid() && run == old(run) + [Move(name, target)]
      ensures View() == DoAssociation(old(View()), name, Move(name, target))
      ensures r.Err? <==> name in associations && !Edge(old(associations)[name].state, target)
      ensures r == Ok(None) <==> name !in associations
    {
      r := Ok(None);
      if name in associations {
        var a := associations[name];
        if Edge(a.state, target) {
          associations := associations[name := a.(state := target)];
          r := Ok(Some(target));
        } else {
          r := Err(a.state);
        }
      }
      assert name in associations ==> associations == old(associations)[name := Moved(old(associations)[name], target)];
      Performed(Move(name, target));
    }
  }
}
