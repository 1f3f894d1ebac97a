/**
 * Team authority over whole runs: the service's checks
 * (backend/src/domain/team/team.service.ts:208-374, 436-489, 529-658, 730-819, 920-965,
 * backend/src/common/permissions/role-tier.ts, backend/src/common/guards/org-context.guard.ts:25-36)
 * and the member sheet's guards (frontend/lib/team-access.ts,
 * frontend/components/team/team-member-sheet.tsx:161-171, 450-473, 582-618).
 */
module Team {
  datatype Role = OWNER | MANAGER | CASHIER | SUPPORT | INVENTORY_CLERK

  datatype Status = INVITED | ACTIVE | DEACTIVATED

  datatype Member = Member(role: Role, status: Status)

  type UserId = nat

  // The memberships of one organization, by user, and the users who have a password.
  datatype Org = Org(members: map<UserId, Member>, passwords: set<UserId>)

  // Who asks, with the role in the access token. The service goes by that role
  // alone: the actor's membership may have changed since the token was issued.
  datatype Actor = Actor(id: UserId, role: Role)

  datatype Event =
    | Invite(actor: Actor, user: UserId, role: Role)
    | Accept(user: UserId)
    | ChangeRole(actor: Actor, user: UserId, role: Role)
    | Deactivate(actor: Actor, user: UserId)
    | Reactivate(actor: Actor, user: UserId)
    | SetPassword(user: UserId)

  function Tier(r: Role): int {
    match r
    case OWNER => 1
    case MANAGER => 2
    case CASHIER => 3
    case SUPPORT => 3
    case INVENTORY_CLERK => 3
  }

  predicate CanAccessTeam(r: Role) {
    r == OWNER || r == MANAGER
  }

  predicate CanAssignRole(actor: Role, target: Role) {
    actor == OWNER || Tier(actor) < Tier(target)
  }

  // The page's check, and the service's with allowSameTierOwner false.
  predicate CanManageMember(actor: Role, target: Role) {
    if actor == OWNER then target != OWNER else Tier(actor) < Tier(target)
  }

  // The service's check: owners may also be managed where the caller allows it.
  predicate Manageable(actor: Role, target: Role, allowSameTierOwner: bool) {
    (actor == OWNER && target == OWNER && allowSameTierOwner) || CanManageMember(actor, target)
  }

  predicate ActiveIn(org: Org, user: UserId) {
    user in org.members && org.members[user].status == ACTIVE
  }

  predicate ActiveOwner(org: Org, user: UserId) {
    ActiveIn(org, user) && org.members[user].role == OWNER
  }

  // ensureActiveOwnerCount
  predicate OtherActiveOwner(org: Org, excluding: UserId) {
    exists u :: u in org.members && u != excluding && ActiveOwner(org, u)
  }

  // Every check but the owner count.
  predicate Permitted(org: Org, e: Event) {
    match e
    case Invite(actor, user, role) =>
      && CanAccessTeam(actor.role) && CanAssignRole(actor.role, role)
      && (user in org.members ==> org.members[user].status == DEACTIVATED)
    case Accept(user) => user in org.members && org.members[user].status == INVITED
    case ChangeRole(actor, user, role) =>
      && CanAccessTeam(actor.role) && user in org.members && user != actor.id
      && Manageable(actor.role, org.members[user].role, org.members[user].role == OWNER && role != OWNER)
      && CanAssignRole(actor.role, role)
    case Deactivate(actor, user) =>
      && CanAccessTeam(actor.role) && user in org.members && user != actor.id
      && ManagesOrOwns(actor.role, org.members[user].role)
    case Reactivate(actor, user) =>
      && CanAccessTeam(actor.role) && user in org.members && ManagesOrOwns(actor.role, org.members[user].role)
    case SetPassword(_) => true
  }

  predicate ManagesOrOwns(actor: Role, target: Role) {
    if target != OWNER then CanManageMember(actor, target) else actor == OWNER
  }

  // The owner count is asked before an owner is demoted or deactivated.
  predicate OwnerCountHolds(org: Org, e: Event) {
    match e
    case Invite(_, _, _) => true
    case Accept(_) => true
    case ChangeRole(_, user, role) =>
      user in org.members && org.members[user].role == OWNER && role != OWNER ==> OtherActiveOwner(org, user)
    case Deactivate(_, user) =>
      user in org.members && org.members[user].role == OWNER ==> OtherActiveOwner(org, user)
    case Reactivate(_, _) => true
    case SetPassword(_) => true
  }

  predicate Accepts(org: Org, e: Event) {
    Permitted(org, e) && OwnerCountHolds(org, e)
  }

  // Who is let back in: at once with a password, by a new invitation without.
  function BackIn(org: Org, user: UserId): Status {
    if user in org.passwords then ACTIVE else INVITED
  }

  function Next(org: Org, e: Event): Org
    requires Accepts(org, e)
  {
    match e
    case Invite(_, user, role) =>
      var status := if user in org.members then BackIn(org, user) else INVITED;
      org.(members := org.members[user := Member(role, status)])
    case Accept(user) =>
      org.(members := org.members[user := org.members[user].(status := ACTIVE)], passwords := org.passwords + {user})
    case ChangeRole(_, user, role) => org.(members := org.members[user := org.members[user].(role := role)])
    case Deactivate(_, user) => org.(members := org.members[user := org.members[user].(status := DEACTIVATED)])
    case Reactivate(_, user) => org.(members := org.members[user := org.members[user].(status := BackIn(org, user))])
    case SetPassword(user) => org.(passwords := org.passwords + {user})
  }

  function Step(org: Org, e: Event): Org {
    if Accepts(org, e) then Next(org, e) else org
  }

  function Run(org: Org, events: seq<Event>): Org {
    if events == [] then org else Step(Run(org, events[..|events| - 1]), events[|events| - 1])
  }

  // ---- The last owner -----------------------------------------------------------------------

  predicate ActiveHavePasswords(org: Org) {
    forall u :: u in org.members && org.members[u].status == ACTIVE ==> u in org.passwords
  }

  predicate Owned(org: Org) {
    exists u :: u in org.members && ActiveOwner(org, u)
  }

  predicate Governed(org: Org) {
    ActiveHavePasswords(org) && Owned(org)
  }

  lemma StepKeepsOwner(org: Org, e: Event, owner: UserId)
    requires ActiveHavePasswords(org) && ActiveOwner(org, owner)
    ensures ActiveHavePasswords(Step(org, e))
    ensures Owned(Step(org, e))
  {
    // Who loses an owner's rights was counted out: another active owner stays one.
    if Accepts(org, e) && (e.ChangeRole? || e.Deactivate?) && e.user == owner {
      var other :| other in org.members && other != owner && ActiveOwner(org, other);
      assert ActiveOwner(Step(org, e), other);
    } else {
      assert ActiveOwner(Step(org, e), owner);
    }
  }

  /** Over any run of atomic operations, whatever roles the tokens carry, an organization keeps an active owner. */
  lemma {:induction false} OwnerRemains(org: Org, events: seq<Event>)
    requires Governed(org)
    ensures Governed(Run(org, events))
  {
    if events != [] {
      var before := events[..|events| - 1];
      OwnerRemains(org, before);
      var owner :| owner in Run(org, before).members && ActiveOwner(Run(org, before), owner);
      StepKeepsOwner(Run(org, before), events[|events| - 1], owner);
    }
  }

  // What the operation does where it is let through.
  function Unchecked(org: Org, e: Event): Org {
    Written(org, Request(e, org))
  }

  /** The owner count refuses exactly the operations that would leave no active owner. */
  lemma OwnerCountIsExact(org: Org, e: Event)
    requires Governed(org) && Permitted(org, e)
    ensures OwnerCountHolds(org, e) <==> Owned(Unchecked(org, e))
  {
    WriteLeavesNoOwnerIff(org, Request(e, org));
    var owner :| owner in org.members && ActiveOwner(org, owner);
  }

  /**
   * It is needed: of two owners the first demotes the second, whose token still
   * says OWNER and passes every other check against the first.
   */
  lemma OwnerCountIsNeeded(org: Org, a: UserId, b: UserId)
    requires Governed(org) && a != b && ActiveOwner(org, a) && ActiveOwner(org, b)
    requires forall u :: u in org.members && ActiveOwner(org, u) ==> u == a || u == b
    ensures var e := ChangeRole(Actor(b, OWNER), a, MANAGER);
            var demoted := Step(org, ChangeRole(Actor(a, OWNER), b, MANAGER));
            && Governed(demoted) && demoted.members[b].role == MANAGER
            && Permitted(demoted, e) && !Accepts(demoted, e) && !Owned(Unchecked(demoted, e))
  {
    CurrentOwnerPasses(org, a, b);
    StepKeepsOwner(org, ChangeRole(Actor(a, OWNER), b, MANAGER), a);
    var demoted := Step(org, ChangeRole(Actor(a, OWNER), b, MANAGER));
    OwnerCountIsExact(demoted, ChangeRole(Actor(b, OWNER), a, MANAGER));
  }

  // Whoever is an active owner still never has to ask for another.
  lemma CurrentOwnerPasses(org: Org, actor: UserId, user: UserId)
    requires ActiveOwner(org, actor) && user != actor
    ensures OtherActiveOwner(org, user)
  {
    assert ActiveOwner(org, actor);
  }

  // ---- Checks and writes interleaved ---------------------------------------------------------------

  // A request checks first and writes later, not in one transaction; what it
  // read with its check decides what it writes.
  datatype Request = Request(e: Event, seen: Org)

  datatype Service = Service(org: Org, checked: seq<Request>)

  // A step of the concurrent service: some request's check, or the write of the k-th checked one.
  datatype Action = Check(e: Event) | Write(k: nat)

  function WithStatus(org: Org, user: UserId, status: Status): Org {
    if user in org.members then org.(members := org.members[user := org.members[user].(status := status)]) else org
  }

  // Creating a membership that exists by now fails.
  function Written(org: Org, r: Request): Org {
    match r.e
    case Invite(_, user, role) =>
      if user in r.seen.members then org.(members := org.members[user := Member(role, BackIn(r.seen, user))])
      else if user in org.members then org
      else org.(members := org.members[user := Member(role, INVITED)])
    case Accept(user) => WithStatus(org, user, ACTIVE).(passwords := org.passwords + {user})
    case ChangeRole(_, user, role) =>
      if user in org.members then org.(members := org.members[user := org.members[user].(role := role)]) else org
    case Deactivate(_, user) => WithStatus(org, user, DEACTIVATED)
    case Reactivate(_, user) => WithStatus(org, user, BackIn(r.seen, user))
    case SetPassword(user) => org.(passwords := org.passwords + {user})
  }

  function Act(s: Service, a: Action): Service {
    match a
    case Check(e) => if Accepts(s.org, e) then s.(checked := s.checked + [Request(e, s.org)]) else s
    case Write(k) =>
      if k < |s.checked| then Service(Written(s.org, s.checked[k]), s.checked[..k] + s.checked[k + 1..]) else s
  }

  function ActAll(s: Service, actions: seq<Action>): Service {
    if actions == [] then s else Act(ActAll(s, actions[..|actions| - 1]), actions[|actions| - 1])
  }

  lemma ActAllSnoc(s: Service, actions: seq<Action>, a: Action)
    ensures ActAll(s, actions + [a]) == Act(ActAll(s, actions), a)
  {
    assert (actions + [a])[..|actions|] == actions;
  }

  // The check would pass again, and read the same about the user.
  predicate StillHolds(org: Org, r: Request) {
    && Accepts(org, r.e)
    && (r.e.user in r.seen.members <==> r.e.user in org.members)
    && (r.e.user in r.seen.passwords <==> r.e.user in org.passwords)
  }

  // Every write of the run finds its check still holding.
  predicate Fresh(s: Service, actions: seq<Action>) {
    actions == [] ||
    (var before, a := ActAll(s, actions[..|actions| - 1]), actions[|actions| - 1];
     && Fresh(s, actions[..|actions| - 1])
     && (a.Write? && a.k < |before.checked| ==> StillHolds(before.org, before.checked[a.k])))
  }

  lemma FreshWriteIsAtomic(org: Org, r: Request)
    requires StillHolds(org, r)
    ensures Written(org, r) == Next(org, r.e) == Step(org, r.e)
  {
  }

  /** Where every write finds its check still holding, the interleaving comes to a run of atomic operations. */
  lemma {:induction false} FreshInterleavingsAreSerial(s: Service, actions: seq<Action>) returns (events: seq<Event>)
    requires Fresh(s, actions)
    ensures ActAll(s, actions).org == Run(s.org, events)
  {
    events := [];
    if actions != [] {
      var before, a := ActAll(s, actions[..|actions| - 1]), actions[|actions| - 1];
      events := FreshInterleavingsAreSerial(s, actions[..|actions| - 1]);
      if a.Write? && a.k < |before.checked| {
        FreshWriteIsAtomic(before.org, before.checked[a.k]);
        RunSnoc(s.org, events, before.checked[a.k].e);
        events := events + [before.checked[a.k].e];
      }
    }
  }

  lemma RunSnoc(org: Org, events: seq<Event>, e: Event)
    ensures Run(org, events + [e]) == Step(Run(org, events), e)
  {
    assert (events + [e])[..|events|] == events;
  }

  /** So an active owner remains over every interleaving whose writes find their checks still holding. */
  lemma OwnerRemainsInterleaved(s: Service, actions: seq<Action>)
    requires Governed(s.org) && Fresh(s, actions)
    ensures Governed(ActAll(s, actions).org)
  {
    var events := FreshInterleavingsAreSerial(s, actions);
    OwnerRemains(s.org, events);
  }

  // Each request checked and written before the next one.
  function OneByOne(events: seq<Event>): seq<Action> {
    if events == [] then [] else OneByOne(events[..|events| - 1]) + [Check(events[|events| - 1])] + [Write(0)]
  }

  /** Atomic runs are the interleavings that write each request right after its check. */
  lemma {:induction false} AtomicRunsAreFresh(org: Org, events: seq<Event>)
    ensures ActAll(Service(org, []), OneByOne(events)) == Service(Run(org, events), [])
    ensures Fresh(Service(org, []), OneByOne(events))
  {
    if events != [] {
      var s, before, e := Service(org, []), events[..|events| - 1], events[|events| - 1];
      AtomicRunsAreFresh(org, before);
      CheckThenWrite(s, OneByOne(before), Run(org, before), e);
    }
  }

  lemma CheckThenWrite(s: Service, actions: seq<Action>, org: Org, e: Event)
    requires ActAll(s, actions) == Service(org, []) && Fresh(s, actions)
    ensures ActAll(s, actions + [Check(e)] + [Write(0)]) == Service(Step(org, e), [])
    ensures Fresh(s, actions + [Check(e)] + [Write(0)])
  {
    var checked := actions + [Check(e)];
    ActAllSnoc(s, actions, Check(e));
    ActAllSnoc(s, checked, Write(0));
    assert checked[..|actions|] == actions && (checked + [Write(0)])[..|checked|] == checked;
    if Accepts(org, e) {
      assert [] + [Request(e, org)] == [Request(e, org)];
      FreshWriteIsAtomic(org, Request(e, org));
    }
  }

  // The write leaves its user without an active owner's rights.
  predicate TakesRights(r: Request) {
    match r.e
    case Invite(_, user, role) => user in r.seen.members && !(role == OWNER && user in r.seen.passwords)
    case Accept(_) => false
    case ChangeRole(_, _, role) => role != OWNER
    case Deactivate(_, _) => true
    case Reactivate(_, user) => user !in r.seen.passwords
    case SetPassword(_) => false
  }

  // The write takes the rights of the only active owner.
  predicate TakesLastOwner(org: Org, r: Request) {
    && TakesRights(r) && ActiveOwner(org, r.e.user)
    && forall u :: u in org.members && ActiveOwner(org, u) ==> u == r.e.user
  }

  lemma WriteLeavesNoOwnerIff(org: Org, r: Request)
    requires Owned(org)
    ensures !Owned(Written(org, r)) <==> TakesLastOwner(org, r)
  {
    var after := Written(org, r);
    forall u | u != r.e.user ensures ActiveOwner(after, u) <==> ActiveOwner(org, u) {}
    if !TakesLastOwner(org, r) {
      var u :| u in org.members && ActiveOwner(org, u) &&
               (TakesRights(r) && ActiveOwner(org, r.e.user) ==> u != r.e.user);
      assert u in after.members && ActiveOwner(after, u);
    }
  }

  predicate TakesLast(s: Service, a: Action) {
    a.Write? && a.k < |s.checked| && TakesLastOwner(s.org, s.checked[a.k])
  }

  predicate NeverTakesLast(s: Service, actions: seq<Action>) {
    actions == [] ||
    (NeverTakesLast(s, actions[..|actions| - 1]) &&
     !TakesLast(ActAll(s, actions[..|actions| - 1]), actions[|actions| - 1]))
  }

  // An active owner remains after each action.
  predicate AlwaysOwned(s: Service, actions: seq<Action>) {
    Owned(ActAll(s, actions).org) && (actions == [] || AlwaysOwned(s, actions[..|actions| - 1]))
  }

  /**
   * Over any interleaving of any number of requests an active owner remains
   * throughout exactly when no write takes the rights of the only one left.
   */
  lemma {:induction false} OwnerRemainsIff(s: Service, actions: seq<Action>)
    requires Owned(s.org)
    ensures AlwaysOwned(s, actions) <==> NeverTakesLast(s, actions)
  {
    if actions != [] {
      var before, a := ActAll(s, actions[..|actions| - 1]), actions[|actions| - 1];
      OwnerRemainsIff(s, actions[..|actions| - 1]);
      if Owned(before.org) && a.Write? && a.k < |before.checked| {
        WriteLeavesNoOwnerIff(before.org, before.checked[a.k]);
      }
    }
  }

  predicate ChangesRights(e: Event) {
    e.ChangeRole? || e.Deactivate?
  }

  // The operation takes an active owner's rights away.
  predicate TakesFrom(org: Org, e: Event, owner: UserId) {
    ChangesRights(e) && e.user == owner && ActiveOwner(org, owner) && (e.ChangeRole? ==> e.role != OWNER)
  }

  // Two active owners lose their rights, one to each, and there is no third.
  predicate TakeTheLastTwo(org: Org, e: Event, f: Event)
    requires ChangesRights(e) && ChangesRights(f)
  {
    && e.user != f.user && TakesFrom(org, e, e.user) && TakesFrom(org, f, f.user)
    && forall u :: u in org.members && ActiveOwner(org, u) ==> u == e.user || u == f.user
  }

  lemma KeepsOther(org: Org, r: Request, u: UserId)
    requires ChangesRights(r.e) && ActiveOwner(org, u) && !TakesFrom(org, r.e, u)
    ensures ActiveOwner(Written(org, r), u)
  {
  }

  // An owner that neither operation takes rights from is still one after both.
  lemma KeptByBoth(org: Org, r: Request, q: Request, u: UserId)
    requires ChangesRights(r.e) && ChangesRights(q.e) && ActiveOwner(org, u)
    requires !TakesFrom(org, r.e, u) && !TakesFrom(org, q.e, u)
    ensures Owned(Written(Written(org, r), q))
  {
    KeepsOther(org, r, u);
    KeepsOther(Written(org, r), q, u);
    assert u in Written(Written(org, r), q).members;
  }

  // Where they take the last two, neither is an owner afterwards, and no other becomes one.
  lemma LostByBoth(org: Org, r: Request, q: Request, u: UserId)
    requires ChangesRights(r.e) && ChangesRights(q.e) && TakeTheLastTwo(org, r.e, q.e)
    ensures !ActiveOwner(Written(Written(org, r), q), u)
  {
  }

  // Otherwise an owner is left whom neither takes rights from.
  lemma SurvivingOwner(org: Org, e: Event, f: Event) returns (u: UserId)
    requires Owned(org) && ChangesRights(e) && ChangesRights(f) && Accepts(org, e) && Accepts(org, f)
    requires !TakeTheLastTwo(org, e, f)
    ensures ActiveOwner(org, u) && !TakesFrom(org, e, u) && !TakesFrom(org, f, u)
  {
    if TakesFrom(org, e, e.user) && TakesFrom(org, f, f.user) && e.user != f.user {
      u :| u in org.members && ActiveOwner(org, u) && u != e.user && u != f.user;
    } else if TakesFrom(org, e, e.user) {
      u :| u in org.members && u != e.user && ActiveOwner(org, u);
    } else if TakesFrom(org, f, f.user) {
      u :| u in org.members && u != f.user && ActiveOwner(org, u);
    } else {
      u :| u in org.members && ActiveOwner(org, u);
    }
  }

  /**
   * Two role changes or deactivations checked against the same state leave no
   * owner exactly when they take the rights of two active owners and there is no third.
   */
  lemma RaceLeavesNoOwnerIff(org: Org, e: Event, f: Event)
    requires Owned(org) && ChangesRights(e) && ChangesRights(f) && Accepts(org, e) && Accepts(org, f)
    ensures !Owned(ActAll(Service(org, []), [Check(e), Check(f), Write(0), Write(0)]).org) <==>
            TakeTheLastTwo(org, e, f)
  {
    var r, q := Request(e, org), Request(f, org);
    TwoRequests(org, e, f);
    if TakeTheLastTwo(org, e, f) {
      forall u ensures !ActiveOwner(Written(Written(org, r), q), u) {
        LostByBoth(org, r, q, u);
      }
    } else {
      var u := SurvivingOwner(org, e, f);
      KeptByBoth(org, r, q, u);
    }
  }

  lemma TwoRequests(org: Org, e: Event, f: Event)
    requires Accepts(org, e) && Accepts(org, f)
    ensures ActAll(Service(org, []), [Check(e), Check(f), Write(0), Write(0)]).org ==
            Written(Written(org, Request(e, org)), Request(f, org))
  {
    var s := Service(org, []);
    ThreeActions(s, Check(e), Check(f), Write(0));
    ActAllSnoc(s, [Check(e), Check(f), Write(0)], Write(0));
    assert [Check(e), Check(f), Write(0)] + [Write(0)] == [Check(e), Check(f), Write(0), Write(0)];
    var both := [Request(e, org)] + [Request(f, org)];
    assert [] + [Request(e, org)] == [Request(e, org)] && both[..0] + both[1..] == [Request(f, org)];
  }

  lemma ThreeActions(s: Service, a: Action, b: Action, c: Action)
    ensures ActAll(s, [a, b, c]) == Act(Act(Act(s, a), b), c)
  {
    ActAllSnoc(s, [], a);
    ActAllSnoc(s, [a], b);
    ActAllSnoc(s, [a, b], c);
    assert [] + [a] == [a] && [a] + [b] == [a, b] && [a, b] + [c] == [a, b, c];
  }

  /** It happens in every organization with exactly two owners, whoever else asks under an OWNER token. */
  lemma TwoOwnersCanRace(org: Org, a: UserId, b: UserId, x: Actor, y: Actor)
    requires a != b && ActiveOwner(org, a) && ActiveOwner(org, b)
    requires forall u :: u in org.members && ActiveOwner(org, u) ==> u == a || u == b
    requires x.role == y.role == OWNER && x.id != a && y.id != b
    ensures var e, f := ChangeRole(x, a, MANAGER), Deactivate(y, b);
            Accepts(org, e) && Accepts(org, f) &&
            !Owned(ActAll(Service(org, []), [Check(e), Check(f), Write(0), Write(0)]).org)
  {
    CurrentOwnerPasses(org, a, b);
    CurrentOwnerPasses(org, b, a);
    assert a in org.members && Owned(org);
    RaceLeavesNoOwnerIff(org, ChangeRole(x, a, MANAGER), Deactivate(y, b));
  }

  // ---- What the operations do -----------------------------------------------------------------------

  // The operation is accepted, and concerns this user.
  predicate Concerns(org: Org, e: Event, user: UserId) {
    Accepts(org, e) && e.user == user
  }

  /** Who becomes a member, is let in, is put out, and comes back. */
  lemma StatusChanges(org: Org, e: Event, user: UserId)
    ensures var after := Step(org, e).members;
            && (user in org.members ==> user in after)
            && (user in after && user !in org.members <==> Concerns(org, e, user) && e.Invite? && user !in org.members)
            && (user in after && user !in org.members ==> after[user] == Member(e.role, INVITED))
    ensures user in org.members ==>
              var was, now, back := org.members[user].status, Step(org, e).members[user].status, user in org.passwords;
              && (was != DEACTIVATED && now == DEACTIVATED <==>
                  Concerns(org, e, user) && e.Deactivate? && was != DEACTIVATED)
              && (was == DEACTIVATED && now != DEACTIVATED <==>
                  Concerns(org, e, user) && (e.Invite? || e.Reactivate?) && was == DEACTIVATED)
              && (was == DEACTIVATED && now != DEACTIVATED ==> now == if back then ACTIVE else INVITED)
              && (was == INVITED && now == ACTIVE <==>
                  Concerns(org, e, user) && was == INVITED && (e.Accept? || (e.Reactivate? && back)))
              && (was == ACTIVE && now == INVITED <==>
                  Concerns(org, e, user) && was == ACTIVE && e.Reactivate? && !back)
    ensures Concerns(org, e, user) && e.Invite? && user in org.members ==> org.members[user].status == DEACTIVATED
    ensures Concerns(org, e, user) && e.Accept? ==> user in org.members && org.members[user].status == INVITED
  {
  }

  /** Roles change by a role change and by inviting again, to the role asked for; passwords are only ever set. */
  lemma RoleChanges(org: Org, e: Event, user: UserId)
    requires user in org.members
    ensures var was, now := org.members[user].role, Step(org, e).members[user].role;
            && (now != was ==> Concerns(org, e, user) && (e.ChangeRole? || e.Invite?))
            && (Concerns(org, e, user) && (e.ChangeRole? || e.Invite?) ==> now == e.role)
    ensures Step(org, e).passwords ==
            org.passwords + if Accepts(org, e) && (e.Accept? || e.SetPassword?) then {e.user} else {}
  {
  }

  // ---- While no OWNER token is used -------------------------------------------------------------------

  // The users with an OWNER or MANAGER role, with that role.
  function TopRoles(org: Org): set<(UserId, Role)> {
    set u | u in org.members && CanAccessTeam(org.members[u].role) :: (u, org.members[u].role)
  }

  // The request does not carry an OWNER role.
  predicate NotAsOwner(e: Event) {
    e.Invite? || e.ChangeRole? || e.Deactivate? || e.Reactivate? ==> e.actor.role != OWNER
  }

  // A deactivated owner or manager is invited again, with whatever role the actor may assign.
  predicate Reinvites(org: Org, e: Event) {
    Accepts(org, e) && e.Invite? && e.user in org.members && CanAccessTeam(org.members[e.user].role)
  }

  lemma StepWithoutOwner(org: Org, e: Event)
    requires NotAsOwner(e)
    ensures TopRoles(Step(org, e)) <= TopRoles(org)
    ensures TopRoles(Step(org, e)) == TopRoles(org) <==> !Reinvites(org, e)
  {
    var after := Step(org, e);
    forall p | p in TopRoles(after) ensures p in TopRoles(org) {
      assert p.0 in after.members;
    }
    if Reinvites(org, e) {
      assert (e.user, org.members[e.user].role) in TopRoles(org);
      assert (e.user, org.members[e.user].role) !in TopRoles(after);
    } else {
      forall p | p in TopRoles(org) ensures p in TopRoles(after) {
        assert p.0 in after.members;
      }
    }
  }

  predicate Reinvited(org: Org, events: seq<Event>) {
    events != [] &&
    (Reinvited(org, events[..|events| - 1]) || Reinvites(Run(org, events[..|events| - 1]), events[|events| - 1]))
  }

  /**
   * While no request carries an OWNER role nobody gains an OWNER or MANAGER role, and
   * nobody loses one, except by being deactivated and then invited again.
   */
  lemma {:induction false} NobodyGainsAuthority(org: Org, events: seq<Event>)
    requires forall i :: 0 <= i < |events| ==> NotAsOwner(events[i])
    ensures TopRoles(Run(org, events)) <= TopRoles(org)
    ensures TopRoles(Run(org, events)) == TopRoles(org) <==> !Reinvited(org, events)
  {
    if events != [] {
      var before := events[..|events| - 1];
      NobodyGainsAuthority(org, before);
      StepWithoutOwner(Run(org, before), events[|events| - 1]);
    }
  }

  /** But a token outlives a demotion: a demoted owner still makes owners of others. */
  lemma DemotedOwnerGrants(org: Org, a: UserId, b: UserId, user: UserId)
    requires Governed(org) && a != b && ActiveOwner(org, a) && ActiveOwner(org, b)
    requires user != b && user in org.members && org.members[user].role != OWNER
    ensures var demote, grant := ChangeRole(Actor(a, OWNER), b, CASHIER), ChangeRole(Actor(b, OWNER), user, OWNER);
            var after := Step(Step(org, demote), grant);
            after.members[b].role == CASHIER && after.members[user].role == OWNER
  {
    CurrentOwnerPasses(org, a, b);
  }

  /** A manager can take a deactivated owner's role away for good, though it may not manage the owner. */
  lemma ManagerOverwritesOwner(org: Org, manager: Actor, owner: UserId)
    requires manager.role == MANAGER
    requires owner in org.members && org.members[owner] == Member(OWNER, DEACTIVATED)
    ensures !Accepts(org, ChangeRole(manager, owner, CASHIER)) && !Accepts(org, Reactivate(manager, owner))
    ensures Step(org, Invite(manager, owner, CASHIER)).members[owner].role == CASHIER
  {
  }

  // ---- The member sheet -------------------------------------------------------------------------------

  // The sheet lets the role be selected, and the selection be sent; it goes by the session's role.
  predicate RoleChangeOffered(org: Org, actor: Actor, user: UserId, role: Role)
    requires user in org.members
  {
    var member := org.members[user];
    && user != actor.id && (CanManageMember(actor.role, member.role) || actor.role == OWNER)
    && CanAssignRole(actor.role, role) && member.role != role
  }

  predicate DeactivateOffered(org: Org, actor: Actor, user: UserId)
    requires user in org.members
  {
    var member := org.members[user];
    member.status != DEACTIVATED && user != actor.id && (actor.role == OWNER || Tier(actor.role) < Tier(member.role))
  }

  predicate ReactivateOffered(org: Org, user: UserId)
    requires user in org.members
  {
    org.members[user].status == DEACTIVATED
  }

  // An owner with no other active owner beside.
  predicate LoneOwner(org: Org, user: UserId)
    requires user in org.members
  {
    org.members[user].role == OWNER && !OtherActiveOwner(org, user)
  }

  /**
   * The sheet offers exactly the role changes and deactivations the service accepts,
   * except those of a lone owner under an OWNER role that is no longer the actor's.
   */
  lemma SheetMirrorsService(org: Org, actor: Actor, user: UserId, role: Role)
    requires CanAccessTeam(actor.role) && user in org.members
    ensures Accepts(org, ChangeRole(actor, user, role)) && org.members[user].role != role ==>
            RoleChangeOffered(org, actor, user, role)
    ensures RoleChangeOffered(org, actor, user, role) && !Accepts(org, ChangeRole(actor, user, role)) <==>
            actor.role == OWNER && user != actor.id && role != OWNER && LoneOwner(org, user)
    ensures Accepts(org, Deactivate(actor, user)) && org.members[user].status != DEACTIVATED ==>
            DeactivateOffered(org, actor, user)
    ensures DeactivateOffered(org, actor, user) && !Accepts(org, Deactivate(actor, user)) <==>
            actor.role == OWNER && user != actor.id && org.members[user].status != DEACTIVATED && LoneOwner(org, user)
    ensures user != actor.id && LoneOwner(org, user) ==> !ActiveOwner(org, actor.id)
  {
    if ActiveOwner(org, actor.id) && user != actor.id { CurrentOwnerPasses(org, actor.id, user); }
  }

  /** Reactivation is offered for every deactivated member, and refused when a manager asks for an owner or manager. */
  lemma ReactivationOffered(org: Org, actor: Actor, user: UserId)
    requires CanAccessTeam(actor.role) && user in org.members
    ensures ReactivateOffered(org, user) && !Accepts(org, Reactivate(actor, user)) <==>
            org.members[user].status == DEACTIVATED && actor.role == MANAGER && CanAccessTeam(org.members[user].role)
  {
  }
}
