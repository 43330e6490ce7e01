/** The two aggregates as objects whose handlers update their state in place. */
module MembershipAggregates {
  import opened Wrappers
  import opened Membership

  function IndexOf(emails: seq<nat>, email: nat): (i: nat)
    ensures i <= |emails|
    ensures i < |emails| ==> emails[i] == email
    ensures email !in emails[..i]
  {
    if emails == [] || emails[0] == email then 0
    else var i := 1 + IndexOf(emails[1..], email);
      assert emails[..i] == [emails[0]] + emails[1..][..i - 1];
      i
  }

  /** Splicing out what `indexOf` finds removes the first occurrence and nothing else. */
  lemma {:induction false} SpliceDrops(emails: seq<nat>, email: nat)
    ensures var i := IndexOf(emails, email);
      Dropped(emails, email) == if i < |emails| then emails[..i] + emails[i+1..] else emails
  {
    if emails == [] || emails[0] == email {
    } else {
      SpliceDrops(emails[1..], email);
      var i := IndexOf(emails[1..], email);
      assert IndexOf(emails, email) == i + 1;
      assert Dropped(emails, email) == [emails[0]] + Dropped(emails[1..], email);
      hide IndexOf, Dropped;
      if i < |emails[1..]| {
        SpliceBehind(emails, i);
      }
    }
  }

  lemma SpliceBehind(emails: seq<nat>, i: nat)
    requires i + 1 < |emails|
    ensures emails[..i+1] + emails[i+2..] == [emails[0]] + (emails[1..][..i] + emails[1..][i+1..])
  {
  }

  class GroupAggregate {
    var members: seq<Member>
    var invitations: seq<nat>

    /** Creation: the creator joins as admin. */
    constructor (creator: Person)
      ensures State() == Create(creator).group
    {
      members, invitations := [], [];
      new;
      Apply(Joined(creator, Admin));
    }

    ghost function State(): Group
      reads this
    {
      Group(members, invitations)
    }

    method DropInvitation(email: nat)
      modifies this`invitations
      ensures invitations == Dropped(old(invitations), email)
    {
      SpliceDrops(invitations, email);
      var index := IndexOf(invitations, email);
      if index < |invitations| {
        invitations := invitations[..index] + invitations[index+1..];
      }
    }

    method OnNominated(uid: nat, newRole: Role)
      modifies this`members
      ensures State() == ApplyGroup(old(State()), Nominated(uid, newRole))
    {
      var i := Find(members, uid);
      if i < |members| {
        members := members[i := members[i].(request := Some(Nomination))];
      }
    }

    method OnNominationAccepted(uid: nat)
      modifies this`members
      ensures State() == ApplyGroup(old(State()), NominationAccepted(uid))
    {
      var i := Find(members, uid);
      if i < |members| && members[i].request == Some(Nomination) {
        members := members[i := members[i].(role := Admin)];
        members := members[i := members[i].(request := None)];
      }
    }

    /** Declined by the member, or removed by an admin. */
    method OnNominationDropped(uid: nat)
      modifies this`members
      ensures State() == ApplyGroup(old(State()), NominationDeclined(uid))
      ensures State() == ApplyGroup(old(State()), NominationRemoved(uid))
    {
      var i := Find(members, uid);
      if i < |members| && members[i].request == Some(Nomination) {
        members := members[i := members[i].(request := None)];
      }
    }

    method OnRevokationRequested(uid: nat, newRole: Role, at: int)
      modifies this`members
      ensures State() == ApplyGroup(old(State()), RevokationRequested(uid, newRole, at))
    {
      var i := FindAdmin(members, uid);
      if i < |members| {
        members := members[i := members[i].(request := Some(Revokation(newRole, at)))];
      }
    }

    method OnRevokationAccepted(uid: nat)
      modifies this`members
      ensures State() == ApplyGroup(old(State()), RevokationAccepted(uid))
    {
      var i := Find(members, uid);
      if i < |members| {
        match members[i].request
        case Some(Revokation(newRole, _)) =>
          if !newRole.Empty? {
            members := members[i := members[i].(role := newRole)];
            members := members[i := members[i].(request := None)];
          }
        case _ =>
      }
    }

    method OnRevokationDropped(uid: nat)
      modifies this`members
      ensures State() == ApplyGroup(old(State()), RevokationDeclined(uid))
      ensures State() == ApplyGroup(old(State()), RevokationRemoved(uid))
    {
      var i := Find(members, uid);
      if i < |members| && members[i].request.Some? && members[i].request.value.Revokation? {
        members := members[i := members[i].(request := None)];
      }
    }

    method Apply(e: Event)
      modifies this
      ensures State() == ApplyGroup(old(State()), e)
    {
      match e
      case Invited(email) => invitations := invitations + [email];
      case Uninvited(email) => DropInvitation(email);
      case Refused(email) => DropInvitation(email);
      case Joined(member, role) =>
        members := members + [Member(member, role, None)];
        DropInvitation(member.email);
      case Left(uid) => members := Without(members, uid);
      case Removed(uid) => members := Without(members, uid);
      case Nominated(uid, newRole) => OnNominated(uid, newRole);
      case NominationAccepted(uid) => OnNominationAccepted(uid);
      case NominationDeclined(uid) => OnNominationDropped(uid);
      case NominationRemoved(uid) => OnNominationDropped(uid);
      case RevokationRequested(uid, newRole, at) => OnRevokationRequested(uid, newRole, at);
      case RevokationAccepted(uid) => OnRevokationAccepted(uid);
      case RevokationDeclined(uid) => OnRevokationDropped(uid);
      case RevokationRemoved(uid) => OnRevokationDropped(uid);
    }

    /** A command of the groups service: refused by its guard, or one event applied. */
    method Execute(c: Command) returns (event: Option<Event>)
      modifies this
      ensures event == Handle(old(State()), c)
      ensures State() == if event.Some? then ApplyGroup(old(State()), event.value) else old(State())
    {
      event := Handle(Group(members, invitations), c);
      if event.Some? {
        Apply(event.value);
      }
    }
  }

  class UserAggregate {
    /** The entries by group id. */
    var groups: map<nat, Entry>

    constructor ()
      ensures groups == map[]
    {
      groups := map[];
    }

    /** Only the entry of the event's group changes. */
    method Apply(groupId: nat, e: Event)
      modifies this
      ensures EntryOf(groups, groupId) == ApplyUser(EntryOf(old(groups), groupId), e)
      ensures groups - {groupId} == old(groups) - {groupId}
    {
      if e.Joined? {
        groups := groups[groupId := if groupId in groups then groups[groupId].(role := e.role)
          else Entry(e.role, None, None)];
      } else if e.Left? || e.Removed? {
        groups := groups - {groupId};
      } else if groupId in groups {
        var entry := groups[groupId];
        match e {
          case Nominated(_, newRole) => if entry.role != newRole { entry := entry.(nominated := Some(newRole)); }
          case NominationAccepted(_) =>
            if entry.nominated.Some? && !entry.nominated.value.Empty? {
              entry := entry.(role := entry.nominated.value);
              entry := entry.(nominated := None);
            }
          case NominationDeclined(_) => entry := entry.(nominated := None);
          case NominationRemoved(_) => entry := entry.(nominated := None);
          case RevokationRequested(_, newRole, _) =>
            if entry.role != newRole { entry := entry.(revokation := Some(newRole)); }
          case RevokationAccepted(_) =>
            if entry.revokation.Some? && !entry.revokation.value.Empty? {
              entry := entry.(role := entry.revokation.value);
              entry := entry.(revokation := None);
            }
          case RevokationDeclined(_) => entry := entry.(revokation := None);
          case RevokationRemoved(_) => entry := entry.(revokation := None);
          case _ =>
        }
        groups := groups[groupId := entry];
      }
    }
  }

  /** The event reaches the user it is sent to; other users and the entries of other groups are not touched. */
  method SendTo(users: map<nat, UserAggregate>, uid: nat, groupId: nat, e: Event)
    requires forall one <- users, other <- users :: users[one] == users[other] ==> one == other
    requires Receiver(e) == Some(uid) && uid in users
    modifies users[uid]
    ensures Entries(users, groupId) == Deliver(old(Entries(users, groupId)), e)
    ensures forall other: nat :: other != groupId ==> Entries(users, other) == old(Entries(users, other))
  {
    hide ApplyUser, Deliver;
    ghost var before := Entries(users, groupId);
    users[uid].Apply(groupId, e);
    SameEntries(users, groupId, before, e);
    forall other: nat | other != groupId ensures Entries(users, other) == old(Entries(users, other)) {
      OtherGroup(users[uid].groups, old(users[uid].groups), groupId, other);
    }
  }

  /** One command with its delivery: the group and the user the event concerns move as the serial model says, so the
      two stay in step; users other than the one it is sent to are not touched, nor are the entries of other groups. */
  method Serve(group: GroupAggregate, groupId: nat, users: map<nat, UserAggregate>, c: Command)
    requires forall uid <- users, other <- users :: users[uid] == users[other] ==> uid == other
    requires Handle(group.State(), c).Some? && Receiver(Handle(group.State(), c).value).Some? ==>
               Receiver(Handle(group.State(), c).value).value in users
    modifies group, users.Values
    ensures var w := World(old(group.State()), old(Entries(users, groupId)));
      && group.State() == Membership.Execute(w, c).group && Entries(users, groupId) == Membership.Execute(w, c).users
    ensures forall other: nat :: other != groupId ==> Entries(users, other) == old(Entries(users, other))
    ensures forall uid <- users :: Addressee(old(group.State()), c) != Some(uid) ==>
      users[uid].groups == old(users[uid].groups)
  {
    hide Handle, ApplyGroup;
    ghost var before := Entries(users, groupId);
    var event := group.Execute(c);
    assert Entries(users, groupId) == before;
    if event.Some? && Receiver(event.value).Some? {
      hide Receiver;
      SendTo(users, Receiver(event.value).value, groupId, event.value);
    }
  }

  /** The user the event of a command is sent to. */
  function Addressee(g: Group, c: Command): Option<nat> {
    var e := Handle(g, c);
    if e.Some? then Receiver(e.value) else None
  }

  lemma OtherGroup(after: map<nat, Entry>, before: map<nat, Entry>, groupId: nat, other: nat)
    requires after - {groupId} == before - {groupId} && other != groupId
    ensures EntryOf(after, other) == EntryOf(before, other)
  {
    assert EntryOf(after - {groupId}, other) == EntryOf(before - {groupId}, other);
  }

  /** The entries the users hold for one group. */
  ghost function Entries(users: map<nat, UserAggregate>, groupId: nat): map<nat, Entry>
    reads users.Values
  {
    map uid | uid in users && groupId in users[uid].groups :: users[uid].groups[groupId]
  }

  lemma SameEntries(users: map<nat, UserAggregate>, groupId: nat, before: map<nat, Entry>, e: Event)
    requires Receiver(e).Some? && Receiver(e).value in users
    requires forall uid <- users :: uid != Receiver(e).value ==>
      EntryOf(users[uid].groups, groupId) == EntryOf(before, uid)
    requires forall uid <- before :: uid in users
    requires EntryOf(users[Receiver(e).value].groups, groupId) == ApplyUser(EntryOf(before, Receiver(e).value), e)
    ensures Entries(users, groupId) == Deliver(before, e)
  {
    forall uid: nat ensures EntryOf(Entries(users, groupId), uid) == EntryOf(Deliver(before, e), uid) {
      if uid in users {
        assert EntryOf(Entries(users, groupId), uid) == EntryOf(users[uid].groups, groupId);
      }
    }
    var after, delivered := Entries(users, groupId), Deliver(before, e);
    forall uid | uid in after || uid in delivered
      ensures uid in after && uid in delivered && after[uid] == delivered[uid] {
      assert EntryOf(after, uid) == EntryOf(delivered, uid);
    }
  }
}
