/** Group and user aggregates: two projections of one stream of membership events. */
module Membership {
  import opened Wrappers

  /** Roles are strings; only "admin" and the empty string are treated specially. */
  datatype Role = Admin | Named(name: nat) | Empty

  datatype Person = Person(uid: nat, email: nat)

  /** The one slot a group member has for a pending request. */
  datatype Request = Nomination | Revokation(newRole: Role, at: int)

  datatype Member = Member(user: Person, role: Role, request: Option<Request>)

  /** The entry of a group in a user: two slots, one for each kind of request. */
  datatype Entry = Entry(role: Role, nominated: Option<Role>, revokation: Option<Role>)

  datatype Event =
    | Invited(email: nat) | Uninvited(email: nat) | Refused(email: nat)
    | Joined(member: Person, role: Role) | Left(uid: nat) | Removed(uid: nat)
    | Nominated(uid: nat, newRole: Role) | NominationAccepted(uid: nat)
    | NominationDeclined(uid: nat) | NominationRemoved(uid: nat)
    | RevokationRequested(uid: nat, newRole: Role, at: int) | RevokationAccepted(uid: nat)
    | RevokationDeclined(uid: nat) | RevokationRemoved(uid: nat)

  /** `caller` is the calling user. The email and the role of a join come from the signed invitation, which need not
      belong to the joining user. */
  datatype Command =
    | Invite(caller: Person, email: nat) | Uninvite(caller: Person, email: nat) | Refuse(email: nat)
    | Join(caller: Person, invited: nat, role: Role) | Leave(caller: Person) | Remove(caller: Person, uid: nat)
    | Nominate(caller: Person, uid: nat) | RemoveNomination(caller: Person, uid: nat)
    | AcceptNomination(caller: Person) | DeclineNomination(caller: Person)
    | Revoke(caller: Person, uid: nat, newRole: Role, now: int) | RemoveRevokation(caller: Person, uid: nat)
    | AcceptRevokation(caller: Person) | DeclineRevokation(caller: Person)

  datatype Group = Group(members: seq<Member>, invitations: seq<nat>)

  const FOURTEEN_DAYS := 14 * 24 * 60 * 60 * 1000

  // ---- queries ----

  /** `members.find`: the position of the first member with this uid, |members| if there is none. */
  function Find(members: seq<Member>, uid: nat): (i: nat)
    ensures i <= |members|
    ensures i < |members| ==> members[i].user.uid == uid
    ensures forall j :: 0 <= j < i ==> members[j].user.uid != uid
  {
    if members == [] || members[0].user.uid == uid then 0 else 1 + Find(members[1..], uid)
  }

  function FindAdmin(members: seq<Member>, uid: nat): (i: nat)
    ensures i <= |members|
    ensures i < |members| ==> members[i].user.uid == uid && members[i].role.Admin?
    ensures forall j :: 0 <= j < i ==> members[j].user.uid != uid || !members[j].role.Admin?
  {
    if members == [] || (members[0].user.uid == uid && members[0].role.Admin?) then 0
    else 1 + FindAdmin(members[1..], uid)
  }

  function MemberOf(members: seq<Member>, uid: nat): Option<Member> {
    var i := Find(members, uid);
    if i < |members| then Some(members[i]) else None
  }

  predicate IsMember(g: Group, uid: nat) { MemberOf(g.members, uid).Some? }

  predicate IsAdmin(g: Group, uid: nat) { FindAdmin(g.members, uid) < |g.members| }

  predicate IsLastAdmin(g: Group, uid: nat) {
    forall i :: 0 <= i < |g.members| && g.members[i].user.uid != uid ==> !g.members[i].role.Admin?
  }

  // ---- event handlers ----

  function Without(members: seq<Member>, uid: nat): seq<Member> {
    if members == [] then []
    else (if members[0].user.uid == uid then [] else [members[0]]) + Without(members[1..], uid)
  }

  /** `indexOf` and `splice`: removes the first occurrence. */
  function Dropped(emails: seq<nat>, email: nat): seq<nat> {
    if emails == [] then [] else if emails[0] == email then emails[1..] else [emails[0]] + Dropped(emails[1..], email)
  }

  /** The slot of a member after an event; the member is the first one with the uid. */
  function Answered(m: Member, e: Event): Member {
    match e
    case Nominated(_, _) => m.(request := Some(Nomination))
    case NominationAccepted(_) => if m.request == Some(Nomination) then m.(role := Admin, request := None) else m
    case NominationDeclined(_) => if m.request == Some(Nomination) then m.(request := None) else m
    case NominationRemoved(_) => if m.request == Some(Nomination) then m.(request := None) else m
    case RevokationAccepted(_) =>
      if m.request.Some? && m.request.value.Revokation? && !m.request.value.newRole.Empty?
      then m.(role := m.request.value.newRole, request := None) else m
    case RevokationDeclined(_) => if m.request.Some? && m.request.value.Revokation? then m.(request := None) else m
    case RevokationRemoved(_) => if m.request.Some? && m.request.value.Revokation? then m.(request := None) else m
    case _ => m
  }

  function ApplyGroup(g: Group, e: Event): Group {
    match e
    case Invited(email) => g.(invitations := g.invitations + [email])
    case Uninvited(email) => g.(invitations := Dropped(g.invitations, email))
    case Refused(email) => g.(invitations := Dropped(g.invitations, email))
    case Joined(member, role) => Group(g.members + [Member(member, role, None)], Dropped(g.invitations, member.email))
    case Left(uid) => g.(members := Without(g.members, uid))
    case Removed(uid) => g.(members := Without(g.members, uid))
    case RevokationRequested(uid, newRole, at) =>
      var i := FindAdmin(g.members, uid);
      if i < |g.members| then g.(members := g.members[i := g.members[i].(request := Some(Revokation(newRole, at)))])
      else g
    case _ =>
      var i := Find(g.members, e.uid);
      if i < |g.members| then g.(members := g.members[i := Answered(g.members[i], e)]) else g
  }

  /** What the event does to the entry of this group in the user it is sent to. */
  function ApplyUser(entry: Option<Entry>, e: Event): Option<Entry> {
    match e
    case Joined(_, role) => Some(if entry.Some? then entry.value.(role := role) else Entry(role, None, None))
    case Left(_) => None
    case Removed(_) => None
    case Nominated(_, newRole) =>
      if entry.Some? && entry.value.role != newRole then Some(entry.value.(nominated := Some(newRole))) else entry
    case NominationAccepted(_) =>
      if entry.Some? && entry.value.nominated.Some? && !entry.value.nominated.value.Empty?
      then Some(entry.value.(role := entry.value.nominated.value, nominated := None)) else entry
    case NominationDeclined(_) => if entry.Some? then Some(entry.value.(nominated := None)) else entry
    case NominationRemoved(_) => if entry.Some? then Some(entry.value.(nominated := None)) else entry
    case RevokationRequested(_, newRole, _) =>
      if entry.Some? && entry.value.role != newRole then Some(entry.value.(revokation := Some(newRole))) else entry
    case RevokationAccepted(_) =>
      if entry.Some? && entry.value.revokation.Some? && !entry.value.revokation.value.Empty?
      then Some(entry.value.(role := entry.value.revokation.value, revokation := None)) else entry
    case RevokationDeclined(_) => if entry.Some? then Some(entry.value.(revokation := None)) else entry
    case RevokationRemoved(_) => if entry.Some? then Some(entry.value.(revokation := None)) else entry
    case _ => entry
  }

  /** The user a membership event is sent to; invitations go by email and do not touch groups. */
  function Receiver(e: Event): Option<nat> {
    match e
    case Invited(_) => None
    case Uninvited(_) => None
    case Refused(_) => None
    case Joined(member, _) => Some(member.uid)
    case _ => Some(e.uid)
  }

  // ---- command handlers ----

  /** The event a command leads to, None where its guard throws. */
  function Handle(g: Group, c: Command): Option<Event> {
    match c
    case Invite(caller, email) => if IsAdmin(g, caller.uid) then Some(Invited(email)) else None
    case Uninvite(caller, email) =>
      if IsAdmin(g, caller.uid) && email in g.invitations then Some(Uninvited(email)) else None
    case Refuse(email) => Some(Refused(email))
    case Join(caller, invited, role) => if invited in g.invitations then Some(Joined(caller, role)) else None
    case Leave(caller) =>
      if IsMember(g, caller.uid) && !IsLastAdmin(g, caller.uid) then Some(Left(caller.uid)) else None
    case Remove(caller, uid) =>
      if IsAdmin(g, caller.uid) && IsMember(g, uid) && !IsAdmin(g, uid) then Some(Removed(uid)) else None
    case Nominate(caller, uid) =>
      var m := MemberOf(g.members, uid);
      if IsAdmin(g, caller.uid) && m.Some? && !m.value.role.Admin? then Some(Nominated(uid, Admin)) else None
    // the negation binds tighter than the comparison: any request passes the guards of the next three
    case RemoveNomination(caller, uid) =>
      if IsAdmin(g, caller.uid) && IsMember(g, uid) then Some(NominationRemoved(uid)) else None
    case AcceptNomination(caller) =>
      var m := MemberOf(g.members, caller.uid);
      if m.Some? && m.value.request.Some? then Some(NominationAccepted(caller.uid)) else None
    case DeclineNomination(caller) =>
      var m := MemberOf(g.members, caller.uid);
      if m.Some? && m.value.request.Some? then Some(NominationDeclined(caller.uid)) else None
    case Revoke(caller, uid, newRole, now) =>
      var m := MemberOf(g.members, uid);
      if newRole.Admin? || !IsAdmin(g, caller.uid) || m.None? || !m.value.role.Admin? then None
      else if !(m.value.request.Some? && m.value.request.value.Revokation?)
        then Some(RevokationRequested(uid, newRole, now))
      // accepted after 14 days, but for the caller
      else if m.value.request.value.at < now - FOURTEEN_DAYS then Some(RevokationAccepted(caller.uid)) else None
    case RemoveRevokation(caller, uid) =>
      var m := MemberOf(g.members, uid);
      if IsAdmin(g, caller.uid) && m.Some? && m.value.request.Some?
        && m.value.request.value.Revokation? then Some(RevokationRemoved(uid)) else None
    case AcceptRevokation(caller) =>
      var m := MemberOf(g.members, caller.uid);
      if m.Some? && m.value.request.Some? && m.value.request.value.Revokation? then Some(RevokationAccepted(caller.uid))
      else None
    case DeclineRevokation(caller) =>
      var m := MemberOf(g.members, caller.uid);
      if m.Some? && m.value.request.Some? && m.value.request.value.Revokation? then Some(RevokationDeclined(caller.uid))
      else None
  }

  /** A group and the users' entries for it. A serial run: each event reaches its user before the next command. */
  datatype World = World(group: Group, users: map<nat, Entry>)

  function EntryOf(users: map<nat, Entry>, uid: nat): Option<Entry> {
    if uid in users then Some(users[uid]) else None
  }

  function Deliver(users: map<nat, Entry>, e: Event): map<nat, Entry> {
    var uid := Receiver(e);
    if uid.None? then users else
    var entry := ApplyUser(EntryOf(users, uid.value), e);
    if entry.Some? then users[uid.value := entry.value] else users - {uid.value}
  }

  function Happen(w: World, e: Event): World { World(ApplyGroup(w.group, e), Deliver(w.users, e)) }

  function Execute(w: World, c: Command): World {
    var e := Handle(w.group, c);
    if e.Some? then Happen(w, e.value) else w
  }

  /** Creation: the creator joins as admin. */
  function Create(creator: Person): World {
    Happen(World(Group([], []), map[]), Joined(creator, Admin))
  }

  function Run(w: World, commands: seq<Command>): World {
    if commands == [] then w else Execute(Run(w, commands[..|commands|-1]), commands[|commands|-1])
  }

  // ---- the projections agree ----

  /** Same membership, same role, the same requests pending. */
  ghost predicate Agree(m: Option<Member>, entry: Option<Entry>) {
    && (m.Some? <==> entry.Some?)
    && (m.Some? ==>
          && entry.value.role == m.value.role
          && entry.value.nominated == (if m.value.request == Some(Nomination) then Some(Admin) else None)
          && entry.value.revokation ==
             (if m.value.request.Some? && m.value.request.value.Revokation? then Some(m.value.request.value.newRole)
               else None))
  }

  ghost predicate InStep(w: World) {
    forall uid: nat :: Agree(MemberOf(w.group.members, uid), EntryOf(w.users, uid))
  }

  /** Only an admin has a revokation pending, and never one to admin; only a non-admin has a nomination pending. */
  ghost predicate Sound(m: Member) {
    match m.request
    case None => true
    case Some(Nomination) => !m.role.Admin?
    case Some(Revokation(newRole, _)) => m.role.Admin? && !newRole.Admin?
  }

  ghost predicate Requests(g: Group) { forall m <- g.members :: Sound(m) }

  lemma {:induction false} WithoutKeeps(members: seq<Member>, gone: nat)
    ensures forall m :: m in Without(members, gone) <==> m in members && m.user.uid != gone
  {
    if members != [] {
      WithoutKeeps(members[1..], gone);
      assert members == [members[0]] + members[1..];
    }
  }

  lemma {:induction false} WithoutFind(members: seq<Member>, gone: nat, uid: nat)
    ensures MemberOf(Without(members, gone), uid) == if uid == gone then None else MemberOf(members, uid)
  {
    if members != [] {
      WithoutFind(members[1..], gone, uid);
      var rest := Without(members[1..], gone);
      if members[0].user.uid != gone {
        assert Without(members, gone) == [members[0]] + rest && ([members[0]] + rest)[1..] == rest;
      } else {
        assert Without(members, gone) == rest;
      }
      hide Without;
    }
  }

  lemma AppendFind(members: seq<Member>, m: Member, uid: nat)
    ensures MemberOf(members + [m], uid) ==
      if MemberOf(members, uid).Some? then MemberOf(members, uid) else if m.user.uid == uid then Some(m) else None
  {
    var i, j := Find(members, uid), Find(members + [m], uid);
    if i < |members| {
      assert (members + [m])[i].user.uid == uid;
    }
    assert (members + [m])[|members|] == m;
    if j < |members| {
      assert (members + [m])[j] == members[j];
    }
  }

  lemma UpdateFind(members: seq<Member>, i: nat, m: Member, uid: nat)
    requires i < |members| && m.user.uid == members[i].user.uid && i == Find(members, m.user.uid)
    ensures MemberOf(members[i := m], uid) == if uid == m.user.uid then Some(m) else MemberOf(members, uid)
  {
    var j, k := Find(members, uid), Find(members[i := m], uid);
    if k < |members| { assert members[k].user.uid == uid; }
    if j < |members| { assert members[i := m][j].user.uid == uid; }
  }

  /** A member may have joined more than once; where the first entry is an admin, both searches find it. */
  lemma FindAdminIsFind(g: Group, uid: nat)
    requires MemberOf(g.members, uid).Some? && MemberOf(g.members, uid).value.role.Admin?
    ensures FindAdmin(g.members, uid) == Find(g.members, uid)
  {
    var i, j := Find(g.members, uid), FindAdmin(g.members, uid);
  }

  /** The event answers a request of one member, in a way that the guards let through. */
  ghost predicate Allowed(g: Group, e: Event) {
    match e
    case Joined(member, _) => MemberOf(g.members, member.uid).None?
    case Nominated(uid, newRole) =>
      newRole.Admin? && MemberOf(g.members, uid).Some? && !MemberOf(g.members, uid).value.role.Admin?
    case RevokationRequested(uid, newRole, _) =>
      && !newRole.Admin? && MemberOf(g.members, uid).Some? && MemberOf(g.members, uid).value.role.Admin?
    case _ => true
  }

  /** What becomes of a member an event is sent to. */
  function NextMember(before: Option<Member>, e: Event): Option<Member>
    requires e.RevokationRequested? ==> before.Some?
  {
    match e
    case Joined(member, role) => Some(Member(member, role, None))
    case Left(_) => None
    case Removed(_) => None
    case RevokationRequested(_, newRole, at) => Some(before.value.(request := Some(Revokation(newRole, at))))
    case _ => if before.Some? then Some(Answered(before.value, e)) else None
  }

  /** What an event does to the first member with a uid: nothing unless it is the receiver. */
  lemma GroupEffect(g: Group, e: Event, uid: nat)
    requires Allowed(g, e)
    ensures var before, after := MemberOf(g.members, uid), MemberOf(ApplyGroup(g, e).members, uid);
      after == if Receiver(e) != Some(uid) then before else NextMember(before, e)
  {
    hide Find, FindAdmin, Without;
    match e
    case Invited(_) =>
    case Uninvited(_) =>
    case Refused(_) =>
    case Joined(member, role) => AppendFind(g.members, Member(member, role, None), uid);
    case Left(gone) => WithoutFind(g.members, gone, uid);
    case Removed(gone) => WithoutFind(g.members, gone, uid);
    case RevokationRequested(target, newRole, at) =>
      FindAdminIsFind(g, target);
      var i := FindAdmin(g.members, target);
      assert i < |g.members|;
      UpdateFind(g.members, i, g.members[i].(request := Some(Revokation(newRole, at))), uid);
    case _ =>
      var i := Find(g.members, e.uid);
      if i < |g.members| {
        UpdateFind(g.members, i, Answered(g.members[i], e), uid);
      }
  }

  lemma AgreeStep(m: Option<Member>, entry: Option<Entry>, e: Event)
    requires Agree(m, entry) && (m.Some? ==> Sound(m.value)) && Receiver(e).Some?
    requires e.Joined? ==> m.None?
    requires e.Nominated? ==> m.Some? && e.newRole.Admin? && !m.value.role.Admin?
    requires e.RevokationRequested? ==> m.Some? && m.value.role.Admin? && !e.newRole.Admin?
    ensures Agree(NextMember(m, e), ApplyUser(entry, e))
  {
  }

  /** What an event does to the entries: nothing but to the receiver's. */
  lemma UserEffect(users: map<nat, Entry>, e: Event, uid: nat)
    ensures EntryOf(Deliver(users, e), uid) == if Receiver(e) == Some(uid) then ApplyUser(EntryOf(users, uid), e)
      else EntryOf(users, uid)
  {
    hide ApplyUser;
  }

  lemma AgreeAfter(w: World, e: Event, uid: nat)
    requires Requests(w.group) && InStep(w) && Allowed(w.group, e)
    ensures Agree(MemberOf(ApplyGroup(w.group, e).members, uid), EntryOf(Deliver(w.users, e), uid))
  {
    GroupEffect(w.group, e, uid);
    UserEffect(w.users, e, uid);
    assert Agree(MemberOf(w.group.members, uid), EntryOf(w.users, uid));
    assert MemberOf(w.group.members, uid).Some? ==> MemberOf(w.group.members, uid).value in w.group.members;
    hide ApplyGroup, ApplyUser, Deliver, Agree, NextMember;
    if Receiver(e) == Some(uid) {
      AgreeStep(MemberOf(w.group.members, uid), EntryOf(w.users, uid), e);
    }
  }

  lemma HappenKeepsStep(w: World, e: Event)
    requires Requests(w.group) && InStep(w) && Allowed(w.group, e)
    ensures InStep(Happen(w, e))
  {
    hide ApplyGroup, Deliver, Agree, Requests, Allowed;
    forall uid: nat ensures Agree(MemberOf(Happen(w, e).group.members, uid), EntryOf(Happen(w, e).users, uid)) {
      AgreeAfter(w, e, uid);
    }
  }

  lemma GuardsAllow(g: Group, c: Command)
    requires Handle(g, c).Some? && (c.Join? ==> !IsMember(g, c.caller.uid))
    ensures Allowed(g, Handle(g, c).value)
  {
  }

  /** Joining while already a member keeps the two in step exactly when the role is the one the member has: the
      group goes on reading the old entry, the user the new one. */
  lemma SecondJoinAgreesIff(w: World, user: Person, role: Role)
    requires InStep(w) && IsMember(w.group, user.uid)
    ensures InStep(Happen(w, Joined(user, role))) <==> MemberOf(w.group.members, user.uid).value.role == role
  {
    var next := Happen(w, Joined(user, role));
    forall uid: nat
      ensures MemberOf(next.group.members, uid) == MemberOf(w.group.members, uid)
      ensures uid != user.uid ==> EntryOf(next.users, uid) == EntryOf(w.users, uid)
    {
      AppendFind(w.group.members, Member(user, role, None), uid);
    }
    assert Agree(MemberOf(w.group.members, user.uid), EntryOf(w.users, user.uid));
    assert EntryOf(next.users, user.uid).value.role == role;
    if MemberOf(w.group.members, user.uid).value.role == role {
      assert EntryOf(next.users, user.uid) == EntryOf(w.users, user.uid);
      forall uid: nat ensures Agree(MemberOf(next.group.members, uid), EntryOf(next.users, uid)) {
        assert Agree(MemberOf(w.group.members, uid), EntryOf(w.users, uid));
      }
    } else {
      assert !Agree(MemberOf(next.group.members, user.uid), EntryOf(next.users, user.uid));
    }
  }

  /** The command does not let a member join again with another role than the one it has. */
  ghost predicate JoinAgrees(g: Group, c: Command) {
    c.Join? && Handle(g, c).Some? && IsMember(g, c.caller.uid) ==>
      MemberOf(g.members, c.caller.uid).value.role == c.role
  }

  ghost predicate JoinsAgree(w: World, commands: seq<Command>) {
    commands == [] ||
    var init := commands[..|commands|-1];
    JoinsAgree(w, init) && JoinAgrees(Run(w, init).group, commands[|commands|-1])
  }

  /** In step at the start and after each command. */
  ghost predicate AlwaysInStep(w: World, commands: seq<Command>) {
    InStep(Run(w, commands)) && (commands != [] ==> AlwaysInStep(w, commands[..|commands|-1]))
  }

  lemma CommandKeepsStepIff(w: World, c: Command)
    requires Requests(w.group) && InStep(w)
    ensures Requests(Execute(w, c).group)
    ensures InStep(Execute(w, c)) <==> JoinAgrees(w.group, c)
  {
    if Handle(w.group, c).Some? {
      var e := Handle(w.group, c).value;
      GuardsPermit(w.group, c);
      RequestsKept(w.group, e);
      if c.Join? && IsMember(w.group, c.caller.uid) {
        hide InStep, Requests;
        SecondJoinAgreesIff(w, c.caller, c.role);
      } else {
        GuardsAllow(w.group, c);
        hide Handle, InStep, Requests, Permitted, Allowed, ApplyGroup;
        HappenKeepsStep(w, e);
      }
    }
  }

  /** For every serial run of membership commands from creation: the group's members and the users' entries agree after
      each of them exactly if nobody joins again with another role than the one they have; whoever joins twice with
      the same role, they stay in step. */
  lemma {:induction false} ProjectionsStayInStepIff(creator: Person, commands: seq<Command>)
    ensures AlwaysInStep(Create(creator), commands) <==> JoinsAgree(Create(creator), commands)
    ensures Requests(Run(Create(creator), commands).group)
  {
    hide InStep, Requests, JoinAgrees, Execute;
    if commands == [] {
      CreatedInStep(creator);
    } else {
      var init, c := commands[..|commands|-1], commands[|commands|-1];
      ProjectionsStayInStepIff(creator, init);
      var w := Run(Create(creator), init);
      RequestsOfCommand(w, c);
      if AlwaysInStep(Create(creator), init) {
        CommandKeepsStepIff(w, c);
      }
    }
  }

  lemma RequestsOfCommand(w: World, c: Command)
    requires Requests(w.group)
    ensures Requests(Execute(w, c).group)
  {
    if Handle(w.group, c).Some? {
      GuardsPermit(w.group, c);
      RequestsKept(w.group, Handle(w.group, c).value);
      hide Handle, Requests;
    }
  }

  lemma CreatedInStep(creator: Person)
    ensures InStep(Create(creator)) && Requests(Create(creator).group)
  {
    HappenKeepsStep(World(Group([], []), map[]), Joined(creator, Admin));
    assert Create(creator).group.members == [Member(creator, Admin, None)];
  }

  // ---- what the guards let through ----

  /** The nomination guards compare a negation with a string and let any request through: such a command leaves the
      members as they are exactly if the pending request is not a nomination. */
  lemma NominationGuardsIgnoreKind(g: Group, c: Command, uid: nat)
    requires c.RemoveNomination? || c.AcceptNomination? || c.DeclineNomination?
    requires Handle(g, c).Some? && uid == (if c.RemoveNomination? then c.uid else c.caller.uid)
    ensures MemberOf(g.members, uid).Some?
    ensures ApplyGroup(g, Handle(g, c).value).members == g.members
            <==> MemberOf(g.members, uid).value.request != Some(Nomination)
  {
    var i := Find(g.members, uid);
    var changed := Answered(g.members[i], Handle(g, c).value);
    assert ApplyGroup(g, Handle(g, c).value).members == g.members[i := changed];
    hide ApplyGroup, Handle, Find;
    assert g.members[i := changed][i] == changed;
    assert changed == g.members[i] ==> g.members[i := changed] == g.members;
  }

  /** A revokation requested again after 14 days is accepted for the caller: the admin it was requested for loses the
      role exactly if it is the caller and the pending role is not empty, and nothing at all happens to anybody else. */
  lemma OverdueRevokationHitsCaller(g: Group, caller: Person, uid: nat, newRole: Role, now: int)
    requires Requests(g) && Handle(g, Revoke(caller, uid, newRole, now)).Some?
    requires var m := MemberOf(g.members, uid);
      m.Some? && m.value.request.Some? && m.value.request.value.Revokation?
    ensures var pending := MemberOf(g.members, uid).value.request.value.newRole;
      var after := ApplyGroup(g, Handle(g, Revoke(caller, uid, newRole, now)).value).members;
      && MemberOf(after, uid).Some?
      && (MemberOf(after, uid).value.role.Admin? <==> caller.uid != uid || pending.Empty?)
      && forall other: nat :: other != caller.uid ==> MemberOf(after, other) == MemberOf(g.members, other)
  {
    var e := RevokationAccepted(caller.uid);
    assert Handle(g, Revoke(caller, uid, newRole, now)) == Some(e);
    assert MemberOf(g.members, uid).value in g.members;
    hide Handle, ApplyGroup;
    forall other: nat
      ensures MemberOf(ApplyGroup(g, e).members, other) ==
        if other == caller.uid then NextMember(MemberOf(g.members, other), e) else MemberOf(g.members, other)
    {
      GroupEffect(g, e, other);
    }
  }

  /** Two admins with overdue revokations: the one who asks for the other loses the role, the other keeps it. */
  lemma OverdueRevokationExample(a: Person, b: Person, role: Role)
    requires a.uid != b.uid && !role.Admin? && !role.Empty?
    ensures var request := Some(Revokation(role, 0));
      var g := Group([Member(a, Admin, request), Member(b, Admin, request)], []);
      var e := Handle(g, Revoke(a, b.uid, role, FOURTEEN_DAYS + 1));
      && e == Some(RevokationAccepted(a.uid))
      && ApplyGroup(g, e.value).members == [Member(a, role, None), Member(b, Admin, request)]
  {
    var request := Some(Revokation(role, 0));
    var members := [Member(a, Admin, request), Member(b, Admin, request)];
    assert Find(members, a.uid) == 0 && Find(members, b.uid) == 1;
  }

  // ---- a group keeps an admin ----

  ghost predicate HasAdmin(g: Group) { exists m :: m in g.members && m.role.Admin? }

  /** The event takes the admin role from the only entry that has it. */
  ghost predicate RevokesLastAdmin(g: Group, e: Event) {
    && e.RevokationAccepted?
    && var i := Find(g.members, e.uid);
       && i < |g.members| && g.members[i].request.Some? && g.members[i].request.value.Revokation?
       && !g.members[i].request.value.newRole.Empty?
       && forall j :: 0 <= j < |g.members| && j != i ==> !g.members[j].role.Admin?
  }

  /** What the guards leave of the events. */
  ghost predicate Permitted(g: Group, e: Event) {
    match e
    case Left(uid) => !IsLastAdmin(g, uid)
    case Removed(uid) => !IsAdmin(g, uid)
    case Nominated(uid, _) => var i := Find(g.members, uid); i < |g.members| && !g.members[i].role.Admin?
    case RevokationRequested(_, newRole, _) => !newRole.Admin?
    case _ => true
  }

  lemma GuardsPermit(g: Group, c: Command)
    requires Handle(g, c).Some?
    ensures Permitted(g, Handle(g, c).value)
  {
  }

  /** The member an answer goes to: nothing but its role and request changes. */
  lemma SlotChanged(g: Group, e: Event) returns (i: nat, changed: Member)
    requires Receiver(e).Some? && !e.Joined? && !e.Left? && !e.Removed?
    ensures i == if e.RevokationRequested? then FindAdmin(g.members, e.uid) else Find(g.members, e.uid)
    ensures i < |g.members| ==>
      && changed == (if e.RevokationRequested? then g.members[i].(request := Some(Revokation(e.newRole, e.at)))
           else Answered(g.members[i], e))
      && ApplyGroup(g, e).members == g.members[i := changed]
    ensures i == |g.members| ==> ApplyGroup(g, e) == g
  {
    i := if e.RevokationRequested? then FindAdmin(g.members, e.uid) else Find(g.members, e.uid);
    if i < |g.members| {
      changed := if e.RevokationRequested? then g.members[i].(request := Some(Revokation(e.newRole, e.at)))
        else Answered(g.members[i], e);
    } else {
      changed := Member(Person(0, 0), Empty, None);
    }
  }

  lemma RequestsKept(g: Group, e: Event)
    requires Requests(g) && Permitted(g, e)
    ensures Requests(ApplyGroup(g, e))
  {
    if Receiver(e).None? {
    } else if e.Left? || e.Removed? {
      WithoutKeeps(g.members, e.uid);
    } else if e.Joined? {
    } else {
      var i, changed := SlotChanged(g, e);
      hide ApplyGroup;
      if i < |g.members| {
        assert g.members[i] in g.members;
        assert Sound(changed);
        forall m | m in g.members[i := changed] ensures Sound(m) {
          assert m in g.members || m == changed;
        }
      }
    }
  }

  lemma AdminLeft(g: Group, e: Event)
    requires HasAdmin(g) && Permitted(g, e) && (e.Left? || e.Removed?)
    ensures HasAdmin(ApplyGroup(g, e))
  {
    WithoutKeeps(g.members, e.uid);
    if e.Left? {
      var other :| 0 <= other < |g.members| && g.members[other].user.uid != e.uid && g.members[other].role.Admin?;
      assert g.members[other] in ApplyGroup(g, e).members;
    } else {
      var admin :| admin in g.members && admin.role.Admin?;
      assert admin in ApplyGroup(g, e).members;
    }
  }

  lemma AdminAnswered(g: Group, e: Event)
    requires Requests(g) && HasAdmin(g) && Permitted(g, e) && Receiver(e).Some? && !e.Joined? && !e.Left? && !e.Removed?
    ensures HasAdmin(ApplyGroup(g, e)) <==> !RevokesLastAdmin(g, e)
  {
    var i, changed := SlotChanged(g, e);
    hide ApplyGroup;
    if i < |g.members| {
      assert g.members[i] in g.members;
      var after := g.members[i := changed];
      assert forall j :: 0 <= j < |after| ==> after[j] in after;
      if RevokesLastAdmin(g, e) {
      } else if g.members[i].role.Admin? && !changed.role.Admin? {
        assert e.RevokationAccepted?;
        var j :| 0 <= j < |g.members| && j != i && g.members[j].role.Admin?;
        assert after[j] == g.members[j];
      } else {
        var k :| 0 <= k < |g.members| && g.members[k].role.Admin?;
        assert after[k].role.Admin?;
      }
    }
  }

  /** Duplicate entries of a uid included: after a command the group still has an admin, unless the command is an
      accepted revokation of its only admin entry, and then it has none. */
  lemma AdminKeptIff(g: Group, c: Command)
    requires Requests(g) && HasAdmin(g) && Handle(g, c).Some?
    ensures HasAdmin(ApplyGroup(g, Handle(g, c).value)) <==> !RevokesLastAdmin(g, Handle(g, c).value)
  {
    GuardsPermit(g, c);
    var e := Handle(g, c).value;
    hide Handle, Permitted;
    if Receiver(e).None? {
    } else if e.Left? || e.Removed? {
      AdminLeft(g, e);
    } else if e.Joined? {
      var admin :| admin in g.members && admin.role.Admin?;
      assert admin in ApplyGroup(g, e).members;
    } else {
      AdminAnswered(g, e);
    }
  }

  /** No command of the run is the accepted revokation of the last admin. */
  ghost predicate SparesLastAdmin(w: World, commands: seq<Command>) {
    commands == [] ||
    var init, c := commands[..|commands|-1], commands[|commands|-1];
    var e := Handle(Run(w, init).group, c);
    SparesLastAdmin(w, init) && (e.Some? ==> !RevokesLastAdmin(Run(w, init).group, e.value))
  }

  /** From creation on, every run keeps at least one admin, whoever joins how often, unless it accepts the
      revokation of the last one. */
  lemma {:induction false} GroupKeepsAdmin(creator: Person, commands: seq<Command>)
    requires SparesLastAdmin(Create(creator), commands)
    ensures var g := Run(Create(creator), commands).group; HasAdmin(g) && Requests(g)
  {
    if commands == [] {
      assert Member(creator, Admin, None) in Create(creator).group.members;
    } else {
      var init, c := commands[..|commands|-1], commands[|commands|-1];
      GroupKeepsAdmin(creator, init);
      var g := Run(Create(creator), init).group;
      if Handle(g, c).Some? {
        GuardsPermit(g, c);
        RequestsKept(g, Handle(g, c).value);
        AdminKeptIff(g, c);
      }
    }
  }

  lemma RequestsOfSole(creator: Person, role: Role)
    requires !role.Admin?
    ensures var g := Group([Member(creator, Admin, None)], []);
      var e := RevokationRequested(creator.uid, role, 0);
      && Handle(g, Revoke(creator, creator.uid, role, 0)) == Some(e)
      && ApplyGroup(g, e) == Group([Member(creator, Admin, Some(Revokation(role, 0)))], [])
  {
  }

  lemma AcceptsOfSole(creator: Person, role: Role)
    requires !role.Admin? && !role.Empty?
    ensures var g := Group([Member(creator, Admin, Some(Revokation(role, 0)))], []);
      && Handle(g, AcceptRevokation(creator)) == Some(RevokationAccepted(creator.uid))
      && ApplyGroup(g, RevokationAccepted(creator.uid)) == Group([Member(creator, role, None)], [])
  {
  }

  lemma Resigns(creator: Person, role: Role)
    requires !role.Admin? && !role.Empty?
    ensures Execute(Execute(Create(creator), Revoke(creator, creator.uid, role, 0)),
      AcceptRevokation(creator)).group.members
         == [Member(creator, role, None)]
  {
    assert Create(creator).group == Group([Member(creator, Admin, None)], []);
    RequestsOfSole(creator, role);
    AcceptsOfSole(creator, role);
    hide Deliver, Handle, ApplyGroup, Create;
  }

  /** The guard of accepting a revokation does not look at the other members: the creator alone can give up the
      role and leave a group without admin. */
  lemma SoleAdminCanResign(creator: Person, role: Role)
    requires !role.Admin? && !role.Empty?
    ensures !HasAdmin(Run(Create(creator), [Revoke(creator, creator.uid, role, 0), AcceptRevokation(creator)]).group)
  {
    var first, second := Revoke(creator, creator.uid, role, 0), AcceptRevokation(creator);
    var w := Create(creator);
    Resigns(creator, role);
    hide Execute, Create;
    assert [first][..0] == [] && [first, second][..1] == [first];
    assert Run(w, [first]) == Execute(w, first);
    assert Run(w, [first, second]) == Execute(Execute(w, first), second);
  }
}
