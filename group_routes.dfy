/**
 * server/routes/groupRoutes.js: creating a group and joining one by its code. Both run
 * after `validate` and both look the user up, and create them if needed, by the
 * lower-cased e-mail address. The JSON web token in the replies is not modelled.
 */
module GroupRoutes {
  import opened Wrappers
  import opened Records
  import Schemas
  import Store
  import Text

  /** The user lookup and creation both handlers share: users and the user to reply with. */
  datatype Upsert = Upsert(users: seq<User>, user: User)

  /**
   * `User.findOne({ email })`, then either `User.create` with the name, the address and the
   * phone if one is supplied, or, for an existing user, `user.phone = phone` when one is.
   * The name of an existing user is never changed.
   */
  function Upserted(users: seq<User>, name: string, email: string, phone: Option<string>, newId: Id): (r: Upsert)
    ensures r.user.email == email
    ensures UserIndexByEmail(users, email).None? ==> r.user == User(newId, name, email, phone) && r.users == users + [r.user]
    ensures UserIndexByEmail(users, email).Some? ==>
      var i := UserIndexByEmail(users, email).value;
      r.user.id == users[i].id && r.user.name == users[i].name
      && r.user.phone == (if phone.Some? then phone else users[i].phone)
      && r.users == users[i := r.user]
  {
    match UserIndexByEmail(users, email)
    case None =>
      var u := User(newId, name, email, phone);
      Upsert(users + [u], u)
    case Some(i) =>
      var u := if phone.Some? then users[i].(phone := phone) else users[i];
      Upsert(users[i := u], u)
  }

  /** After an upsert the address finds the returned user, whatever was there before. */
  lemma UpsertFinds(users: seq<User>, name: string, email: string, phone: Option<string>, newId: Id)
    requires Store.UsersValid(users)
    ensures var r := Upserted(users, name, email, phone, newId);
      UserIndexByEmail(r.users, email).Some? && r.users[UserIndexByEmail(r.users, email).value] == r.user
  {
    var r := Upserted(users, name, email, phone, newId);
    if UserIndexByEmail(users, email).None? {
      assert r.users[|users|] == r.user;
    } else {
      var i := UserIndexByEmail(users, email).value;
      assert r.users[i] == r.user;
    }
  }

  /** A second upsert with the same address creates no user and returns the same account. */
  lemma UpsertIdempotent(users: seq<User>, name: string, email: string, phone: Option<string>, newId: Id,
                         name2: string, phone2: Option<string>, newId2: Id)
    requires Store.UsersValid(users)
    ensures var r := Upserted(users, name, email, phone, newId);
      var r2 := Upserted(r.users, name2, email, phone2, newId2);
      |r2.users| == |r.users| && r2.user.id == r.user.id && r2.user.name == r.user.name
  {
    UpsertFinds(users, name, email, phone, newId);
  }

  /** An upsert keeps ids and addresses unique when the id it may use is new. */
  lemma UpsertedValid(users: seq<User>, name: string, email: string, phone: Option<string>, newId: Id)
    requires Store.UsersValid(users)
    requires forall i :: 0 <= i < |users| ==> users[i].id != newId
    ensures Store.UsersValid(Upserted(users, name, email, phone, newId).users)
  {
  }

  /** `...(phone && { phone })`: the phone a request supplies, a non-empty string. */
  function SuppliedPhone(v: Option<Value>): (r: Option<string>)
    ensures r.Some? <==> StringOf(v).Some? && StringOf(v).value != ""
    ensures r.Some? ==> v == Some(Str(r.value))
  {
    if StringOf(v).Some? && StringOf(v).value != "" then StringOf(v) else None
  }

  /** Performs `Upserted` on the store. */
  method UpsertUser(db: Store.Db, name: string, email: string, phone: Option<string>, newId: Id) returns (user: User)
    requires db.Valid() && db.Unused(newId)
    modifies db
    ensures db.Valid()
    ensures Upserted(old(db.users), name, email, phone, newId) == Upsert(db.users, user)
    ensures db.groups == old(db.groups) && db.expenses == old(db.expenses) && db.settlements == old(db.settlements)
    ensures db.reminders == old(db.reminders) && db.events == old(db.events) && db.mails == old(db.mails)
  {
    var found := UserIndexByEmail(db.users, email);
    if found.None? {
      user := User(newId, name, email, phone);
      db.users := db.users + [user];
    } else {
      user := db.users[found.value];
      if phone.Some? {
        user := user.(phone := phone);
      }
      db.users := db.users[found.value := user];
    }
    UpsertedValid(old(db.users), name, email, phone, newId);
  }

  /** No group has `code`. */
  predicate CodeFree(groups: seq<Group>, code: string)
  {
    forall i :: 0 <= i < |groups| ==> groups[i].code != code
  }

  /**
   * Draw number `tries` (counting from one) is the first whose upper-cased form no group
   * has: the loop of POST `/` stops there.
   */
  ghost predicate FirstFree(groups: seq<Group>, draws: seq<string>, tries: nat)
  {
    && 1 <= tries <= |draws|
    && CodeFree(groups, Text.Upper(draws[tries - 1]))
    && forall j :: 0 <= j < tries - 1 ==> !CodeFree(groups, Text.Upper(draws[j]))
  }

  /** At most one draw is the first free one, so the code a group gets is determined by the draws. */
  lemma FirstFreeUnique(groups: seq<Group>, draws: seq<string>, t1: nat, t2: nat)
    requires FirstFree(groups, draws, t1) && FirstFree(groups, draws, t2)
    ensures t1 == t2
  {
  }

  /**
   * The `while (groupExists)` loop: `draws` are the successive strings
   * `Math.random().toString(36).substring(2, 8)` yields. Each is upper-cased and looked up
   * until one is free; the loop ends only if one of the draws is free.
   */
  method DrawCode(groups: seq<Group>, draws: seq<string>) returns (code: string, tries: nat)
    requires exists k :: 0 <= k < |draws| && CodeFree(groups, Text.Upper(draws[k]))
    ensures FirstFree(groups, draws, tries) && code == Text.Upper(draws[tries - 1])
  {
    ghost var k :| 0 <= k < |draws| && CodeFree(groups, Text.Upper(draws[k]));
    var groupExists := true;
    code, tries := "", 0;
    while groupExists
      invariant tries <= k + 1
      invariant forall j :: 0 <= j < tries - 1 ==> !CodeFree(groups, Text.Upper(draws[j]))
      invariant groupExists ==> tries <= k && (tries == 0 || !CodeFree(groups, Text.Upper(draws[tries - 1])))
      invariant !groupExists ==> 1 <= tries && code == Text.Upper(draws[tries - 1]) && CodeFree(groups, code)
      decreases k + 1 - tries
    {
      code := Text.Upper(draws[tries]);
      groupExists := GroupIndexByCode(groups, code).Some?;
      tries := tries + 1;
    }
  }

  /** A new group with an unused id and a free code keeps the groups valid. */
  lemma CreatedValid(groups: seq<Group>, g: Group)
    requires Store.GroupsValid(groups) && CodeFree(groups, g.code) && |g.members| == 1
    requires forall i :: 0 <= i < |groups| ==> groups[i].id != g.id
    ensures Store.GroupsValid(groups + [g])
  {
  }

  /**
   * The body of POST `/` once validation has passed: the user upsert, the code loop, then
   * `Group.create` with the creator as its only member.
   */
  method StoreNewGroup(db: Store.Db, name: string, email: string, phone: Option<string>, groupName: string,
                       userId: Id, groupId: Id, draws: seq<string>)
    returns (group: Group, user: User, tries: nat)
    requires db.Valid() && db.Unused(userId) && db.Unused(groupId) && userId != groupId
    requires exists k :: 0 <= k < |draws| && CodeFree(db.groups, Text.Upper(draws[k]))
    modifies db
    ensures db.Valid() && 1 <= tries <= |draws|
    ensures var up := Upserted(old(db.users), name, email, phone, userId);
      user == up.user && db.users == up.users
      && group == Group(groupId, groupName, Text.Upper(draws[tries - 1]), [up.user.id], "INR")
    ensures FirstFree(old(db.groups), draws, tries) && db.groups == old(db.groups) + [group]
    ensures db.expenses == old(db.expenses) && db.settlements == old(db.settlements)
    ensures db.reminders == old(db.reminders) && db.events == old(db.events) && db.mails == old(db.mails)
  {
    var groups := db.groups;
    assert forall i :: 0 <= i < |groups| ==> groups[i].id != groupId by {
      assert forall i :: 0 <= i < |groups| ==> groups[i] in groups;
    }
    user := UpsertUser(db, name, email, phone, userId);
    var code;
    code, tries := DrawCode(groups, draws);
    group := Group(groupId, groupName, code, [user.id], "INR");
    CreatedValid(groups, group);
    db.InsertGroup(group);
  }

  /**
   * POST `/`: validation, then `StoreNewGroup` with the lower-cased address and the phone
   * if one is supplied; replies 201 with the group and the user.
   */
  method CreateGroup(db: Store.Db, body: CreateGroupBody, c: Schemas.Checks, userId: Id, groupId: Id, draws: seq<string>)
    returns (reply: Reply<(Group, User)>, tries: nat)
    requires db.Valid() && db.Unused(userId) && db.Unused(groupId) && userId != groupId
    requires exists k :: 0 <= k < |draws| && CodeFree(db.groups, Text.Upper(draws[k]))
    modifies db
    ensures db.Valid()
    ensures Schemas.CreateGroupIssues(body, c) != [] ==>
      reply == Err(Failure(400, "Validation failed", Schemas.CreateGroupIssues(body, c))) && unchanged(db)
    ensures Schemas.CreateGroupIssues(body, c) == [] ==>
      var up := Upserted(old(db.users), TextOf(body.userName), Text.Lower(TextOf(body.userEmail)), SuppliedPhone(body.phone), userId);
      FirstFree(old(db.groups), draws, tries) && reply.Ok? && reply.status == 201
      && reply.value.1 == up.user && db.users == up.users
      && reply.value.0 == Group(groupId, TextOf(body.groupName), Text.Upper(draws[tries - 1]), [up.user.id], "INR")
      && db.groups == old(db.groups) + [reply.value.0]
    ensures db.expenses == old(db.expenses) && db.settlements == old(db.settlements)
    ensures db.reminders == old(db.reminders) && db.events == old(db.events) && db.mails == old(db.mails)
  {
    var issues := Schemas.CreateGroupIssues(body, c);
    if issues != [] {
      return Err(Schemas.Validate(issues).value), 0;
    }
    var group, user;
    group, user, tries := StoreNewGroup(db, TextOf(body.userName), Text.Lower(TextOf(body.userEmail)), SuppliedPhone(body.phone),
                                     TextOf(body.groupName), userId, groupId, draws);
    reply := Ok(201, (group, user));
  }

  /** `group.members.push` unless already a member; the flag says whether the list grew. */
  function Joined(g: Group, user: Id): (r: (Group, bool))
    ensures r.1 <==> !IsMember(g, user)
    ensures r.0.id == g.id && r.0.code == g.code && r.0.name == g.name && r.0.currency == g.currency
    ensures IsMember(r.0, user)
    ensures |r.0.members| == |g.members| + (if r.1 then 1 else 0) && r.0.members[..|g.members|] == g.members
  {
    if IsMember(g, user) then (g, false) else (g.(members := g.members + [user]), true)
  }

  /** Joining keeps a member list free of duplicates. */
  lemma JoinedDistinct(g: Group, user: Id)
    requires Store.Distinct(g.members)
    ensures Store.Distinct(Joined(g, user).0.members)
  {
    var ms := Joined(g, user).0.members;
    if !IsMember(g, user) {
      assert ms == g.members + [user];
      forall i, j | 0 <= i < j < |ms|
        ensures ms[i] != ms[j]
      {
        if j == |g.members| {
          assert ms[i] == g.members[i];
        }
      }
    }
  }

  /** Replacing a group by its joined form keeps ids, codes and member lists valid. */
  lemma JoinedValid(groups: seq<Group>, i: nat, user: Id)
    requires Store.GroupsValid(groups) && i < |groups|
    ensures Store.GroupsValid(groups[i := Joined(groups[i], user).0])
  {
    JoinedDistinct(groups[i], user);
  }

  /** Joining twice is joining once: the second join changes nothing and does not broadcast. */
  lemma JoinIdempotent(g: Group, user: Id)
    ensures Joined(Joined(g, user).0, user) == (Joined(g, user).0, false)
  {
  }

  /** `group.members.push(user)` and the broadcast, unless `user` already belongs to the group. */
  method AddMember(db: Store.Db, i: nat, user: Id) returns (group: Group)
    requires db.Valid() && i < |db.groups|
    modifies db
    ensures db.Valid()
    ensures var j := Joined(old(db.groups)[i], user);
      group == j.0 && db.groups == old(db.groups)[i := j.0]
      && db.events == old(db.events) + (if j.1 then [Event(j.0.id, "member-joined")] else [])
    ensures db.users == old(db.users) && db.expenses == old(db.expenses) && db.settlements == old(db.settlements)
    ensures db.reminders == old(db.reminders) && db.mails == old(db.mails)
  {
    JoinedValid(db.groups, i, user);
    group := db.groups[i];
    if !IsMember(group, user) {
      group := group.(members := group.members + [user]);
      db.groups := db.groups[i := group];
      db.events := db.events + [Event(group.id, "member-joined")];
    }
  }

  /**
   * POST `/join`: validation, the upper-cased code's group or 404, the user upsert, then the
   * membership append; a 'member-joined' broadcast goes to the group's room exactly when
   * the member list grew.
   */
  method JoinGroup(db: Store.Db, body: JoinGroupBody, c: Schemas.Checks, userId: Id) returns (reply: Reply<(Group, User)>)
    requires db.Valid() && db.Unused(userId)
    modifies db
    ensures db.Valid()
    ensures Schemas.JoinGroupIssues(body, c) != [] ==>
      reply == Err(Failure(400, "Validation failed", Schemas.JoinGroupIssues(body, c))) && unchanged(db)
    ensures Schemas.JoinGroupIssues(body, c) == [] && GroupIndexByCode(old(db.groups), Text.Upper(TextOf(body.code))).None? ==>
      reply == Err(Failure(404, "Group not found. Check the code.", [])) && unchanged(db)
    ensures Schemas.JoinGroupIssues(body, c) == [] && GroupIndexByCode(old(db.groups), Text.Upper(TextOf(body.code))).Some? ==>
      var i := GroupIndexByCode(old(db.groups), Text.Upper(TextOf(body.code))).value;
      var up := Upserted(old(db.users), TextOf(body.userName), Text.Lower(TextOf(body.userEmail)), SuppliedPhone(body.phone), userId);
      var j := Joined(old(db.groups)[i], up.user.id);
      db.users == up.users && db.groups == old(db.groups)[i := j.0] && reply == Ok(200, (j.0, up.user))
      && db.events == old(db.events) + (if j.1 then [Event(j.0.id, "member-joined")] else [])
    ensures db.expenses == old(db.expenses) && db.settlements == old(db.settlements)
    ensures db.reminders == old(db.reminders) && db.mails == old(db.mails)
  {
    var issues := Schemas.JoinGroupIssues(body, c);
    if issues != [] {
      return Err(Schemas.Validate(issues).value);
    }
    var normalizedCode := Text.Upper(TextOf(body.code));
    var found := GroupIndexByCode(db.groups, normalizedCode);
    if found.None? {
      return Err(Failure(404, "Group not found. Check the code.", []));
    }
    var user := UpsertUser(db, TextOf(body.userName), Text.Lower(TextOf(body.userEmail)), SuppliedPhone(body.phone), userId);
    var group := AddMember(db, found.value, user.id);
    reply := Ok(200, (group, user));
  }
}
