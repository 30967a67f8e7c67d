/**
 * server/routes/settlementRoutes.js: recording that one member paid another, and listing
 * a group's settlements newest first. This router has no schema; its handler checks the
 * body itself, one guard after another.
 */
module SettlementRoutes {
  import opened Wrappers
  import opened Records
  import Store
  import Sequences

  /** The body after every guard passed: the parsed settlement to store. */
  datatype Accepted = Accepted(group: Id, from: Id, to: Id, amount: real)

  /** `isNaN(numAmount) || numAmount <= 0` fails. */
  predicate PositiveAmount(amount: Option<real>)
  {
    amount.Some? && amount.value > 0.0
  }

  /** The three ids are canonical (the type forces a non-empty string). */
  predicate IdsWellFormed(b: SettlementBody)
  {
    IdField(b.groupId).Some? && IdField(b.fromUserId).Some? && IdField(b.toUserId).Some?
  }

  /**
   * The guard chain of POST `/`, in its order: the group id, the payer id and the payee id
   * must be canonical (400), the amount a positive number (400), the group must exist (404),
   * both parties must be members (403) and they must differ (400).
   */
  function Verdict(groups: seq<Group>, b: SettlementBody, parseFloat: string -> Option<real>): (r: Reply<Accepted>)
    ensures r.Ok? <==>
      IdsWellFormed(b) && PositiveAmount(ParseFloat(b.amount, parseFloat))
      && GroupById(groups, IdField(b.groupId).value).Some?
      && IsMember(GroupById(groups, IdField(b.groupId).value).value, IdField(b.fromUserId).value)
      && IsMember(GroupById(groups, IdField(b.groupId).value).value, IdField(b.toUserId).value)
      && IdField(b.fromUserId) != IdField(b.toUserId)
    ensures r.Ok? ==>
      r.value == Accepted(IdField(b.groupId).value, IdField(b.fromUserId).value, IdField(b.toUserId).value,
                          ParseFloat(b.amount, parseFloat).value)
    ensures r.Err? ==> r.failure.details == [] && r.failure.status in {400, 403, 404}
  {
    var groupId := IdField(b.groupId);
    var fromUserId := IdField(b.fromUserId);
    var toUserId := IdField(b.toUserId);
    var numAmount := ParseFloat(b.amount, parseFloat);
    if groupId.None? then Err(Failure(400, "Invalid group", []))
    else if fromUserId.None? then Err(Failure(400, "Invalid payer", []))
    else if toUserId.None? then Err(Failure(400, "Invalid payee", []))
    else if !PositiveAmount(numAmount) then Err(Failure(400, "Amount must be positive", []))
    else
      var group := GroupById(groups, groupId.value);
      if group.None? then Err(Failure(404, "Group not found", []))
      else if !IsMember(group.value, fromUserId.value) || !IsMember(group.value, toUserId.value) then
        Err(Failure(403, "Both users must be group members", []))
      else if fromUserId == toUserId then Err(Failure(400, "Cannot settle with yourself", []))
      else Ok(201, Accepted(groupId.value, fromUserId.value, toUserId.value, numAmount.value))
  }

  /** A malformed id is refused with 400 before the store is consulted, in the order group, payer, payee. */
  lemma MalformedIdsFirst(groups: seq<Group>, other: seq<Group>, b: SettlementBody, parseFloat: string -> Option<real>)
    requires !IdsWellFormed(b)
    ensures Verdict(groups, b, parseFloat) == Verdict(other, b, parseFloat)
    ensures IdField(b.groupId).None? ==> Verdict(groups, b, parseFloat) == Err(Failure(400, "Invalid group", []))
    ensures IdField(b.groupId).Some? && IdField(b.fromUserId).None? ==>
      Verdict(groups, b, parseFloat) == Err(Failure(400, "Invalid payer", []))
    ensures IdField(b.groupId).Some? && IdField(b.fromUserId).Some? && IdField(b.toUserId).None? ==>
      Verdict(groups, b, parseFloat) == Err(Failure(400, "Invalid payee", []))
  {
  }

  /** With well-formed ids, a NaN or non-positive amount is refused before the lookup. */
  lemma AmountChecked(groups: seq<Group>, b: SettlementBody, parseFloat: string -> Option<real>)
    requires IdsWellFormed(b) && !PositiveAmount(ParseFloat(b.amount, parseFloat))
    ensures Verdict(groups, b, parseFloat) == Err(Failure(400, "Amount must be positive", []))
  {
  }

  /** A well-formed request naming no stored group gets 404. */
  lemma UnknownGroup(groups: seq<Group>, b: SettlementBody, parseFloat: string -> Option<real>)
    requires IdsWellFormed(b) && PositiveAmount(ParseFloat(b.amount, parseFloat))
    requires forall g :: g in groups ==> g.id != IdField(b.groupId).value
    ensures Verdict(groups, b, parseFloat) == Err(Failure(404, "Group not found", []))
  {
  }

  /**
   * Membership is checked before the parties are compared, so a non-member settling with
   * themselves gets 403, while a member doing so gets 400.
   */
  lemma SelfSettlement(groups: seq<Group>, b: SettlementBody, parseFloat: string -> Option<real>)
    requires IdsWellFormed(b) && PositiveAmount(ParseFloat(b.amount, parseFloat))
    requires GroupById(groups, IdField(b.groupId).value).Some?
    requires IdField(b.fromUserId) == IdField(b.toUserId)
    ensures !IsMember(GroupById(groups, IdField(b.groupId).value).value, IdField(b.fromUserId).value) ==>
      Verdict(groups, b, parseFloat) == Err(Failure(403, "Both users must be group members", []))
    ensures IsMember(GroupById(groups, IdField(b.groupId).value).value, IdField(b.fromUserId).value) ==>
      Verdict(groups, b, parseFloat) == Err(Failure(400, "Cannot settle with yourself", []))
  {
  }

  /** POST `/`: on success exactly one settlement is appended, dated now; nothing else changes. */
  method RecordSettlement(db: Store.Db, b: SettlementBody, p: Parsers, newId: Id, now: int) returns (reply: Reply<Settlement>)
    requires db.Valid() && db.Unused(newId)
    modifies db
    ensures db.Valid()
    ensures Verdict(old(db.groups), b, p.parseFloat).Err? ==>
      reply == Err(Verdict(old(db.groups), b, p.parseFloat).failure) && unchanged(db)
    ensures Verdict(old(db.groups), b, p.parseFloat).Ok? ==>
      var v := Verdict(old(db.groups), b, p.parseFloat).value;
      reply == Ok(201, Settlement(newId, v.group, v.from, v.to, v.amount, now))
      && db.settlements == old(db.settlements) + [reply.value]
    ensures db.users == old(db.users) && db.groups == old(db.groups) && db.expenses == old(db.expenses)
    ensures db.reminders == old(db.reminders) && db.events == old(db.events) && db.mails == old(db.mails)
  {
    var verdict := Verdict(db.groups, b, p.parseFloat);
    if verdict.Err? {
      return Err(verdict.failure);
    }
    var v := verdict.value;
    var settlement := Settlement(newId, v.group, v.from, v.to, v.amount, now);
    db.InsertSettlement(settlement);
    reply := Ok(201, settlement);
  }

  /** `Settlement.find({ group }).sort({ date: -1 })`: the group's settlements, newest first. */
  function GroupSettlements(settlements: seq<Settlement>, group: Id): (r: seq<Settlement>)
    ensures forall s :: s in r <==> s in settlements && s.group == group
    ensures multiset(r) == multiset(Sequences.Filter(settlements, (s: Settlement) => s.group == group))
    ensures forall i, j :: 0 <= i < j < |r| ==> r[i].date >= r[j].date
  {
    var mine := Sequences.Filter(settlements, (s: Settlement) => s.group == group);
    var r := Sequences.SortBy(mine, (s: Settlement) => -s.date);
    Sequences.SameElements(r, mine);
    r
  }

  /** GET `/group/:groupId`: 400 "Invalid group id" unless the id is canonical. */
  function ListSettlements(settlements: seq<Settlement>, groupId: string): (r: Reply<seq<Settlement>>)
    ensures !IsCanonicalId(groupId) <==> r == Err(Failure(400, "Invalid group id", []))
    ensures IsCanonicalId(groupId) ==> r == Ok(200, GroupSettlements(settlements, groupId))
  {
    if !IsCanonicalId(groupId) then Err(Failure(400, "Invalid group id", []))
    else Ok(200, GroupSettlements(settlements, groupId))
  }
}
