/**
 * The balance engine of the group dashboard (client/src/pages/GroupDashboard.jsx).
 *
 * The dashboard builds a JavaScript object `balances` keyed by member id. It sets
 * every member's key to 0. For each expense it credits the payer with
 * `amount - amount / memberCount` and debits every other member `amount / memberCount`.
 * For each settlement it adds the amount to the payer's key and subtracts it from the
 * receiver's key. A JavaScript object whose keys are not integer-like (object ids are
 * 24 hexadecimal characters, too long to be array indices) lists its keys in insertion
 * order, so it is modelled as a `Book`: the keys in insertion order and a map from
 * each key to its value.
 */
module Balances {
  import opened Wrappers
  import Sequences

  type Id = string

  /** A populated group member as the dashboard receives it (`m._id`, `m.name`). */
  datatype Member = Member(id: Id, name: string)

  /** The part of an expense the engine reads: `e.amount` and `e.payer?._id`. */
  datatype ExpenseLine = ExpenseLine(title: string, amount: real, payer: Id)

  /**
   * The part of a settlement the engine reads: `s.fromUser?._id ?? s.fromUser`,
   * the same for `toUser`, and `s.amount`. A missing party is `None`.
   */
  datatype Transfer = Transfer(from: Option<Id>, to: Option<Id>, amount: real)

  /** The keys of an object in insertion order, the newest last. */
  datatype KeyList = Nil | Snoc(init: KeyList, last: Id)

  /** A JavaScript object from ids to numbers: its keys in insertion order and its values. */
  datatype Book = Book(keys: KeyList, vals: map<Id, real>)

  /** One `[key, value]` pair of `Object.entries`. */
  datatype Entry = Entry(key: Id, amount: real)

  function Abs(x: real): (r: real)
    ensures r >= 0.0 && (r == x || r == -x)
  {
    if x < 0.0 then -x else x
  }

  /** No id occurs twice. */
  predicate Unique(ks: seq<Id>)
  {
    forall i, j :: 0 <= i < j < |ks| ==> ks[i] != ks[j]
  }

  function IdsOf(members: seq<Member>): (ids: seq<Id>)
    ensures |ids| == |members| && forall i :: 0 <= i < |members| ==> ids[i] == members[i].id
    ensures forall m :: m in members ==> m.id in ids
  {
    seq(|members|, i requires 0 <= i < |members| => members[i].id)
  }

  /** `k` is one of the keys. */
  predicate Has(ks: KeyList, k: Id)
  {
    ks.Snoc? && (ks.last == k || Has(ks.init, k))
  }

  /** No key is listed twice. */
  predicate UniqueKeys(ks: KeyList)
  {
    ks.Nil? || (UniqueKeys(ks.init) && !Has(ks.init, ks.last))
  }

  /** `longer` is `shorter` with zero or more keys appended. */
  predicate Extends(longer: KeyList, shorter: KeyList)
  {
    longer == shorter || (longer.Snoc? && Extends(longer.init, shorter))
  }

  lemma {:induction false} ExtendsTrans(a: KeyList, b: KeyList, c: KeyList)
    requires Extends(a, b) && Extends(b, c)
    ensures Extends(a, c)
  {
    if a != b {
      ExtendsTrans(a.init, b, c);
    }
  }

  lemma {:induction false} ExtendsHas(a: KeyList, b: KeyList, k: Id)
    requires Extends(a, b) && Has(b, k)
    ensures Has(a, k)
  {
    if a != b {
      ExtendsHas(a.init, b, k);
    }
  }

  // ---------------------------------------------------------------------------
  // The `balances` object
  // ---------------------------------------------------------------------------

  /** Every key is listed exactly once and the listed keys are the keys of the map. */
  ghost predicate Valid(b: Book)
  {
    UniqueKeys(b.keys) && forall k :: k in b.vals <==> Has(b.keys, k)
  }

  /** The empty object `{}`. */
  function Empty(): (b: Book)
    ensures Valid(b) && b.keys == Nil
  {
    Book(Nil, map[])
  }

  /** `balances[k] ?? 0`. */
  function Amount(b: Book, k: Id): real
  {
    if k in b.vals then b.vals[k] else 0.0
  }

  /**
   * `balances[k] = v`: the key takes the new value and no other key changes; an
   * existing key keeps its place, a new key goes after all others.
   */
  function Put(b: Book, k: Id, v: real): (r: Book)
    ensures Amount(r, k) == v
    ensures forall j :: j != k ==> Amount(r, j) == Amount(b, j)
    ensures Valid(b) ==> Valid(r) && Extends(r.keys, b.keys)
    ensures Valid(b) ==> forall j :: Has(r.keys, j) <==> Has(b.keys, j) || j == k
  {
    var keys := if k in b.vals then b.keys else Snoc(b.keys, k);
    Book(keys, b.vals[k := v])
  }

  /** The `[key, value]` pairs of the keys `ks`, in key order. */
  function EntriesOf(ks: KeyList, b: Book): (es: seq<Entry>)
    ensures forall e :: e in es ==> e.amount == Amount(b, e.key) && Has(ks, e.key)
    ensures forall k :: Has(ks, k) ==> Entry(k, Amount(b, k)) in es
  {
    if ks.Nil? then [] else EntriesOf(ks.init, b) + [Entry(ks.last, Amount(b, ks.last))]
  }

  /** `Object.entries(balances)`: one pair per key, in insertion order. */
  function Entries(b: Book): (es: seq<Entry>)
    ensures forall e :: e in es ==> e.amount == Amount(b, e.key) && Has(b.keys, e.key)
    ensures forall k :: Has(b.keys, k) ==> Entry(k, Amount(b, k)) in es
  {
    EntriesOf(b.keys, b)
  }

  /** The sum of the values of the keys `ks`. */
  function SumOver(ks: KeyList, b: Book): real
  {
    if ks.Nil? then 0.0 else SumOver(ks.init, b) + Amount(b, ks.last)
  }

  /** The sum of all values of the object. */
  function Total(b: Book): real
  {
    SumOver(b.keys, b)
  }

  /** A sum over keys that do not include `k` does not see a write to `k`. */
  lemma {:induction false} SumOverMissing(ks: KeyList, b: Book, k: Id, v: real)
    requires !Has(ks, k)
    ensures SumOver(ks, Put(b, k, v)) == SumOver(ks, b)
  {
    if ks.Snoc? {
      SumOverMissing(ks.init, b, k, v);
    }
  }

  /** A sum over distinct keys including `k` sees a write to `k` once. */
  lemma {:induction false} SumOverPut(ks: KeyList, b: Book, k: Id, v: real)
    requires UniqueKeys(ks) && Has(ks, k)
    ensures SumOver(ks, Put(b, k, v)) == SumOver(ks, b) - Amount(b, k) + v
  {
    if ks.last == k {
      SumOverMissing(ks.init, b, k, v);
    } else {
      SumOverPut(ks.init, b, k, v);
    }
  }

  /** Writing `v` to key `k` changes the sum by `v` minus the old value of `k`. */
  lemma PutTotal(b: Book, k: Id, v: real)
    requires Valid(b)
    ensures Total(Put(b, k, v)) == Total(b) - Amount(b, k) + v
  {
    if k in b.vals {
      SumOverPut(b.keys, b, k, v);
    } else {
      SumOverMissing(b.keys, b, k, v);
    }
  }

  // ---------------------------------------------------------------------------
  // The three passes of the computation, as folds over prefixes
  // ---------------------------------------------------------------------------

  /** `group.members.forEach((m) => (balances[m._id] = 0))`. */
  function Init(ms: seq<Id>): Book
  {
    if ms == [] then Empty() else Put(Init(ms[..|ms| - 1]), ms[|ms| - 1], 0.0)
  }

  /** `splitAmount = e.amount / group.members.length`. For an empty member list JavaScript
      yields ±Infinity or NaN, a value no member ever reads, so 0 stands in for it. */
  function SplitOf(amount: real, n: nat): (r: real)
    ensures n > 0 ==> r * (n as real) == amount
    ensures n == 0 ==> r == 0.0
  {
    if n == 0 then 0.0 else amount / (n as real)
  }

  /** The inner `group.members.forEach` for one expense, over the members `ms`. */
  function Share(b: Book, ms: seq<Id>, payer: Id, amount: real, split: real): Book
  {
    if ms == [] then b
    else
      var before := Share(b, ms[..|ms| - 1], payer, amount, split);
      var m := ms[|ms| - 1];
      if m == payer then Put(before, m, Amount(before, m) + (amount - split))
      else Put(before, m, Amount(before, m) - split)
  }

  function ApplyExpense(b: Book, ms: seq<Id>, e: ExpenseLine): Book
  {
    Share(b, ms, e.payer, e.amount, SplitOf(e.amount, |ms|))
  }

  /** `expenses.forEach(...)`. */
  function AfterExpenses(b: Book, ms: seq<Id>, es: seq<ExpenseLine>): Book
  {
    if es == [] then b else ApplyExpense(AfterExpenses(b, ms, es[..|es| - 1]), ms, es[|es| - 1])
  }

  /** The guard `from && to && s.amount`: both parties present and a non-zero amount. */
  predicate Applies(t: Transfer)
  {
    Truthy(t.from) && Truthy(t.to) && t.amount != 0.0
  }

  /** What a settlement does to the value of key `k`. */
  function Flow(t: Transfer, k: Id): real
  {
    if !Applies(t) then 0.0
    else (if t.from.value == k then t.amount else 0.0) - (if t.to.value == k then t.amount else 0.0)
  }

  /**
   * One step of `settlements.forEach`: add the amount to `from`, then subtract it
   * from `to`, each seeded from 0 when the key is missing.
   */
  function ApplyTransfer(b: Book, t: Transfer): (r: Book)
    ensures forall k :: Amount(r, k) == Amount(b, k) + Flow(t, k)
    ensures !Applies(t) ==> r == b
  {
    if Applies(t) then
      var from, to := t.from.value, t.to.value;
      var b1 := Put(b, from, Amount(b, from) + t.amount);
      Put(b1, to, Amount(b1, to) - t.amount)
    else b
  }

  function AfterTransfers(b: Book, ts: seq<Transfer>): Book
  {
    if ts == [] then b else ApplyTransfer(AfterTransfers(b, ts[..|ts| - 1]), ts[|ts| - 1])
  }

  /** The `balances` object the dashboard computes. */
  function Balances(ms: seq<Id>, es: seq<ExpenseLine>, ts: seq<Transfer>): Book
  {
    AfterTransfers(AfterExpenses(Init(ms), ms, es), ts)
  }

  lemma InitStep(ms: seq<Id>, i: nat)
    requires i < |ms|
    ensures Init(ms[..i + 1]) == Put(Init(ms[..i]), ms[i], 0.0)
  {
    assert ms[..i + 1][..i] == ms[..i];
  }

  lemma ShareStep(b: Book, ms: seq<Id>, j: nat, payer: Id, amount: real, split: real)
    requires j < |ms|
    ensures var before := Share(b, ms[..j], payer, amount, split);
            Share(b, ms[..j + 1], payer, amount, split)
            == if ms[j] == payer then Put(before, ms[j], Amount(before, ms[j]) + (amount - split))
               else Put(before, ms[j], Amount(before, ms[j]) - split)
  {
    assert ms[..j + 1][..j] == ms[..j];
  }

  lemma ExpenseStep(b: Book, ms: seq<Id>, es: seq<ExpenseLine>, x: nat)
    requires x < |es|
    ensures AfterExpenses(b, ms, es[..x + 1]) == ApplyExpense(AfterExpenses(b, ms, es[..x]), ms, es[x])
  {
    assert es[..x + 1][..x] == es[..x];
  }

  lemma TransferStep(b: Book, ts: seq<Transfer>, y: nat)
    requires y < |ts|
    ensures AfterTransfers(b, ts[..y + 1]) == ApplyTransfer(AfterTransfers(b, ts[..y]), ts[y])
  {
    assert ts[..y + 1][..y] == ts[..y];
  }

  /**
   * The callback of `expenses.forEach` (GroupDashboard.jsx:317-323): split the amount
   * equally and walk the members, crediting the payer and debiting everyone else.
   */
  method ShareExpense(balances: Book, members: seq<Member>, e: ExpenseLine) returns (r: Book)
    requires Valid(balances) && forall m :: m in members ==> Has(balances.keys, m.id)
    ensures r == ApplyExpense(balances, IdsOf(members), e)
    ensures Valid(r) && r.keys == balances.keys
  {
    var ms := IdsOf(members);
    var split := SplitOf(e.amount, |members|);
    r := balances;
    for j := 0 to |members|
      invariant r == Share(balances, ms[..j], e.payer, e.amount, split)
    {
      ShareStep(balances, ms, j, e.payer, e.amount, split);
      var m := ms[j];
      r := if m == e.payer then Put(r, m, Amount(r, m) + (e.amount - split)) else Put(r, m, Amount(r, m) - split);
    }
    assert ms[..|members|] == ms;
    forall k | k in ms
      ensures Has(balances.keys, k)
    {
      var i :| 0 <= i < |ms| && ms[i] == k;
      assert members[i] in members;
    }
    ShareKeys(balances, ms, e.payer, e.amount, split);
  }

  /** `group.members.forEach((m) => (balances[m._id] = 0))` (GroupDashboard.jsx:316). */
  method InitBalances(members: seq<Member>) returns (balances: Book)
    ensures balances == Init(IdsOf(members))
    ensures Valid(balances) && forall m :: m in members ==> Has(balances.keys, m.id)
  {
    var ms := IdsOf(members);
    balances := Empty();
    for i := 0 to |members|
      invariant balances == Init(ms[..i])
    {
      InitStep(ms, i);
      balances := Put(balances, ms[i], 0.0);
    }
    assert ms[..|members|] == ms;
    InitShape(ms);
  }

  /** `expenses.forEach(...)` (GroupDashboard.jsx:317-323). Every `balances[m._id] += ...`
      finds its key already present, so the keys do not change. */
  method ApplyExpenses(balances: Book, members: seq<Member>, expenses: seq<ExpenseLine>) returns (r: Book)
    requires Valid(balances) && forall m :: m in members ==> Has(balances.keys, m.id)
    ensures r == AfterExpenses(balances, IdsOf(members), expenses)
    ensures Valid(r) && r.keys == balances.keys
  {
    r := balances;
    for x := 0 to |expenses|
      invariant r == AfterExpenses(balances, IdsOf(members), expenses[..x])
      invariant Valid(r) && r.keys == balances.keys
    {
      ExpenseStep(balances, IdsOf(members), expenses, x);
      r := ShareExpense(r, members, expenses[x]);
    }
    assert expenses[..|expenses|] == expenses;
  }

  /** The callback of `settlements.forEach`: skip a settlement with a missing party or a
      zero amount, else credit the payer and debit the receiver. */
  method ApplySettlement(balances: Book, s: Transfer) returns (r: Book)
    requires Valid(balances)
    ensures r == ApplyTransfer(balances, s) && Valid(r)
  {
    r := balances;
    if Truthy(s.from) && Truthy(s.to) && s.amount != 0.0 {
      var from, to := s.from.value, s.to.value;
      r := Put(r, from, Amount(r, from) + s.amount);
      r := Put(r, to, Amount(r, to) - s.amount);
    }
  }

  /** `settlements.forEach(...)` (GroupDashboard.jsx:324-331). */
  method ApplySettlements(balances: Book, settlements: seq<Transfer>) returns (r: Book)
    requires Valid(balances)
    ensures r == AfterTransfers(balances, settlements)
    ensures Valid(r)
  {
    r := balances;
    for y := 0 to |settlements|
      invariant r == AfterTransfers(balances, settlements[..y])
      invariant Valid(r)
    {
      TransferStep(balances, settlements, y);
      r := ApplySettlement(r, settlements[y]);
    }
    assert settlements[..|settlements|] == settlements;
  }

  /** The dashboard's three passes (GroupDashboard.jsx:315-331) in order. */
  method ComputeBalances(members: seq<Member>, expenses: seq<ExpenseLine>, settlements: seq<Transfer>)
    returns (balances: Book)
    ensures balances == Balances(IdsOf(members), expenses, settlements)
    ensures Valid(balances)
  {
    balances := InitBalances(members);
    balances := ApplyExpenses(balances, members, expenses);
    balances := ApplySettlements(balances, settlements);
  }

  // ---------------------------------------------------------------------------
  // Shape of the object: which keys exist
  // ---------------------------------------------------------------------------

  /** After the first pass the keys are exactly the member ids, each once, all at 0. */
  lemma {:induction false} InitShape(ms: seq<Id>)
    ensures Valid(Init(ms))
    ensures forall k :: Has(Init(ms).keys, k) <==> k in ms
    ensures forall k :: Amount(Init(ms), k) == 0.0
    ensures Total(Init(ms)) == 0.0
  {
    if ms != [] {
      var front := ms[..|ms| - 1];
      InitShape(front);
      PutTotal(Init(front), ms[|ms| - 1], 0.0);
      assert ms == front + [ms[|ms| - 1]];
    }
  }

  /** The expense pass writes only member keys, which already exist. */
  lemma {:induction false} ShareKeys(b: Book, ms: seq<Id>, payer: Id, amount: real, split: real)
    requires Valid(b) && forall m :: m in ms ==> Has(b.keys, m)
    ensures Valid(Share(b, ms, payer, amount, split)) && Share(b, ms, payer, amount, split).keys == b.keys
  {
    if ms != [] {
      ShareKeys(b, ms[..|ms| - 1], payer, amount, split);
    }
  }

  lemma {:induction false} AfterExpensesKeys(b: Book, ms: seq<Id>, es: seq<ExpenseLine>)
    requires Valid(b) && forall m :: m in ms ==> Has(b.keys, m)
    ensures Valid(AfterExpenses(b, ms, es)) && AfterExpenses(b, ms, es).keys == b.keys
  {
    if es != [] {
      var e := es[|es| - 1];
      AfterExpensesKeys(b, ms, es[..|es| - 1]);
      ShareKeys(AfterExpenses(b, ms, es[..|es| - 1]), ms, e.payer, e.amount, SplitOf(e.amount, |ms|));
    }
  }

  /**
   * The settlement pass only appends keys: the keys before it stay first and in
   * order, and every key it adds is a party of a settlement that passed the guard.
   */
  lemma {:induction false} AfterTransfersKeys(b: Book, ts: seq<Transfer>)
    requires Valid(b)
    ensures Valid(AfterTransfers(b, ts))
    ensures Extends(AfterTransfers(b, ts).keys, b.keys)
    ensures forall k :: Has(AfterTransfers(b, ts).keys, k) ==>
              Has(b.keys, k) || exists i :: 0 <= i < |ts| && Applies(ts[i]) && (ts[i].from.value == k || ts[i].to.value == k)
  {
    if ts != [] {
      var front := ts[..|ts| - 1];
      var t := ts[|ts| - 1];
      AfterTransfersKeys(b, front);
      var mid := AfterTransfers(b, front);
      var r := AfterTransfers(b, ts);
      if Applies(t) {
        var b1 := Put(mid, t.from.value, Amount(mid, t.from.value) + t.amount);
        ExtendsTrans(b1.keys, mid.keys, b.keys);
        ExtendsTrans(r.keys, b1.keys, b.keys);
      }
      forall k | Has(r.keys, k)
        ensures Has(b.keys, k) || exists i :: 0 <= i < |ts| && Applies(ts[i]) && (ts[i].from.value == k || ts[i].to.value == k)
      {
        if Has(mid.keys, k) {
          if !Has(b.keys, k) {
            var i :| 0 <= i < |front| && Applies(front[i]) && (front[i].from.value == k || front[i].to.value == k);
            assert ts[i] == front[i];
          }
        } else {
          assert Applies(ts[|ts| - 1]);
        }
      }
    }
  }

  /** The finished object: every key listed once, every member id among them, members first. */
  lemma BalancesShape(ms: seq<Id>, es: seq<ExpenseLine>, ts: seq<Transfer>)
    ensures Valid(Balances(ms, es, ts))
    ensures forall k :: k in ms ==> Has(Balances(ms, es, ts).keys, k)
  {
    InitShape(ms);
    AfterExpensesKeys(Init(ms), ms, es);
    var mid := AfterExpenses(Init(ms), ms, es);
    AfterTransfersKeys(mid, ts);
    forall k | k in ms
      ensures Has(Balances(ms, es, ts).keys, k)
    {
      ExtendsHas(Balances(ms, es, ts).keys, mid.keys, k);
    }
  }

  // ---------------------------------------------------------------------------
  // Properties of the computation
  // ---------------------------------------------------------------------------

  /** With no expenses and no settlements every member has a key and every value is 0. */
  lemma NoHistory(ms: seq<Id>)
    ensures forall k :: Has(Balances(ms, [], []).keys, k) <==> k in ms
    ensures forall k :: Amount(Balances(ms, [], []), k) == 0.0
  {
    InitShape(ms);
  }

  /** `n` copies of `s` added up: the product `n * s` without nonlinear arithmetic. */
  function Times(n: nat, s: real): real
  {
    if n == 0 then 0.0 else Times(n - 1, s) + s
  }

  lemma {:induction false} TimesIsProduct(n: nat, s: real)
    ensures Times(n, s) == (n as real) * s
  {
    if n > 0 {
      TimesIsProduct(n - 1, s);
    }
  }

  /** The N equal shares of an expense add back up to its amount. */
  lemma SharesAddUp(n: nat, amount: real)
    requires n > 0
    ensures Times(n, SplitOf(amount, n)) == amount
  {
    TimesIsProduct(n, amount / (n as real));
  }

  /**
   * How the member pass of one expense changes key `k` when the members are distinct:
   * the payer gains `amount - split`, every other member loses `split`, any other key
   * keeps its value.
   */
  lemma {:induction false} ShareAmount(b: Book, ms: seq<Id>, payer: Id, amount: real, split: real, k: Id)
    requires Unique(ms)
    ensures Amount(Share(b, ms, payer, amount, split), k)
            == Amount(b, k) + (if k !in ms then 0.0 else if k == payer then amount - split else -split)
  {
    if ms != [] {
      var front := ms[..|ms| - 1];
      assert Unique(front);
      ShareAmount(b, front, payer, amount, split, k);
      assert k in ms <==> k in front || k == ms[|ms| - 1];
      if k == ms[|ms| - 1] {
        assert k !in front;
      }
    }
  }

  /** How the member pass of one expense changes the sum of all values. */
  lemma {:induction false} ShareTotal(b: Book, ms: seq<Id>, payer: Id, amount: real, split: real)
    requires Valid(b) && Unique(ms) && forall m :: m in ms ==> Has(b.keys, m)
    ensures Total(Share(b, ms, payer, amount, split))
            == Total(b) + (if payer in ms then amount else 0.0) - Times(|ms|, split)
  {
    if ms != [] {
      var front := ms[..|ms| - 1];
      var m := ms[|ms| - 1];
      assert Unique(front);
      ShareTotal(b, front, payer, amount, split);
      ShareKeys(b, front, payer, amount, split);
      var before := Share(b, front, payer, amount, split);
      PutTotal(before, m, if m == payer then Amount(before, m) + (amount - split) else Amount(before, m) - split);
      assert payer in ms <==> payer in front || payer == m;
      if payer == m {
        assert payer !in front;
      }
    }
  }

  /**
   * One expense of amount A paid by P in a group of N distinct members:
   * P's value changes by A - A/N, every other member's by -A/N, a non-member's not at all.
   */
  lemma OneExpense(b: Book, ms: seq<Id>, e: ExpenseLine, k: Id)
    requires Unique(ms) && |ms| > 0
    ensures Amount(ApplyExpense(b, ms, e), k)
            == Amount(b, k) + (if k !in ms then 0.0
                               else if k == e.payer then e.amount - e.amount / (|ms| as real)
                               else -(e.amount / (|ms| as real)))
  {
    ShareAmount(b, ms, e.payer, e.amount, SplitOf(e.amount, |ms|), k);
  }

  /** In a one-member group a member paying an expense owes themselves nothing. */
  lemma SoleMemberExpense(b: Book, m: Id, e: ExpenseLine)
    requires e.payer == m
    ensures Amount(ApplyExpense(b, [m], e), m) == Amount(b, m)
  {
    ShareAmount(b, [m], e.payer, e.amount, SplitOf(e.amount, 1), m);
  }

  /** An expense whose payer is a member leaves the sum of all values unchanged. */
  lemma MemberExpenseConserves(b: Book, ms: seq<Id>, e: ExpenseLine)
    requires Valid(b) && Unique(ms) && e.payer in ms && forall m :: m in ms ==> Has(b.keys, m)
    ensures Total(ApplyExpense(b, ms, e)) == Total(b)
  {
    ShareTotal(b, ms, e.payer, e.amount, SplitOf(e.amount, |ms|));
    SharesAddUp(|ms|, e.amount);
  }

  /**
   * A payer who is not a current member (GroupDashboard.jsx:319-321 compares against
   * members only) is credited nowhere while every member is debited, so the sum of the
   * values drops by the amount.
   */
  lemma NonMemberPayerLeaks(b: Book, ms: seq<Id>, e: ExpenseLine)
    requires Valid(b) && Unique(ms) && |ms| > 0 && e.payer !in ms && forall m :: m in ms ==> Has(b.keys, m)
    ensures Total(ApplyExpense(b, ms, e)) == Total(b) - e.amount
  {
    ShareTotal(b, ms, e.payer, e.amount, SplitOf(e.amount, |ms|));
    SharesAddUp(|ms|, e.amount);
  }

  lemma {:induction false} AfterExpensesTotal(ms: seq<Id>, es: seq<ExpenseLine>)
    requires Unique(ms) && forall i :: 0 <= i < |es| ==> es[i].payer in ms
    ensures Total(AfterExpenses(Init(ms), ms, es)) == 0.0
  {
    InitShape(ms);
    if es != [] {
      var front := es[..|es| - 1];
      AfterExpensesTotal(ms, front);
      AfterExpensesKeys(Init(ms), ms, front);
      MemberExpenseConserves(AfterExpenses(Init(ms), ms, front), ms, es[|es| - 1]);
    }
  }

  /** A settlement moves value between its two parties and so keeps the sum. */
  lemma TransferTotal(b: Book, t: Transfer)
    requires Valid(b)
    ensures Total(ApplyTransfer(b, t)) == Total(b)
  {
    if Applies(t) {
      var from, to := t.from.value, t.to.value;
      var b1 := Put(b, from, Amount(b, from) + t.amount);
      PutTotal(b, from, Amount(b, from) + t.amount);
      PutTotal(b1, to, Amount(b1, to) - t.amount);
    }
  }

  lemma {:induction false} AfterTransfersTotal(b: Book, ts: seq<Transfer>)
    requires Valid(b)
    ensures Total(AfterTransfers(b, ts)) == Total(b)
  {
    if ts != [] {
      AfterTransfersTotal(b, ts[..|ts| - 1]);
      AfterTransfersKeys(b, ts[..|ts| - 1]);
      TransferTotal(AfterTransfers(b, ts[..|ts| - 1]), ts[|ts| - 1]);
    }
  }

  /**
   * Conservation: when the members are distinct and every expense's payer is a member,
   * the values of all keys, non-member settlement parties included, sum to exactly 0.
   */
  lemma Conservation(ms: seq<Id>, es: seq<ExpenseLine>, ts: seq<Transfer>)
    requires Unique(ms)
    requires forall i :: 0 <= i < |es| ==> es[i].payer in ms
    ensures Total(Balances(ms, es, ts)) == 0.0
  {
    InitShape(ms);
    AfterExpensesTotal(ms, es);
    AfterExpensesKeys(Init(ms), ms, es);
    AfterTransfersTotal(AfterExpenses(Init(ms), ms, es), ts);
  }

  /**
   * A settlement of X from F to T (F != T, both present, X != 0) adds X to F, subtracts X
   * from T and leaves every other key; a settlement with a missing party or a zero
   * amount changes nothing; a party that had no key gets one.
   */
  lemma SettlementOffset(b: Book, t: Transfer)
    requires Valid(b)
    ensures Applies(t) && t.from.value != t.to.value ==>
              Amount(ApplyTransfer(b, t), t.from.value) == Amount(b, t.from.value) + t.amount
              && Amount(ApplyTransfer(b, t), t.to.value) == Amount(b, t.to.value) - t.amount
    ensures Applies(t) ==> Has(ApplyTransfer(b, t).keys, t.from.value) && Has(ApplyTransfer(b, t).keys, t.to.value)
    ensures forall k :: (!Applies(t) || (k != t.from.value && k != t.to.value)) ==> Amount(ApplyTransfer(b, t), k) == Amount(b, k)
    ensures !Applies(t) ==> ApplyTransfer(b, t) == b
  {
  }

  /** A settlement with oneself passes the guard but changes no value. */
  lemma SelfSettlementNoOp(b: Book, t: Transfer)
    requires Applies(t) && t.from.value == t.to.value
    ensures forall k :: Amount(ApplyTransfer(b, t), k) == Amount(b, k)
  {
  }

  // ---------------------------------------------------------------------------
  // Closed forms: a member's value from the summary figures
  // ---------------------------------------------------------------------------

  /** `totalSpent = expenses.reduce((acc, curr) => acc + curr.amount, 0)`. */
  function Spent(es: seq<ExpenseLine>): real
  {
    if es == [] then 0.0 else Spent(es[..|es| - 1]) + es[|es| - 1].amount
  }

  /** `myExpenses`: the amounts of the expenses whose payer is `me`. */
  function PaidBy(es: seq<ExpenseLine>, me: Id): real
  {
    if es == [] then 0.0
    else PaidBy(es[..|es| - 1], me) + (if es[|es| - 1].payer == me then es[|es| - 1].amount else 0.0)
  }

  /** `mySettlements`: the amounts of the settlements whose payer is `me`, whether or not
      they pass the guard of the balance pass. */
  function SentBy(ts: seq<Transfer>, me: Id): real
  {
    if ts == [] then 0.0
    else SentBy(ts[..|ts| - 1], me) + (if ts[|ts| - 1].from == Some(me) then ts[|ts| - 1].amount else 0.0)
  }

  /** The amounts of the settlements whose receiver is `me`. */
  function ReceivedBy(ts: seq<Transfer>, me: Id): real
  {
    if ts == [] then 0.0
    else ReceivedBy(ts[..|ts| - 1], me) + (if ts[|ts| - 1].to == Some(me) then ts[|ts| - 1].amount else 0.0)
  }

  /** "You paid": `mySpend = myExpenses + mySettlements`. */
  function MySpend(es: seq<ExpenseLine>, ts: seq<Transfer>, me: Id): (r: real)
    ensures (forall i :: 0 <= i < |es| ==> es[i].amount >= 0.0) && (forall i :: 0 <= i < |ts| ==> ts[i].amount >= 0.0)
            ==> 0.0 <= r
  {
    SpendNonNegative(es, ts, me);
    PaidBy(es, me) + SentBy(ts, me)
  }

  /** With non-negative amounts each figure is non-negative and one's own expenses are
      part of the total spent. */
  lemma {:induction false} SpendNonNegative(es: seq<ExpenseLine>, ts: seq<Transfer>, me: Id)
    ensures (forall i :: 0 <= i < |es| ==> es[i].amount >= 0.0) ==> 0.0 <= PaidBy(es, me) <= Spent(es)
    ensures (forall i :: 0 <= i < |ts| ==> ts[i].amount >= 0.0) ==> 0.0 <= SentBy(ts, me)
  {
    if es != [] {
      SpendNonNegative(es[..|es| - 1], ts, me);
    }
    if ts != [] {
      SpendNonNegative(es, ts[..|ts| - 1], me);
    }
  }

  /** The net of every settlement's effect on key `k`. */
  function NetFlow(ts: seq<Transfer>, k: Id): real
  {
    if ts == [] then 0.0 else NetFlow(ts[..|ts| - 1], k) + Flow(ts[|ts| - 1], k)
  }

  lemma {:induction false} NetFlowConcat(a: seq<Transfer>, c: seq<Transfer>, k: Id)
    ensures NetFlow(a + c, k) == NetFlow(a, k) + NetFlow(c, k)
  {
    if c != [] {
      NetFlowConcat(a, c[..|c| - 1], k);
      assert (a + c)[..|a + c| - 1] == a + c[..|c| - 1];
    } else {
      assert a + c == a;
    }
  }

  /** When every settlement passes the guard and has distinct parties, its net on `k` is
      what `k` sent minus what `k` received. */
  lemma {:induction false} NetFlowSentReceived(ts: seq<Transfer>, k: Id)
    requires forall i :: 0 <= i < |ts| ==> Applies(ts[i]) && ts[i].from != ts[i].to
    ensures NetFlow(ts, k) == SentBy(ts, k) - ReceivedBy(ts, k)
  {
    if ts != [] {
      NetFlowSentReceived(ts[..|ts| - 1], k);
    }
  }

  lemma {:induction false} AfterTransfersAmount(b: Book, ts: seq<Transfer>, k: Id)
    ensures Amount(AfterTransfers(b, ts), k) == Amount(b, k) + NetFlow(ts, k)
  {
    if ts != [] {
      AfterTransfersAmount(b, ts[..|ts| - 1], k);
    }
  }

  /** The sum of every expense's per-member share. */
  function Shares(es: seq<ExpenseLine>, n: nat): real
  {
    if es == [] then 0.0 else Shares(es[..|es| - 1], n) + SplitOf(es[|es| - 1].amount, n)
  }

  lemma {:induction false} AfterExpensesAmount(ms: seq<Id>, es: seq<ExpenseLine>, k: Id)
    requires Unique(ms) && k in ms
    ensures Amount(AfterExpenses(Init(ms), ms, es), k) == PaidBy(es, k) - Shares(es, |ms|)
  {
    InitShape(ms);
    if es != [] {
      var front := es[..|es| - 1];
      var e := es[|es| - 1];
      AfterExpensesAmount(ms, front, k);
      ShareAmount(AfterExpenses(Init(ms), ms, front), ms, e.payer, e.amount, SplitOf(e.amount, |ms|), k);
    }
  }

  lemma DivideSum(x: real, y: real, n: real)
    requires n > 0.0
    ensures (x + y) / n == x / n + y / n
  {
  }

  /** The shares add up to the equal share of the total spent. */
  lemma {:induction false} SharesOfSpent(es: seq<ExpenseLine>, n: nat)
    requires n > 0
    ensures Shares(es, n) == Spent(es) / (n as real)
  {
    if es != [] {
      SharesOfSpent(es[..|es| - 1], n);
      DivideSum(Spent(es[..|es| - 1]), es[|es| - 1].amount, n as real);
    }
  }

  /**
   * A member's balance from the summary figures: what the member paid for expenses,
   * minus an equal share of the group's total spending, plus the net of the settlements.
   */
  lemma BalanceFormula(ms: seq<Id>, es: seq<ExpenseLine>, ts: seq<Transfer>, k: Id)
    requires Unique(ms) && k in ms
    ensures Amount(Balances(ms, es, ts), k) == PaidBy(es, k) - Spent(es) / (|ms| as real) + NetFlow(ts, k)
  {
    AfterExpensesAmount(ms, es, k);
    SharesOfSpent(es, |ms|);
    AfterTransfersAmount(AfterExpenses(Init(ms), ms, es), ts, k);
  }

  /**
   * With well-formed settlements, a member's balance is "You paid" minus what the member
   * received minus an equal share of the total spent.
   */
  lemma BalanceFromSpend(ms: seq<Id>, es: seq<ExpenseLine>, ts: seq<Transfer>, me: Id)
    requires Unique(ms) && me in ms
    requires forall i :: 0 <= i < |ts| ==> Applies(ts[i]) && ts[i].from != ts[i].to
    ensures Amount(Balances(ms, es, ts), me)
            == MySpend(es, ts, me) - ReceivedBy(ts, me) - Spent(es) / (|ms| as real)
  {
    BalanceFormula(ms, es, ts, me);
    NetFlowSentReceived(ts, me);
  }

  /**
   * The seed data (server/seed.js): Alice, Bob and Charlie; Alice pays 300, Bob 60 and
   * Charlie 30; Bob settles 50 with Alice. Alice is owed 120, Bob owes 20, Charlie owes 100.
   */
  lemma SeedScenario(alice: Id, bob: Id, charlie: Id)
    requires alice != bob && alice != charlie && bob != charlie
    requires alice != "" && bob != ""
    ensures var ms := [alice, bob, charlie];
            var es := [ExpenseLine("Hotel Booking", 300.0, alice), ExpenseLine("Friday Dinner", 60.0, bob),
                       ExpenseLine("Snacks & Drinks", 30.0, charlie)];
            var ts := [Transfer(Some(bob), Some(alice), 50.0)];
            Amount(Balances(ms, es, ts), alice) == 120.0
            && Amount(Balances(ms, es, ts), bob) == -20.0
            && Amount(Balances(ms, es, ts), charlie) == -100.0
            && Total(Balances(ms, es, ts)) == 0.0
  {
    var ms := [alice, bob, charlie];
    var e1, e2, e3 := ExpenseLine("Hotel Booking", 300.0, alice), ExpenseLine("Friday Dinner", 60.0, bob),
                      ExpenseLine("Snacks & Drinks", 30.0, charlie);
    var es := [e1, e2, e3];
    var ts := [Transfer(Some(bob), Some(alice), 50.0)];
    assert Unique(ms);
    assert es[..|es| - 1] == [e1, e2];
    assert [e1, e2][..1] == [e1];
    assert [e1][..0] == [] && ts[..0] == [];
    assert Spent([e1]) == 300.0;
    assert Spent([e1, e2]) == 360.0;
    assert Spent(es) == 390.0;
    assert PaidBy([e1], alice) == 300.0;
    assert PaidBy([e1, e2], alice) == 300.0;
    assert PaidBy(es, alice) == 300.0;
    assert PaidBy([e1], bob) == 0.0;
    assert PaidBy([e1, e2], bob) == 60.0;
    assert PaidBy(es, bob) == 60.0;
    assert PaidBy([e1], charlie) == 0.0;
    assert PaidBy([e1, e2], charlie) == 0.0;
    assert PaidBy(es, charlie) == 30.0;
    assert NetFlow(ts, alice) == -50.0;
    assert NetFlow(ts, bob) == 50.0;
    assert NetFlow(ts, charlie) == 0.0;
    BalanceFormula(ms, es, ts, alice);
    BalanceFormula(ms, es, ts, bob);
    BalanceFormula(ms, es, ts, charlie);
    Conservation(ms, es, ts);
  }

  // ---------------------------------------------------------------------------
  // What the Balances section renders
  // ---------------------------------------------------------------------------

  /** `Object.entries(balances).filter(([, amount]) => Math.abs(amount) >= 0.01)`. */
  function Visible(b: Book): (r: seq<Entry>)
    ensures forall e :: e in r <==> e in Entries(b) && Abs(e.amount) >= 0.01
  {
    Sequences.Filter(Entries(b), (e: Entry) => Abs(e.amount) >= 0.01)
  }

  /** `group.members.find((m) => m._id === id)`: the first member with that id. */
  function FindMember(members: seq<Member>, id: Id): (r: Option<Member>)
    ensures r.Some? ==> r.value in members && r.value.id == id
    ensures r.None? <==> forall i :: 0 <= i < |members| ==> members[i].id != id
  {
    if members == [] then None
    else if members[0].id == id then Some(members[0])
    else
      var r := FindMember(members[1..], id);
      assert forall i :: 1 <= i < |members| ==> members[i] == members[1..][i - 1];
      r
  }

  /** With distinct member ids the member found is the only one with that id. */
  lemma FindMemberUnique(members: seq<Member>, m: Member)
    requires Unique(IdsOf(members)) && m in members
    ensures FindMember(members, m.id) == Some(m)
  {
    var r := FindMember(members, m.id);
    var i :| 0 <= i < |members| && members[i] == m;
    var j :| 0 <= j < |members| && members[j] == r.value;
    assert IdsOf(members)[i] == IdsOf(members)[j];
  }

  /** A rendered balance card. */
  datatype Row = Row(member: Member, amount: real)

  /** `entries.map(...)`, where an entry that matches no member renders nothing. */
  function RowsOf(members: seq<Member>, entries: seq<Entry>): (rows: seq<Row>)
    ensures forall r :: r in rows ==> FindMember(members, r.member.id) == Some(r.member)
                                      && Entry(r.member.id, r.amount) in entries
    ensures forall e :: e in entries && FindMember(members, e.key).Some? ==>
                          Row(FindMember(members, e.key).value, e.amount) in rows
  {
    if entries == [] then []
    else
      var rest := RowsOf(members, entries[1..]);
      assert forall e :: e in entries ==> e == entries[0] || e in entries[1..];
      match FindMember(members, entries[0].key)
      case None => rest
      case Some(m) => [Row(m, entries[0].amount)] + rest
  }

  /** The Balances section: hidden, "All settled up!", or a grid of cards. */
  datatype Section = Hidden | AllSettled | Grid(rows: seq<Row>)

  function BalanceSection(members: seq<Member>, expenses: seq<ExpenseLine>, settlements: seq<Transfer>): (s: Section)
    ensures s.Hidden? <==> |expenses| == 0 || |members| == 0
    ensures s.AllSettled? <==> !s.Hidden? && forall e :: e in Entries(Balances(IdsOf(members), expenses, settlements)) ==> Abs(e.amount) < 0.01
  {
    if |expenses| == 0 || |members| == 0 then Hidden
    else
      var entries := Visible(Balances(IdsOf(members), expenses, settlements));
      if entries == [] then AllSettled
      else
        assert entries[0] in entries;
        Grid(RowsOf(members, entries))
  }

  /**
   * The cards shown: one for each member whose balance is at least 0.01 away from zero,
   * carrying that balance, and none for a key that matches no member. Once there is an
   * expense, a member's balance of at least 0.01 is exactly what makes the grid appear with
   * their card.
   */
  lemma ShownRows(members: seq<Member>, expenses: seq<ExpenseLine>, settlements: seq<Transfer>, m: Member)
    requires Unique(IdsOf(members)) && m in members && expenses != []
    ensures var s := BalanceSection(members, expenses, settlements);
            var b := Balances(IdsOf(members), expenses, settlements);
            && (s.Grid? ==> forall r :: r in s.rows ==> r.member in members && Abs(r.amount) >= 0.01 && r.amount == Amount(b, r.member.id))
            && (Abs(Amount(b, m.id)) >= 0.01 <==> s.Grid? && Row(m, Amount(b, m.id)) in s.rows)
  {
    var ms := IdsOf(members);
    var b := Balances(ms, expenses, settlements);
    var s := BalanceSection(members, expenses, settlements);
    BalancesShape(ms, expenses, settlements);
    FindMemberUnique(members, m);
    assert m.id in ms && Has(b.keys, m.id);
    assert Entry(m.id, Amount(b, m.id)) in Entries(b);
    if Abs(Amount(b, m.id)) >= 0.01 {
      assert Entry(m.id, Amount(b, m.id)) in Visible(b);
    }
  }

  // ---------------------------------------------------------------------------
  // The card buttons
  // ---------------------------------------------------------------------------

  /** The body `handleMarkPaid` posts to the settlement endpoint. */
  datatype PaymentRequest = PaymentRequest(groupId: Id, fromUserId: Id, toUserId: Id, amount: real)

  /** A button on a card: "Remind" (`handleRemindMember`) or "Mark Paid" (`handleMarkPaid`). */
  datatype Action = Remind(memberId: Id) | MarkPaid(request: PaymentRequest)

  /**
   * The buttons of a grid: every card of another member offers Remind; a card of another
   * member with a positive balance also offers Mark Paid, recording a payment from the
   * current user of the balance's absolute value; one's own card offers nothing.
   */
  function CardActions(rows: seq<Row>, me: Id, groupId: Id): (acts: seq<Action>)
    ensures forall a :: a in acts && a.Remind? ==> exists r :: r in rows && r.member.id == a.memberId && a.memberId != me
    ensures forall a :: a in acts && a.MarkPaid? ==>
              a.request.fromUserId == me && a.request.groupId == groupId && a.request.toUserId != me
              && a.request.amount > 0.0 && Row(FindRow(rows, a.request.toUserId, a.request.amount), a.request.amount) in rows
    ensures forall r :: r in rows && r.member.id != me ==> Remind(r.member.id) in acts
    ensures forall r :: r in rows && r.member.id != me && r.amount > 0.0 ==>
              MarkPaid(PaymentRequest(groupId, me, r.member.id, Abs(r.amount))) in acts
  {
    if rows == [] then []
    else
      var r := rows[0];
      var rest := CardActions(rows[1..], me, groupId);
      assert forall x :: x in rows ==> x == r || x in rows[1..];
      if r.member.id == me then rest
      else if r.amount > 0.0 then [Remind(r.member.id), MarkPaid(PaymentRequest(groupId, me, r.member.id, Abs(r.amount)))] + rest
      else [Remind(r.member.id)] + rest
  }

  /** The member of the first card with that member id and amount. */
  function FindRow(rows: seq<Row>, id: Id, amount: real): (m: Member)
    ensures (exists r :: r in rows && r.member.id == id && r.amount == amount) ==> Row(m, amount) in rows && m.id == id
  {
    if rows == [] then Member(id, "")
    else if rows[0].member.id == id && rows[0].amount == amount then rows[0].member
    else
      assert forall r :: r in rows ==> r == rows[0] || r in rows[1..];
      FindRow(rows[1..], id, amount)
  }

  /** The settlement the server stores for a Mark Paid request, as the dashboard reads it back. */
  function Recorded(p: PaymentRequest): Transfer
  {
    Transfer(Some(p.fromUserId), Some(p.toUserId), p.amount)
  }

  /** Inserting one settlement anywhere adds its own effect to the net flow of each key. */
  lemma InsertedFlow(ts: seq<Transfer>, t: Transfer, i: nat, k: Id)
    requires i <= |ts|
    ensures NetFlow(ts[..i] + [t] + ts[i..], k) == NetFlow(ts, k) + Flow(t, k)
  {
    NetFlowConcat(ts[..i] + [t], ts[i..], k);
    NetFlowConcat(ts[..i], [t], k);
    NetFlowConcat(ts[..i], ts[i..], k);
    assert ts == ts[..i] + ts[i..];
    assert [t][..0] == [];
  }

  /**
   * Mark Paid settles the payee: once the recorded settlement is among the group's
   * settlements, wherever the listing places it, the payee's balance is exactly 0
   * and the current user's balance has grown by the amount paid.
   */
  lemma MarkPaidSettles(ms: seq<Id>, es: seq<ExpenseLine>, ts: seq<Transfer>, p: PaymentRequest, i: nat)
    requires Unique(ms) && p.toUserId in ms && p.fromUserId in ms && p.fromUserId != p.toUserId
    requires p.fromUserId != "" && p.toUserId != ""
    requires Amount(Balances(ms, es, ts), p.toUserId) > 0.0
    requires p.amount == Abs(Amount(Balances(ms, es, ts), p.toUserId))
    requires i <= |ts|
    ensures Amount(Balances(ms, es, ts[..i] + [Recorded(p)] + ts[i..]), p.toUserId) == 0.0
    ensures Amount(Balances(ms, es, ts[..i] + [Recorded(p)] + ts[i..]), p.fromUserId)
            == Amount(Balances(ms, es, ts), p.fromUserId) + p.amount
  {
    var t := Recorded(p);
    var ts' := ts[..i] + [t] + ts[i..];
    InsertedFlow(ts, t, i, p.toUserId);
    InsertedFlow(ts, t, i, p.fromUserId);
    BalanceFormula(ms, es, ts, p.toUserId);
    BalanceFormula(ms, es, ts', p.toUserId);
    BalanceFormula(ms, es, ts, p.fromUserId);
    BalanceFormula(ms, es, ts', p.fromUserId);
  }
}
