/** The record store the handlers read and write through `ctx.db`: the
    `expenses`, `settlements`, `groups` and `users` tables. Writes are
    `insert`, `delete` and `patch` by id; the groups and users tables are
    owned by other parts of the application and only read here. */
module Store {
  import opened Folds
  import opened Records

  /** What every admitted expense satisfies: a positive amount, a known
      split type, positive split amounts summing to the amount within the
      tolerance. */
  predicate WellFormedExpense(e: Expense)
  {
    && e.amount > 0.0
    && ValidSplitType(e.splitType)
    && (forall i :: 0 <= i < |e.splits| ==> e.splits[i].amount > 0.0)
    && Abs(SplitTotal(e.splits) - e.amount) <= Tolerance
  }

  /** What every admitted settlement satisfies. */
  predicate WellFormedSettlement(s: Settlement)
  {
    s.amount > 0.0 && s.paidBy != s.receivedBy
  }

  function ExpenseKey(e: Expense): ExpenseId { e.id }

  function SettlementKey(s: Settlement): SettlementId { s.id }

  function ExpenseIdIsNot(id: ExpenseId): Expense -> bool { (e: Expense) => e.id != id }

  function SettlementIdIsNot(id: SettlementId): Settlement -> bool { (s: Settlement) => s.id != id }

  /** `ctx.db.get(expenseId)` on the expenses table. */
  function FindExpense(expenses: seq<Expense>, id: ExpenseId): (r: Option<Expense>)
    ensures r.Some? ==> r.value in expenses && r.value.id == id
    ensures r.None? ==> forall e :: e in expenses ==> e.id != id
  {
    var k := FirstIndex(expenses, (e: Expense) => e.id == id);
    if k < |expenses| then Some(expenses[k]) else None
  }

  /** `ctx.db.patch(id, {relatedExpenseIds: ids})` on a settlement table. */
  function PatchRelated(settlements: seq<Settlement>, id: SettlementId, ids: seq<ExpenseId>): (r: seq<Settlement>)
    ensures |r| == |settlements|
    ensures forall i :: 0 <= i < |r| ==>
              r[i] == if settlements[i].id == id then settlements[i].(relatedExpenseIds := Some(ids))
                      else settlements[i]
  {
    seq(|settlements|, i requires 0 <= i < |settlements| =>
      if settlements[i].id == id then settlements[i].(relatedExpenseIds := Some(ids)) else settlements[i])
  }

  lemma {:induction false} FilterKeepsDistinct<T, K>(s: seq<T>, p: T -> bool, key: T -> K)
    requires DistinctBy(s, key)
    ensures DistinctBy(Filter(s, p), key)
    decreases |s|
  {
    if s != [] {
      var s' := s[..|s| - 1];
      var x := s[|s| - 1];
      assert DistinctBy(s', key);
      FilterKeepsDistinct(s', p, key);
      if p(x) {
        var f := Filter(s', p);
        forall y | y in f ensures key(y) != key(x) {
          FilterMembers(s', p, y);
          var k :| 0 <= k < |s'| && s'[k] == y;
          assert s[k] == y;
        }
        var r := f + [x];
        forall i, j | 0 <= i < j < |r| ensures key(r[i]) != key(r[j]) {
          if j == |r| - 1 {
            assert r[i] in f;
          } else {
            assert r[i] == f[i] && r[j] == f[j];
          }
        }
      }
    }
  }

  class Db {
    var expenses: seq<Expense>
    var settlements: seq<Settlement>
    var groups: seq<Group>
    var users: map<UserId, User>
    /** Source of fresh ids for `insert`. */
    var nextExpenseId: nat
    var nextSettlementId: nat

    /** Stored records are well formed, ids are unique per table and
        below the next id to hand out. */
    ghost predicate Valid()
      reads this
    {
      && DistinctBy(expenses, ExpenseKey)
      && DistinctBy(settlements, SettlementKey)
      && (forall e :: e in expenses ==> e.id < nextExpenseId && WellFormedExpense(e))
      && (forall s :: s in settlements ==> s.id < nextSettlementId && WellFormedSettlement(s))
    }

    constructor (groups: seq<Group>, users: map<UserId, User>)
      ensures Valid()
      ensures expenses == [] && settlements == []
      ensures this.groups == groups && this.users == users
    {
      expenses, settlements := [], [];
      this.groups, this.users := groups, users;
      nextExpenseId, nextSettlementId := 0, 0;
    }

    /** `ctx.db.insert("expenses", e)`, which hands out a fresh id. */
    method InsertExpense(e: Expense) returns (id: ExpenseId)
      requires Valid()
      requires WellFormedExpense(e)
      modifies this
      ensures Valid()
      ensures id == old(nextExpenseId)
      ensures forall x :: x in old(expenses) ==> x.id != id
      ensures expenses == old(expenses) + [e.(id := id)]
      ensures settlements == old(settlements) && groups == old(groups) && users == old(users)
    {
      id := nextExpenseId;
      var stored := e.(id := id);
      forall i, j | 0 <= i < j < |expenses + [stored]|
        ensures ExpenseKey((expenses + [stored])[i]) != ExpenseKey((expenses + [stored])[j])
      {
        if j == |expenses| {
          assert (expenses + [stored])[i] in expenses;
        } else {
          assert (expenses + [stored])[i] == expenses[i];
          assert (expenses + [stored])[j] == expenses[j];
        }
      }
      expenses := expenses + [stored];
      nextExpenseId := nextExpenseId + 1;
    }

    /** `ctx.db.insert("settlements", s)`, which hands out a fresh id. */
    method InsertSettlement(s: Settlement) returns (id: SettlementId)
      requires Valid()
      requires WellFormedSettlement(s)
      modifies this
      ensures Valid()
      ensures id == old(nextSettlementId)
      ensures forall x :: x in old(settlements) ==> x.id != id
      ensures settlements == old(settlements) + [s.(id := id)]
      ensures expenses == old(expenses) && groups == old(groups) && users == old(users)
    {
      id := nextSettlementId;
      var stored := s.(id := id);
      forall i, j | 0 <= i < j < |settlements + [stored]|
        ensures SettlementKey((settlements + [stored])[i]) != SettlementKey((settlements + [stored])[j])
      {
        if j == |settlements| {
          assert (settlements + [stored])[i] in settlements;
        } else {
          assert (settlements + [stored])[i] == settlements[i];
          assert (settlements + [stored])[j] == settlements[j];
        }
      }
      settlements := settlements + [stored];
      nextSettlementId := nextSettlementId + 1;
    }

    /** `ctx.db.delete(expenseId)`. */
    method RemoveExpense(id: ExpenseId)
      requires Valid()
      modifies this
      ensures Valid()
      ensures expenses == Filter(old(expenses), ExpenseIdIsNot(id))
      ensures settlements == old(settlements) && groups == old(groups) && users == old(users)
    {
      FilterKeepsDistinct(expenses, ExpenseIdIsNot(id), ExpenseKey);
      forall e | e in Filter(expenses, ExpenseIdIsNot(id)) ensures e in expenses {
        FilterMembers(expenses, ExpenseIdIsNot(id), e);
      }
      expenses := Filter(expenses, ExpenseIdIsNot(id));
    }

    /** `ctx.db.delete(settlementId)`. */
    method RemoveSettlement(id: SettlementId)
      requires Valid()
      modifies this
      ensures Valid()
      ensures settlements == Filter(old(settlements), SettlementIdIsNot(id))
      ensures expenses == old(expenses) && groups == old(groups) && users == old(users)
    {
      FilterKeepsDistinct(settlements, SettlementIdIsNot(id), SettlementKey);
      forall s | s in Filter(settlements, SettlementIdIsNot(id)) ensures s in settlements {
        FilterMembers(settlements, SettlementIdIsNot(id), s);
      }
      settlements := Filter(settlements, SettlementIdIsNot(id));
    }

    /** `ctx.db.patch(settlementId, {relatedExpenseIds: ids})`. */
    method PatchSettlement(id: SettlementId, ids: seq<ExpenseId>)
      requires Valid()
      modifies this
      ensures Valid()
      ensures settlements == PatchRelated(old(settlements), id, ids)
      ensures expenses == old(expenses) && groups == old(groups) && users == old(users)
    {
      var patched := PatchRelated(settlements, id, ids);
      forall s | s in patched ensures s.id < nextSettlementId && WellFormedSettlement(s) {
        var k :| 0 <= k < |patched| && patched[k] == s;
        assert settlements[k] in settlements;
      }
      assert DistinctBy(patched, SettlementKey) by {
        forall i, j | 0 <= i < j < |patched| ensures SettlementKey(patched[i]) != SettlementKey(patched[j]) {
          assert SettlementKey(settlements[i]) != SettlementKey(settlements[j]);
        }
      }
      settlements := patched;
    }
  }
}
