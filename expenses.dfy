/** convex/expenses.js: admitting an expense, the pairwise history and
    balance between the caller and one other user, and deleting an expense
    together with the settlements that point at it. */
module Expenses {
  import opened Folds
  import opened Records
  import opened Store

  /* ================= createExpense ================= */

  datatype ExpenseDraft = ExpenseDraft(
    description: string,
    amount: real,
    category: Option<string>,
    date: int,
    paidBy: UserId,
    splitType: string,
    splits: seq<Split>,
    groupId: Option<GroupId>)

  /** `args.category || "Other"`: an absent or empty category reads "Other". */
  function CategoryOrOther(c: Option<string>): (r: string)
    ensures r != ""
    ensures c.Some? && c.value != "" ==> r == c.value
    ensures c.None? || c.value == "" ==> r == "Other"
  {
    if c.Some? && c.value != "" then c.value else "Other"
  }

  /** The membership guard of a grouped draft, or None when it passes. */
  function GroupGuard(d: ExpenseDraft, caller: UserId, groups: seq<Group>): Option<Error>
  {
    if d.groupId.None? then None
    else match FindGroup(groups, d.groupId.value)
      case None => Some(GroupNotFound)
      case Some(g) =>
        if !IsMember(g, caller) then Some(CallerNotGroupMember)
        else if !IsMember(g, d.paidBy) then Some(PayerNotGroupMember)
        else if exists i :: 0 <= i < |d.splits| && !IsMember(g, d.splits[i].userId) then Some(SplitUserNotGroupMember)
        else None
  }

  /** The first three guards: a positive amount, a known split type and
      positive split amounts. */
  predicate BasicChecks(d: ExpenseDraft)
  {
    d.amount > 0.0 && ValidSplitType(d.splitType) && forall s :: s in d.splits ==> s.amount > 0.0
  }

  /** The membership guards pass: no group, or a found group holding the
      caller, the payer and every split participant. */
  predicate GroupChecks(d: ExpenseDraft, caller: UserId, groups: seq<Group>)
  {
    d.groupId.Some? ==>
      && FindGroup(groups, d.groupId.value).Some?
      && var g := FindGroup(groups, d.groupId.value).value;
         IsMember(g, caller) && IsMember(g, d.paidBy) && forall s :: s in d.splits ==> IsMember(g, s.userId)
  }

  /** Everything the handler demands of a draft before inserting it. */
  ghost predicate Admissible(d: ExpenseDraft, caller: UserId, groups: seq<Group>)
  {
    && d.amount > 0.0
    && ValidSplitType(d.splitType)
    && (forall s :: s in d.splits ==> s.amount > 0.0)
    && (d.groupId.Some? ==>
          && FindGroup(groups, d.groupId.value).Some?
          && var g := FindGroup(groups, d.groupId.value).value;
             IsMember(g, caller) && IsMember(g, d.paidBy)
             && forall s :: s in d.splits ==> IsMember(g, s.userId))
    && (d.paidBy == caller || InSplits(d.splits, caller))
    && Abs(SplitTotal(d.splits) - d.amount) <= Tolerance
  }

  /** The guard chain of `createExpense`, in the order the handler checks
      it, and the record it would insert under id `id`. */
  function AdmitExpense(d: ExpenseDraft, caller: UserId, groups: seq<Group>, id: ExpenseId): (r: Result<Expense>)
    ensures r.Ok? <==> Admissible(d, caller, groups)
    ensures r.Ok? ==> WellFormedExpense(r.value)
    ensures r.Ok? ==> r.value == Expense(id, d.description, d.amount, CategoryOrOther(d.category), d.date,
                                         d.paidBy, d.splitType, d.splits, d.groupId, caller)
    ensures d.amount <= 0.0 ==> r == Err(AmountNotPositive)
    ensures d.amount > 0.0 && !ValidSplitType(d.splitType) ==> r == Err(InvalidSplitType)
    ensures d.amount > 0.0 && ValidSplitType(d.splitType) && (exists s :: s in d.splits && s.amount <= 0.0)
            ==> r == Err(SplitAmountNotPositive)
    ensures r.Err? && r.error in {GroupNotFound, CallerNotGroupMember, PayerNotGroupMember, SplitUserNotGroupMember}
            ==> d.groupId.Some?
    ensures r.Err? && r.error == CallerNotInvolved ==> d.paidBy != caller && !InSplits(d.splits, caller)
    ensures r.Err? && r.error == SplitSumMismatch ==> Abs(SplitTotal(d.splits) - d.amount) > Tolerance
    ensures BasicChecks(d) && d.groupId.Some? && FindGroup(groups, d.groupId.value).None?
            ==> r == Err(GroupNotFound)
    ensures BasicChecks(d) && d.groupId.Some? && FindGroup(groups, d.groupId.value).Some?
            && !IsMember(FindGroup(groups, d.groupId.value).value, caller)
            ==> r == Err(CallerNotGroupMember)
    ensures BasicChecks(d) && d.groupId.Some? && FindGroup(groups, d.groupId.value).Some?
            && IsMember(FindGroup(groups, d.groupId.value).value, caller)
            && !IsMember(FindGroup(groups, d.groupId.value).value, d.paidBy)
            ==> r == Err(PayerNotGroupMember)
    ensures BasicChecks(d) && d.groupId.Some? && FindGroup(groups, d.groupId.value).Some?
            && IsMember(FindGroup(groups, d.groupId.value).value, caller)
            && IsMember(FindGroup(groups, d.groupId.value).value, d.paidBy)
            && (exists s :: s in d.splits && !IsMember(FindGroup(groups, d.groupId.value).value, s.userId))
            ==> r == Err(SplitUserNotGroupMember)
    ensures BasicChecks(d) && GroupChecks(d, caller, groups) && d.paidBy != caller && !InSplits(d.splits, caller)
            ==> r == Err(CallerNotInvolved)
    ensures BasicChecks(d) && GroupChecks(d, caller, groups) && (d.paidBy == caller || InSplits(d.splits, caller))
            && Abs(SplitTotal(d.splits) - d.amount) > Tolerance
            ==> r == Err(SplitSumMismatch)
  {
    if d.amount <= 0.0 then Err(AmountNotPositive)
    else if !ValidSplitType(d.splitType) then Err(InvalidSplitType)
    else if exists i :: 0 <= i < |d.splits| && d.splits[i].amount <= 0.0 then Err(SplitAmountNotPositive)
    else if GroupGuard(d, caller, groups).Some? then Err(GroupGuard(d, caller, groups).value)
    else if d.paidBy != caller && !InSplits(d.splits, caller) then Err(CallerNotInvolved)
    else if Abs(SplitTotal(d.splits) - d.amount) > Tolerance then Err(SplitSumMismatch)
    else Ok(Expense(id, d.description, d.amount, CategoryOrOther(d.category), d.date,
                    d.paidBy, d.splitType, d.splits, d.groupId, caller))
  }

  /** `createExpense`: run the guards, then insert; nothing is written on failure. */
  method CreateExpense(db: Db, d: ExpenseDraft, caller: UserId) returns (r: Result<ExpenseId>)
    requires db.Valid()
    modifies db
    ensures db.Valid()
    ensures r.Ok? <==> Admissible(d, caller, old(db.groups))
    ensures r.Err? ==> r == Err(AdmitExpense(d, caller, old(db.groups), 0).error) && unchanged(db)
    ensures r.Ok? ==> && r.value == old(db.nextExpenseId)
                      && db.expenses == old(db.expenses) + [AdmitExpense(d, caller, old(db.groups), r.value).value]
                      && db.settlements == old(db.settlements)
                      && db.groups == old(db.groups) && db.users == old(db.users)
  {
    var admitted := AdmitExpense(d, caller, db.groups, db.nextExpenseId);
    if admitted.Err? {
      return Err(admitted.error);
    }
    var id := db.InsertExpense(admitted.value);
    r := Ok(id);
  }

  /* ================= getExpensesBetweenUsers ================= */

  function BothInvolved(me: UserId, other: UserId): Expense -> bool
  {
    (e: Expense) => Involves(e, me) && Involves(e, other)
  }

  /** Ungrouped expenses either party paid, mine first (the two index scans). */
  function PairCandidates(expenses: seq<Expense>, me: UserId, other: UserId): seq<Expense>
  {
    Filter(expenses, PaidUngroupedBy(me)) + Filter(expenses, PaidUngroupedBy(other))
  }

  /** The expense history of the pair, newest first. */
  function PairExpenses(expenses: seq<Expense>, me: UserId, other: UserId): seq<Expense>
  {
    SortDesc(Filter(PairCandidates(expenses, me, other), BothInvolved(me, other)), ExpenseDate)
  }

  function BetweenUngrouped(me: UserId, other: UserId): Settlement -> bool
  {
    (s: Settlement) => s.groupId.None? &&
      ((s.paidBy == me && s.receivedBy == other) || (s.paidBy == other && s.receivedBy == me))
  }

  /** The settlement history of the pair, newest first. */
  function PairSettlements(settlements: seq<Settlement>, me: UserId, other: UserId): seq<Settlement>
  {
    SortDesc(Filter(settlements, BetweenUngrouped(me, other)), SettlementDate)
  }

  /** What one expense adds to my balance with `other`: their first unpaid
      split when I paid, minus my first unpaid split otherwise. */
  function PairExpenseShare(me: UserId, other: UserId): Expense -> real
  {
    (e: Expense) => if e.paidBy == me then UnpaidShare(e.splits, other) else -UnpaidShare(e.splits, me)
  }

  /** What one settlement adds to my balance: what I paid, minus what I received. */
  function PairSettlementShare(me: UserId): Settlement -> real
  {
    (s: Settlement) => if s.paidBy == me then s.amount else -s.amount
  }

  function PairExpenseNet(expenses: seq<Expense>, me: UserId, other: UserId): real
  {
    Sum(PairExpenses(expenses, me, other), PairExpenseShare(me, other))
  }

  function PairSettledNet(settlements: seq<Settlement>, me: UserId, other: UserId): real
  {
    Sum(PairSettlements(settlements, me, other), PairSettlementShare(me))
  }

  /** The pairwise balance: positive means `other` owes `me`. */
  function PairBalance(expenses: seq<Expense>, settlements: seq<Settlement>, me: UserId, other: UserId): real
  {
    PairExpenseNet(expenses, me, other) + PairSettledNet(settlements, me, other)
  }

  /** The running-balance loops of `getExpensesBetweenUsers`. */
  method FoldPairBalance(expenses: seq<Expense>, settlements: seq<Settlement>, me: UserId, other: UserId)
    returns (balance: real)
    ensures balance == Sum(expenses, PairExpenseShare(me, other)) + Sum(settlements, PairSettlementShare(me))
  {
    balance := 0.0;
    for i := 0 to |expenses|
      invariant balance == Sum(expenses[..i], PairExpenseShare(me, other))
    {
      var e := expenses[i];
      assert expenses[..i + 1][..i] == expenses[..i];
      if e.paidBy == me {
        var split := FindUnpaidSplit(e.splits, other);
        if split.Some? {
          balance := balance + split.value.amount;
        }
      } else {
        var split := FindUnpaidSplit(e.splits, me);
        if split.Some? {
          balance := balance - split.value.amount;
        }
      }
    }
    assert expenses[..|expenses|] == expenses;
    ghost var fromExpenses := balance;
    for i := 0 to |settlements|
      invariant balance == fromExpenses + Sum(settlements[..i], PairSettlementShare(me))
    {
      var s := settlements[i];
      assert settlements[..i + 1][..i] == settlements[..i];
      if s.paidBy == me {
        balance := balance + s.amount;
      } else {
        balance := balance - s.amount;
      }
    }
    assert settlements[..|settlements|] == settlements;
  }

  datatype PairView = PairView(
    expenses: seq<Expense>,
    settlements: seq<Settlement>,
    otherId: UserId,
    otherName: string,
    balance: real)

  /** `getExpensesBetweenUsers`. */
  method GetExpensesBetweenUsers(db: Db, me: UserId, other: UserId) returns (r: Result<PairView>)
    ensures me == other ==> r == Err(CannotQueryYourself)
    ensures me != other && other !in db.users ==> r == Err(UserNotFound)
    ensures me != other && other in db.users ==>
              r == Ok(PairView(PairExpenses(db.expenses, me, other), PairSettlements(db.settlements, me, other),
                               other, db.users[other].name, PairBalance(db.expenses, db.settlements, me, other)))
  {
    if me == other {
      return Err(CannotQueryYourself);
    }
    var myPaid := Filter(db.expenses, PaidUngroupedBy(me));
    var theirPaid := Filter(db.expenses, PaidUngroupedBy(other));
    var expenses := Filter(myPaid + theirPaid, BothInvolved(me, other));
    expenses := SortDesc(expenses, ExpenseDate);
    var settlements := Filter(db.settlements, BetweenUngrouped(me, other));
    settlements := SortDesc(settlements, SettlementDate);
    assert expenses == PairExpenses(db.expenses, me, other);
    assert settlements == PairSettlements(db.settlements, me, other);
    var balance := FoldPairBalance(expenses, settlements, me, other);
    assert balance == PairBalance(db.expenses, db.settlements, me, other);
    if other !in db.users {
      return Err(UserNotFound);
    }
    r := Ok(PairView(expenses, settlements, other, db.users[other].name, balance));
  }

  /** An expense belongs to the pair history when it is ungrouped, paid by
      one of the two, and involves both. */
  predicate InPairHistory(e: Expense, me: UserId, other: UserId)
  {
    e.groupId.None? && (e.paidBy == me || e.paidBy == other) && Involves(e, me) && Involves(e, other)
  }

  function InPairHistoryOf(me: UserId, other: UserId): Expense -> bool
  {
    (e: Expense) => InPairHistory(e, me, other)
  }

  function PaidAndInvolved(payer: UserId, me: UserId, other: UserId): Expense -> bool
  {
    (e: Expense) => PaidUngroupedBy(payer)(e) && BothInvolved(me, other)(e)
  }

  /** The pair's expense history holds exactly the stored expenses the
      pair shares, each once, newest first. */
  lemma {:induction false} PairExpensesSelection(expenses: seq<Expense>, me: UserId, other: UserId)
    requires me != other
    ensures multiset(PairExpenses(expenses, me, other)) == multiset(Filter(expenses, InPairHistoryOf(me, other)))
    ensures SortedDesc(PairExpenses(expenses, me, other), ExpenseDate)
  {
    var both := BothInvolved(me, other);
    var mine := PaidAndInvolved(me, me, other);
    var theirs := PaidAndInvolved(other, me, other);
    FilterAppend(Filter(expenses, PaidUngroupedBy(me)), Filter(expenses, PaidUngroupedBy(other)), both);
    FilterFilter(expenses, PaidUngroupedBy(me), both, mine);
    FilterFilter(expenses, PaidUngroupedBy(other), both, theirs);
    PairHistoryByPayer(me, other);
    FilterUnion(expenses, mine, theirs, InPairHistoryOf(me, other));
    assert Filter(PairCandidates(expenses, me, other), both) == Filter(expenses, mine) + Filter(expenses, theirs);
  }

  /** The pair history splits by payer into two disjoint parts. */
  lemma PairHistoryByPayer(me: UserId, other: UserId)
    requires me != other
    ensures forall e :: !(PaidAndInvolved(me, me, other)(e) && PaidAndInvolved(other, me, other)(e))
    ensures forall e :: InPairHistoryOf(me, other)(e) == (PaidAndInvolved(me, me, other)(e) || PaidAndInvolved(other, me, other)(e))
  {
    forall e ensures !(PaidAndInvolved(me, me, other)(e) && PaidAndInvolved(other, me, other)(e))
      && InPairHistoryOf(me, other)(e) == (PaidAndInvolved(me, me, other)(e) || PaidAndInvolved(other, me, other)(e))
    {
      assert PaidUngroupedBy(me)(e) == (e.paidBy == me && e.groupId.None?);
      assert PaidUngroupedBy(other)(e) == (e.paidBy == other && e.groupId.None?);
      assert BothInvolved(me, other)(e) == (Involves(e, me) && Involves(e, other));
    }
  }

  /** The pair's settlement history holds exactly the ungrouped
      settlements between the two, newest first. */
  lemma {:induction false} PairSettlementsSelection(settlements: seq<Settlement>, me: UserId, other: UserId)
    ensures forall s :: s in PairSettlements(settlements, me, other) <==>
              s in settlements && s.groupId.None? &&
              ((s.paidBy == me && s.receivedBy == other) || (s.paidBy == other && s.receivedBy == me))
    ensures SortedDesc(PairSettlements(settlements, me, other), SettlementDate)
    ensures multiset(PairSettlements(settlements, me, other)) == multiset(Filter(settlements, BetweenUngrouped(me, other)))
  {
    var p := BetweenUngrouped(me, other);
    forall s ensures s in PairSettlements(settlements, me, other) <==> s in settlements && p(s) {
      assert s in PairSettlements(settlements, me, other) <==> s in multiset(PairSettlements(settlements, me, other));
      assert s in Filter(settlements, p) <==> s in multiset(Filter(settlements, p));
      FilterMembers(settlements, p, s);
    }
  }

  /** The pair's expense net as one sum over the whole expenses table. */
  function PairExpenseTerm(me: UserId, other: UserId): Expense -> real
  {
    (e: Expense) => if InPairHistory(e, me, other) then PairExpenseShare(me, other)(e) else 0.0
  }

  function PairSettlementTerm(me: UserId, other: UserId): Settlement -> real
  {
    (s: Settlement) => if BetweenUngrouped(me, other)(s) then PairSettlementShare(me)(s) else 0.0
  }

  function InvolvedShare(me: UserId, other: UserId): Expense -> real
  {
    (e: Expense) => if BothInvolved(me, other)(e) then PairExpenseShare(me, other)(e) else 0.0
  }

  function PaidInvolvedShare(payer: UserId, me: UserId, other: UserId): Expense -> real
  {
    (e: Expense) => if PaidUngroupedBy(payer)(e) then InvolvedShare(me, other)(e) else 0.0
  }

  lemma {:induction false} CandidatesNet(expenses: seq<Expense>, me: UserId, other: UserId)
    ensures PairExpenseNet(expenses, me, other)
         == Sum(Filter(expenses, PaidUngroupedBy(me)), InvolvedShare(me, other))
          + Sum(Filter(expenses, PaidUngroupedBy(other)), InvolvedShare(me, other))
  {
    var a := Filter(expenses, PaidUngroupedBy(me));
    var b := Filter(expenses, PaidUngroupedBy(other));
    var f := PairExpenseShare(me, other);
    SumSortDesc(Filter(a + b, BothInvolved(me, other)), ExpenseDate, f);
    SumFilter(a + b, BothInvolved(me, other), f, InvolvedShare(me, other));
    SumAppend(a, b, InvolvedShare(me, other));
  }

  lemma {:induction false} PairExpenseNetOverTable(expenses: seq<Expense>, me: UserId, other: UserId)
    requires me != other
    ensures PairExpenseNet(expenses, me, other) == Sum(expenses, PairExpenseTerm(me, other))
  {
    CandidatesNet(expenses, me, other);
    SumFilter(expenses, PaidUngroupedBy(me), InvolvedShare(me, other), PaidInvolvedShare(me, me, other));
    SumFilter(expenses, PaidUngroupedBy(other), InvolvedShare(me, other), PaidInvolvedShare(other, me, other));
    SumAdd(expenses, PaidInvolvedShare(me, me, other), PaidInvolvedShare(other, me, other), PairExpenseTerm(me, other));
  }

  lemma {:induction false} PairSettledNetOverTable(settlements: seq<Settlement>, me: UserId, other: UserId)
    ensures PairSettledNet(settlements, me, other) == Sum(settlements, PairSettlementTerm(me, other))
  {
    var p := BetweenUngrouped(me, other);
    SumSortDesc(Filter(settlements, p), SettlementDate, PairSettlementShare(me));
    SumFilter(settlements, p, PairSettlementShare(me), PairSettlementTerm(me, other));
  }

  /** Seen from the other side, the pairwise balance changes sign. */
  lemma PairTermsOpposite(a: UserId, b: UserId)
    requires a != b
    ensures forall e :: PairExpenseTerm(b, a)(e) == -PairExpenseTerm(a, b)(e)
    ensures forall s :: PairSettlementTerm(b, a)(s) == -PairSettlementTerm(a, b)(s)
  {
    forall e ensures PairExpenseTerm(b, a)(e) == -PairExpenseTerm(a, b)(e) {
      assert InPairHistory(e, b, a) == InPairHistory(e, a, b);
      if InPairHistory(e, a, b) {
        assert PairExpenseShare(b, a)(e) == -PairExpenseShare(a, b)(e);
      }
    }
    forall s ensures PairSettlementTerm(b, a)(s) == -PairSettlementTerm(a, b)(s) {
      assert BetweenUngrouped(b, a)(s) == BetweenUngrouped(a, b)(s);
    }
  }

  lemma {:induction false} PairBalanceAntisymmetric(expenses: seq<Expense>, settlements: seq<Settlement>, a: UserId, b: UserId)
    requires a != b
    ensures PairBalance(expenses, settlements, a, b) == -PairBalance(expenses, settlements, b, a)
  {
    PairExpenseNetOverTable(expenses, a, b);
    PairExpenseNetOverTable(expenses, b, a);
    PairSettledNetOverTable(settlements, a, b);
    PairSettledNetOverTable(settlements, b, a);
    PairTermsOpposite(a, b);
    SumNeg(expenses, PairExpenseTerm(b, a), PairExpenseTerm(a, b));
    SumNeg(settlements, PairSettlementTerm(b, a), PairSettlementTerm(a, b));
  }

  /* ================= deleteExpense ================= */

  function ExpenseIdOther(eid: ExpenseId): ExpenseId -> bool { (x: ExpenseId) => x != eid }

  predicate Mentions(s: Settlement, eid: ExpenseId)
  {
    s.relatedExpenseIds.Some? && eid in s.relatedExpenseIds.value
  }

  function MentionsExpense(eid: ExpenseId): Settlement -> bool { (s: Settlement) => Mentions(s, eid) }

  /** `relatedExpenseIds.filter((id) => id !== expenseId)` */
  function Pruned(s: Settlement, eid: ExpenseId): (r: seq<ExpenseId>)
    requires s.relatedExpenseIds.Some?
    ensures eid !in r
    ensures forall x :: x in r <==> x in s.relatedExpenseIds.value && x != eid
    ensures IsSubsequence(r, s.relatedExpenseIds.value)
    ensures forall x :: x != eid ==> multiset(r)[x] == multiset(s.relatedExpenseIds.value)[x]
  {
    var r := Filter(s.relatedExpenseIds.value, ExpenseIdOther(eid));
    assert forall i :: 0 <= i < |r| ==> r[i] != eid;
    forall x ensures x in r <==> x in s.relatedExpenseIds.value && x != eid {
      FilterMembers(s.relatedExpenseIds.value, ExpenseIdOther(eid), x);
    }
    FilterIsSubsequence(s.relatedExpenseIds.value, ExpenseIdOther(eid));
    forall x | x != eid ensures multiset(r)[x] == multiset(s.relatedExpenseIds.value)[x] {
      FilterCount(s.relatedExpenseIds.value, ExpenseIdOther(eid), x);
    }
    r
  }

  /** What deleting expense `eid` leaves of one settlement: itself when it
      does not mention the expense, nothing when the expense was its only
      related one, otherwise itself with the id pruned. */
  function CascadeOne(s: Settlement, eid: ExpenseId): seq<Settlement>
  {
    if !Mentions(s, eid) then [s]
    else if Pruned(s, eid) == [] then []
    else [s.(relatedExpenseIds := Some(Pruned(s, eid)))]
  }

  /** The settlements table after the cascade of deleting expense `eid`. */
  function Cascade(settlements: seq<Settlement>, eid: ExpenseId): seq<Settlement>
    decreases |settlements|
  {
    if settlements == [] then []
    else Cascade(settlements[..|settlements| - 1], eid) + CascadeOne(settlements[|settlements| - 1], eid)
  }

  /** The table part-way through the cascade: only settlements whose id is
      in `done` have been processed. */
  function CascadeWhere(settlements: seq<Settlement>, eid: ExpenseId, done: set<SettlementId>): seq<Settlement>
    decreases |settlements|
  {
    if settlements == [] then []
    else
      var last := settlements[|settlements| - 1];
      CascadeWhere(settlements[..|settlements| - 1], eid, done)
        + (if last.id in done then CascadeOne(last, eid) else [last])
  }

  function IdsOf(settlements: seq<Settlement>): set<SettlementId>
  {
    set s | s in settlements :: s.id
  }

  lemma {:induction false} CascadeWhereNothing(settlements: seq<Settlement>, eid: ExpenseId)
    ensures CascadeWhere(settlements, eid, {}) == settlements
    decreases |settlements|
  {
    if settlements != [] {
      CascadeWhereNothing(settlements[..|settlements| - 1], eid);
    }
  }

  lemma {:induction false} CascadeWhereIds(settlements: seq<Settlement>, eid: ExpenseId, done: set<SettlementId>)
    ensures IdsOf(CascadeWhere(settlements, eid, done)) <= IdsOf(settlements)
    decreases |settlements|
  {
    if settlements != [] {
      var s' := settlements[..|settlements| - 1];
      CascadeWhereIds(s', eid, done);
      forall y | y in CascadeWhere(settlements, eid, done) ensures y.id in IdsOf(settlements) {
        if y in CascadeWhere(s', eid, done) {
          assert y.id in IdsOf(s');
          var x :| x in s' && x.id == y.id;
          assert x in settlements;
        } else {
          assert settlements[|settlements| - 1] in settlements;
        }
      }
    }
  }

  lemma {:induction false} CascadeWhereIgnores(settlements: seq<Settlement>, eid: ExpenseId, done: set<SettlementId>, id: SettlementId)
    requires id !in IdsOf(settlements)
    ensures CascadeWhere(settlements, eid, done + {id}) == CascadeWhere(settlements, eid, done)
    decreases |settlements|
  {
    if settlements != [] {
      var s' := settlements[..|settlements| - 1];
      assert settlements[|settlements| - 1] in settlements;
      assert IdsOf(s') <= IdsOf(settlements) by {
        forall y | y in s' ensures y in settlements { }
      }
      CascadeWhereIgnores(s', eid, done, id);
    }
  }

  lemma {:induction false} DistinctPrefix(settlements: seq<Settlement>)
    requires settlements != []
    requires DistinctBy(settlements, SettlementKey)
    ensures DistinctBy(settlements[..|settlements| - 1], SettlementKey)
    ensures settlements[|settlements| - 1].id !in IdsOf(settlements[..|settlements| - 1])
  {
    var s' := settlements[..|settlements| - 1];
    var x := settlements[|settlements| - 1];
    forall y | y in s' ensures y.id != x.id {
      var k :| 0 <= k < |s'| && s'[k] == y;
      assert SettlementKey(settlements[k]) != SettlementKey(settlements[|settlements| - 1]);
    }
  }

  /** Deleting a settlement that lost its last related expense advances the cascade by one. */
  lemma {:induction false} CascadeStepRemove(settlements: seq<Settlement>, eid: ExpenseId, done: set<SettlementId>, r: Settlement)
    requires DistinctBy(settlements, SettlementKey)
    requires r in settlements && Mentions(r, eid) && Pruned(r, eid) == [] && r.id !in done
    ensures Filter(CascadeWhere(settlements, eid, done), SettlementIdIsNot(r.id))
            == CascadeWhere(settlements, eid, done + {r.id})
    decreases |settlements|
  {
    var s' := settlements[..|settlements| - 1];
    var x := settlements[|settlements| - 1];
    var notR := SettlementIdIsNot(r.id);
    DistinctPrefix(settlements);
    var imgOld := if x.id in done then CascadeOne(x, eid) else [x];
    var imgNew := if x.id in done + {r.id} then CascadeOne(x, eid) else [x];
    FilterAppend(CascadeWhere(s', eid, done), imgOld, notR);
    if x == r {
      assert r.id !in IdsOf(s');
      CascadeWhereIds(s', eid, done);
      forall i | 0 <= i < |CascadeWhere(s', eid, done)| ensures notR(CascadeWhere(s', eid, done)[i]) {
        assert CascadeWhere(s', eid, done)[i] in CascadeWhere(s', eid, done);
      }
      FilterAll(CascadeWhere(s', eid, done), notR);
      CascadeWhereIgnores(s', eid, done, r.id);
      assert Filter([x], notR) == Filter([], notR) + [];
    } else {
      assert x.id != r.id;
      assert r in s';
      CascadeStepRemove(s', eid, done, r);
      assert imgOld == imgNew;
      forall i | 0 <= i < |imgOld| ensures notR(imgOld[i]) { }
      FilterAll(imgOld, notR);
    }
  }

  lemma PatchAppend(a: seq<Settlement>, b: seq<Settlement>, id: SettlementId, ids: seq<ExpenseId>)
    ensures PatchRelated(a + b, id, ids) == PatchRelated(a, id, ids) + PatchRelated(b, id, ids)
  {
  }

  lemma {:induction false} PatchAbsent(s: seq<Settlement>, id: SettlementId, ids: seq<ExpenseId>)
    requires id !in IdsOf(s)
    ensures PatchRelated(s, id, ids) == s
  {
    forall i | 0 <= i < |s| ensures s[i].id != id {
      assert s[i] in s;
    }
  }

  /** Patching a settlement with its pruned list advances the cascade by one. */
  lemma {:induction false} CascadeStepPatch(settlements: seq<Settlement>, eid: ExpenseId, done: set<SettlementId>, r: Settlement)
    requires DistinctBy(settlements, SettlementKey)
    requires r in settlements && Mentions(r, eid) && Pruned(r, eid) != [] && r.id !in done
    ensures PatchRelated(CascadeWhere(settlements, eid, done), r.id, Pruned(r, eid))
            == CascadeWhere(settlements, eid, done + {r.id})
    decreases |settlements|
  {
    var s' := settlements[..|settlements| - 1];
    var x := settlements[|settlements| - 1];
    var ids := Pruned(r, eid);
    DistinctPrefix(settlements);
    var imgOld := if x.id in done then CascadeOne(x, eid) else [x];
    PatchAppend(CascadeWhere(s', eid, done), imgOld, r.id, ids);
    if x == r {
      CascadeWhereIds(s', eid, done);
      PatchAbsent(CascadeWhere(s', eid, done), r.id, ids);
      CascadeWhereIgnores(s', eid, done, r.id);
    } else {
      assert r in s';
      CascadeStepPatch(s', eid, done, r);
      assert IdsOf(imgOld) <= {x.id};
      PatchAbsent(imgOld, r.id, ids);
    }
  }

  /** Once every settlement that mentions the expense is processed, the
      partial cascade is the whole cascade. */
  lemma {:induction false} CascadeComplete(settlements: seq<Settlement>, eid: ExpenseId, done: set<SettlementId>)
    requires forall s :: s in settlements ==> (s.id in done <==> Mentions(s, eid))
    ensures CascadeWhere(settlements, eid, done) == Cascade(settlements, eid)
    decreases |settlements|
  {
    if settlements != [] {
      CascadeComplete(settlements[..|settlements| - 1], eid, done);
      assert settlements[|settlements| - 1] in settlements;
    }
  }

  lemma {:induction false} RelatedIdsExact(settlements: seq<Settlement>, eid: ExpenseId)
    requires DistinctBy(settlements, SettlementKey)
    ensures forall s :: s in settlements ==>
              (s.id in IdsOf(Filter(settlements, MentionsExpense(eid))) <==> Mentions(s, eid))
  {
    var related := Filter(settlements, MentionsExpense(eid));
    forall s | s in settlements
      ensures s.id in IdsOf(related) <==> Mentions(s, eid)
    {
      FilterMembers(settlements, MentionsExpense(eid), s);
      if s.id in IdsOf(related) {
        var y :| y in related && y.id == s.id;
        FilterMembers(settlements, MentionsExpense(eid), y);
        var i :| 0 <= i < |settlements| && settlements[i] == s;
        var j :| 0 <= j < |settlements| && settlements[j] == y;
        assert i == j;
      }
    }
  }

  /** A settlement is in the cascaded table exactly when it is what the
      cascade leaves of some settlement of the original table. */
  lemma {:induction false} CascadeMembers(settlements: seq<Settlement>, eid: ExpenseId, y: Settlement)
    ensures y in Cascade(settlements, eid) <==> exists s :: s in settlements && y in CascadeOne(s, eid)
    decreases |settlements|
  {
    if settlements != [] {
      var s' := settlements[..|settlements| - 1];
      var x := settlements[|settlements| - 1];
      CascadeMembers(s', eid, y);
      assert settlements == s' + [x];
      if y in Cascade(settlements, eid) && y !in CascadeOne(x, eid) {
        var s :| s in s' && y in CascadeOne(s, eid);
        assert s in settlements;
      }
      if exists s :: s in settlements && y in CascadeOne(s, eid) {
        var s :| s in settlements && y in CascadeOne(s, eid);
        if s != x {
          assert s in s';
        }
      }
    }
  }

  /** Untouched settlements stay, and one that still has other related
      expenses stays with exactly this id removed. */
  lemma CascadeKeeps(settlements: seq<Settlement>, eid: ExpenseId)
    ensures forall s :: s in settlements && !Mentions(s, eid) ==> s in Cascade(settlements, eid)
    ensures forall s :: s in settlements && Mentions(s, eid) && Pruned(s, eid) != [] ==>
              s.(relatedExpenseIds := Some(Pruned(s, eid))) in Cascade(settlements, eid)
  {
  }

  /** No remaining settlement mentions the expense, and none is new. */
  lemma CascadeClean(settlements: seq<Settlement>, eid: ExpenseId)
    ensures forall y :: y in Cascade(settlements, eid) ==> !Mentions(y, eid)
    ensures IdsOf(Cascade(settlements, eid)) <= IdsOf(settlements)
  {
    forall y | y in Cascade(settlements, eid) ensures !Mentions(y, eid) && y.id in IdsOf(settlements) {
      CascadeMembers(settlements, eid, y);
      var s :| s in settlements && y in CascadeOne(s, eid);
      assert y.id == s.id;
    }
  }

  /** Two different settlements of a table keyed by id have different ids. */
  lemma SettlementIdsDiffer(settlements: seq<Settlement>, a: Settlement, b: Settlement)
    requires DistinctBy(settlements, SettlementKey)
    requires a in settlements && b in settlements && a != b
    ensures a.id != b.id
  {
    var i :| 0 <= i < |settlements| && settlements[i] == a;
    var j :| 0 <= j < |settlements| && settlements[j] == b;
    if i < j {
      assert SettlementKey(settlements[i]) != SettlementKey(settlements[j]);
    } else {
      assert SettlementKey(settlements[j]) != SettlementKey(settlements[i]);
    }
  }

  /** What the cascade leaves of a settlement keeps its id. */
  lemma CascadeOneId(s: Settlement, eid: ExpenseId, y: Settlement)
    requires y in CascadeOne(s, eid)
    ensures y.id == s.id
  {
  }

  /** A settlement whose only related expense was this one is gone. */
  lemma CascadeDrops(settlements: seq<Settlement>, eid: ExpenseId, s: Settlement)
    requires DistinctBy(settlements, SettlementKey)
    requires s in settlements && Mentions(s, eid) && Pruned(s, eid) == []
    ensures s.id !in IdsOf(Cascade(settlements, eid))
  {
    assert CascadeOne(s, eid) == [];
    forall y | y in Cascade(settlements, eid) ensures y.id != s.id {
      CascadeMembers(settlements, eid, y);
      var z :| z in settlements && y in CascadeOne(z, eid);
      CascadeOneId(z, eid, y);
      SettlementIdsDiffer(settlements, z, s);
    }
  }

  /** What the cascade does to the settlements table: untouched settlements
      stay, a settlement that still has other related expenses stays with
      exactly this id removed, one left with none is gone, no remaining
      settlement mentions the expense, and no settlement appears that was
      not there before. */
  lemma CascadeEffect(settlements: seq<Settlement>, eid: ExpenseId)
    requires DistinctBy(settlements, SettlementKey)
    ensures forall s :: s in settlements && !Mentions(s, eid) ==> s in Cascade(settlements, eid)
    ensures forall s :: s in settlements && Mentions(s, eid) && Pruned(s, eid) != [] ==>
              s.(relatedExpenseIds := Some(Pruned(s, eid))) in Cascade(settlements, eid)
    ensures forall s :: s in settlements && Mentions(s, eid) && Pruned(s, eid) == [] ==>
              s.id !in IdsOf(Cascade(settlements, eid))
    ensures forall y :: y in Cascade(settlements, eid) ==> !Mentions(y, eid)
    ensures IdsOf(Cascade(settlements, eid)) <= IdsOf(settlements)
  {
    CascadeKeeps(settlements, eid);
    CascadeClean(settlements, eid);
    forall s | s in settlements && Mentions(s, eid) && Pruned(s, eid) == []
      ensures s.id !in IdsOf(Cascade(settlements, eid))
    {
      CascadeDrops(settlements, eid, s);
    }
  }

  lemma IdsOfPrefix(related: seq<Settlement>, i: nat)
    requires DistinctBy(related, SettlementKey) && i < |related|
    ensures related[i].id !in IdsOf(related[..i])
    ensures IdsOf(related[..i + 1]) == IdsOf(related[..i]) + {related[i].id}
  {
    assert related[..i + 1] == related[..i] + [related[i]];
    forall y | y in related[..i] ensures y.id != related[i].id {
      var k :| 0 <= k < i && related[k] == y;
      assert SettlementKey(related[k]) != SettlementKey(related[i]);
    }
  }

  lemma CascadeOfRelated(all: seq<Settlement>, eid: ExpenseId)
    requires DistinctBy(all, SettlementKey)
    ensures CascadeWhere(all, eid, IdsOf(Filter(all, MentionsExpense(eid)))) == Cascade(all, eid)
  {
    RelatedIdsExact(all, eid);
    CascadeComplete(all, eid, IdsOf(Filter(all, MentionsExpense(eid))));
  }

  /** One turn of the cascade loop: delete the settlement when the
      expense was its last related one, else patch in the pruned list. */
  method PruneOrRemove(db: Db, all: seq<Settlement>, eid: ExpenseId, done: set<SettlementId>, st: Settlement)
    requires db.Valid() && DistinctBy(all, SettlementKey)
    requires st in all && Mentions(st, eid) && st.id !in done
    requires db.settlements == CascadeWhere(all, eid, done)
    modifies db
    ensures db.Valid()
    ensures db.settlements == CascadeWhere(all, eid, done + {st.id})
    ensures db.expenses == old(db.expenses) && db.groups == old(db.groups) && db.users == old(db.users)
  {
    var updated := Filter(st.relatedExpenseIds.value, ExpenseIdOther(eid));
    if |updated| == 0 {
      CascadeStepRemove(all, eid, done, st);
      db.RemoveSettlement(st.id);
    } else {
      CascadeStepPatch(all, eid, done, st);
      db.PatchSettlement(st.id, updated);
    }
  }

  /** `deleteExpense`: only the creator or the payer may delete; every
      settlement that mentions the expense is pruned or deleted, then the
      expense itself is deleted. */
  method DeleteExpense(db: Db, eid: ExpenseId, caller: UserId) returns (r: Result<()>)
    requires db.Valid()
    modifies db
    ensures db.Valid()
    ensures FindExpense(old(db.expenses), eid).None? ==> r == Err(ExpenseNotFound) && unchanged(db)
    ensures FindExpense(old(db.expenses), eid).Some? &&
            caller != FindExpense(old(db.expenses), eid).value.createdBy &&
            caller != FindExpense(old(db.expenses), eid).value.paidBy
            ==> r == Err(NotAllowedToDelete) && unchanged(db)
    ensures FindExpense(old(db.expenses), eid).Some? &&
            (caller == FindExpense(old(db.expenses), eid).value.createdBy ||
             caller == FindExpense(old(db.expenses), eid).value.paidBy)
            ==> r.Ok?
    ensures r.Ok? ==> && FindExpense(old(db.expenses), eid).Some?
                      && db.expenses == Filter(old(db.expenses), ExpenseIdIsNot(eid))
                      && db.settlements == Cascade(old(db.settlements), eid)
                      && db.groups == old(db.groups) && db.users == old(db.users)
    ensures r.Ok? || unchanged(db)
  {
    var expense := FindExpense(db.expenses, eid);
    if expense.None? {
      return Err(ExpenseNotFound);
    }
    if expense.value.createdBy != caller && expense.value.paidBy != caller {
      return Err(NotAllowedToDelete);
    }
    var all := db.settlements;
    var related := Filter(all, MentionsExpense(eid));
    FilterKeepsDistinct(all, MentionsExpense(eid), SettlementKey);
    CascadeWhereNothing(all, eid);
    assert related[..0] == [];
    assert IdsOf(related[..0]) == {};
    for i := 0 to |related|
      invariant db.Valid()
      invariant db.expenses == old(db.expenses) && db.groups == old(db.groups) && db.users == old(db.users)
      invariant db.settlements == CascadeWhere(all, eid, IdsOf(related[..i]))
    {
      var st := related[i];
      FilterMembers(all, MentionsExpense(eid), st);
      IdsOfPrefix(related, i);
      PruneOrRemove(db, all, eid, IdsOf(related[..i]), st);
    }
    assert related[..|related|] == related;
    CascadeOfRelated(all, eid);
    db.RemoveExpense(eid);
    r := Ok(());
  }
}
