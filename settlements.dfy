/** convex/settlements.js: admitting a settlement, with the over-settlement
    bound for one-to-one settlements, and the balances shown on the
    settle-up page of a user or of a group. */
module Settlements {
  import opened Folds
  import opened Records
  import opened Store
  import opened Expenses

  /* ================= createSettlement ================= */

  datatype SettlementDraft = SettlementDraft(
    amount: real,
    note: Option<string>,
    paidBy: UserId,
    receivedBy: UserId,
    groupId: Option<GroupId>,
    relatedExpenseIds: Option<seq<ExpenseId>>)

  /** Ungrouped expenses paid by the payer, then those paid by the receiver. */
  function ReplayExpenses(expenses: seq<Expense>, payer: UserId, receiver: UserId): seq<Expense>
  {
    Filter(expenses, PaidUngroupedBy(payer)) + Filter(expenses, PaidUngroupedBy(receiver))
  }

  /** Ungrouped settlements paid by `from` to `to`. */
  function SettledUngroupedTo(from: UserId, to: UserId): Settlement -> bool
  {
    (s: Settlement) => s.paidBy == from && s.groupId.None? && s.receivedBy == to
  }

  /** Prior ungrouped settlements between the two, payer's first. */
  function PriorSettlements(settlements: seq<Settlement>, payer: UserId, receiver: UserId): seq<Settlement>
  {
    Filter(settlements, SettledUngroupedTo(payer, receiver)) + Filter(settlements, SettledUngroupedTo(receiver, payer))
  }

  /** An expense paid by the payer adds the receiver's first unpaid split;
      one paid by the receiver subtracts the payer's first unpaid split. */
  function ReplayExpenseShare(payer: UserId, receiver: UserId): Expense -> real
  {
    (e: Expense) =>
      if e.paidBy == payer then UnpaidShare(e.splits, receiver)
      else if e.paidBy == receiver then -UnpaidShare(e.splits, payer)
      else 0.0
  }

  /** A prior settlement the payer made subtracts; one the receiver made adds. */
  function ReplaySettlementShare(payer: UserId): Settlement -> real
  {
    (s: Settlement) => if s.paidBy == payer then -s.amount else s.amount
  }

  /** The net `createSettlement` bounds an ungrouped settlement by. */
  function OutstandingNet(expenses: seq<Expense>, settlements: seq<Settlement>, payer: UserId, receiver: UserId): real
  {
    Sum(ReplayExpenses(expenses, payer, receiver), ReplayExpenseShare(payer, receiver))
      + Sum(PriorSettlements(settlements, payer, receiver), ReplaySettlementShare(payer))
  }

  /** The two replay loops of `createSettlement`. */
  method ReplayNet(expenses: seq<Expense>, settlements: seq<Settlement>, payer: UserId, receiver: UserId)
    returns (net: real)
    ensures net == OutstandingNet(expenses, settlements, payer, receiver)
  {
    var candidates := Filter(expenses, PaidUngroupedBy(payer)) + Filter(expenses, PaidUngroupedBy(receiver));
    net := ReplayExpenseLoop(candidates, payer, receiver, 0.0);
    var prior := Filter(settlements, SettledUngroupedTo(payer, receiver)) + Filter(settlements, SettledUngroupedTo(receiver, payer));
    net := ReplaySettlementLoop(prior, payer, net);
  }

  /** The replay loop over candidate expenses, from a running `net`. */
  method ReplayExpenseLoop(candidates: seq<Expense>, payer: UserId, receiver: UserId, start: real) returns (net: real)
    ensures net == start + Sum(candidates, ReplayExpenseShare(payer, receiver))
  {
    net := start;
    for i := 0 to |candidates|
      invariant net == start + Sum(candidates[..i], ReplayExpenseShare(payer, receiver))
    {
      var e := candidates[i];
      assert candidates[..i + 1][..i] == candidates[..i];
      if e.paidBy == payer {
        var split := FindUnpaidSplit(e.splits, receiver);
        if split.Some? {
          net := net + split.value.amount;
        }
      } else if e.paidBy == receiver {
        var split := FindUnpaidSplit(e.splits, payer);
        if split.Some? {
          net := net - split.value.amount;
        }
      }
    }
    assert candidates[..|candidates|] == candidates;
  }

  /** The replay loop over prior settlements, from a running `net`. */
  method ReplaySettlementLoop(prior: seq<Settlement>, payer: UserId, start: real) returns (net: real)
    ensures net == start + Sum(prior, ReplaySettlementShare(payer))
  {
    net := start;
    for i := 0 to |prior|
      invariant net == start + Sum(prior[..i], ReplaySettlementShare(payer))
    {
      var s := prior[i];
      assert prior[..i + 1][..i] == prior[..i];
      if s.paidBy == payer {
        net := net - s.amount;
      } else {
        net := net + s.amount;
      }
    }
    assert prior[..|prior|] == prior;
  }

  /** The three basic guards of `createSettlement`: a positive amount, two
      distinct parties, and a caller who is one of them. */
  predicate PartiesValid(d: SettlementDraft, caller: UserId)
  {
    d.amount > 0.0 && d.paidBy != d.receivedBy && (caller == d.paidBy || caller == d.receivedBy)
  }

  /** Everything the handler demands before inserting a settlement. */
  ghost predicate SettlementAdmissible(d: SettlementDraft, caller: UserId, expenses: seq<Expense>,
                                       settlements: seq<Settlement>, groups: seq<Group>)
  {
    && d.amount > 0.0
    && d.paidBy != d.receivedBy
    && (caller == d.paidBy || caller == d.receivedBy)
    && (d.groupId.None? ==>
          var available := Abs(OutstandingNet(expenses, settlements, d.paidBy, d.receivedBy));
          available > 0.0 && d.amount <= available + Tolerance)
    && (d.groupId.Some? ==>
          && FindGroup(groups, d.groupId.value).Some?
          && IsMember(FindGroup(groups, d.groupId.value).value, d.paidBy)
          && IsMember(FindGroup(groups, d.groupId.value).value, d.receivedBy))
  }

  /** The guard chain of `createSettlement`, in the handler's order, and the
      record it would insert under id `id` at server time `now`. */
  function AdmitSettlement(d: SettlementDraft, caller: UserId, expenses: seq<Expense>, settlements: seq<Settlement>,
                           groups: seq<Group>, now: int, id: SettlementId): (r: Result<Settlement>)
    ensures r.Ok? <==> SettlementAdmissible(d, caller, expenses, settlements, groups)
    ensures r.Ok? ==> WellFormedSettlement(r.value)
    ensures r.Ok? ==> r.value == Settlement(id, d.amount, d.note, now, d.paidBy, d.receivedBy, d.groupId,
                                             d.relatedExpenseIds, caller)
    ensures d.amount <= 0.0 ==> r == Err(AmountNotPositive)
    ensures d.amount > 0.0 && d.paidBy == d.receivedBy ==> r == Err(SamePayerAndReceiver)
    ensures d.amount > 0.0 && d.paidBy != d.receivedBy && caller != d.paidBy && caller != d.receivedBy
            ==> r == Err(CallerNotParty)
    ensures r.Err? && r.error in {NoOutstandingBalance, ExceedsOutstandingBalance} ==> d.groupId.None?
    ensures r == Err(NoOutstandingBalance) ==> OutstandingNet(expenses, settlements, d.paidBy, d.receivedBy) == 0.0
    ensures r == Err(ExceedsOutstandingBalance)
            ==> d.amount > Abs(OutstandingNet(expenses, settlements, d.paidBy, d.receivedBy)) + Tolerance
    ensures r.Err? && r.error in {GroupNotFound, PartiesNotGroupMembers} ==> d.groupId.Some?
    ensures PartiesValid(d, caller) && d.groupId.None?
            && OutstandingNet(expenses, settlements, d.paidBy, d.receivedBy) == 0.0
            ==> r == Err(NoOutstandingBalance)
    ensures PartiesValid(d, caller) && d.groupId.None?
            && OutstandingNet(expenses, settlements, d.paidBy, d.receivedBy) != 0.0
            && d.amount > Abs(OutstandingNet(expenses, settlements, d.paidBy, d.receivedBy)) + Tolerance
            ==> r == Err(ExceedsOutstandingBalance)
    ensures PartiesValid(d, caller) && d.groupId.Some? && FindGroup(groups, d.groupId.value).None?
            ==> r == Err(GroupNotFound)
    ensures PartiesValid(d, caller) && d.groupId.Some? && FindGroup(groups, d.groupId.value).Some?
            && !(IsMember(FindGroup(groups, d.groupId.value).value, d.paidBy)
                 && IsMember(FindGroup(groups, d.groupId.value).value, d.receivedBy))
            ==> r == Err(PartiesNotGroupMembers)
  {
    if d.amount <= 0.0 then Err(AmountNotPositive)
    else if d.paidBy == d.receivedBy then Err(SamePayerAndReceiver)
    else if caller != d.paidBy && caller != d.receivedBy then Err(CallerNotParty)
    else if d.groupId.None? && Abs(OutstandingNet(expenses, settlements, d.paidBy, d.receivedBy)) <= 0.0 then
      Err(NoOutstandingBalance)
    else if d.groupId.None? && d.amount > Abs(OutstandingNet(expenses, settlements, d.paidBy, d.receivedBy)) + Tolerance then
      Err(ExceedsOutstandingBalance)
    else if d.groupId.Some? && FindGroup(groups, d.groupId.value).None? then Err(GroupNotFound)
    else if d.groupId.Some? && (!IsMember(FindGroup(groups, d.groupId.value).value, d.paidBy)
                                || !IsMember(FindGroup(groups, d.groupId.value).value, d.receivedBy)) then
      Err(PartiesNotGroupMembers)
    else Ok(Settlement(id, d.amount, d.note, now, d.paidBy, d.receivedBy, d.groupId, d.relatedExpenseIds, caller))
  }

  /** `createSettlement`: guards, the replayed net and its bound for a
      one-to-one settlement, the group check, then the insert. */
  method CreateSettlement(db: Db, d: SettlementDraft, caller: UserId, now: int) returns (r: Result<SettlementId>)
    requires db.Valid()
    modifies db
    ensures db.Valid()
    ensures r.Ok? <==> SettlementAdmissible(d, caller, old(db.expenses), old(db.settlements), old(db.groups))
    ensures r.Err? ==> r == Err(AdmitSettlement(d, caller, old(db.expenses), old(db.settlements), old(db.groups), now, 0).error)
                       && unchanged(db)
    ensures r.Ok? ==> && r.value == old(db.nextSettlementId)
                      && db.settlements == old(db.settlements)
                           + [AdmitSettlement(d, caller, old(db.expenses), old(db.settlements), old(db.groups), now, r.value).value]
                      && db.expenses == old(db.expenses)
                      && db.groups == old(db.groups) && db.users == old(db.users)
  {
    if d.amount <= 0.0 {
      return Err(AmountNotPositive);
    }
    if d.paidBy == d.receivedBy {
      return Err(SamePayerAndReceiver);
    }
    if caller != d.paidBy && caller != d.receivedBy {
      return Err(CallerNotParty);
    }
    if d.groupId.None? {
      var net := ReplayNet(db.expenses, db.settlements, d.paidBy, d.receivedBy);
      var available := Abs(net);
      if available <= 0.0 {
        return Err(NoOutstandingBalance);
      }
      if d.amount > available + Tolerance {
        return Err(ExceedsOutstandingBalance);
      }
    }
    if d.groupId.Some? {
      var group := FindGroup(db.groups, d.groupId.value);
      if group.None? {
        return Err(GroupNotFound);
      }
      if !IsMember(group.value, d.paidBy) || !IsMember(group.value, d.receivedBy) {
        return Err(PartiesNotGroupMembers);
      }
    }
    var stored := Settlement(0, d.amount, d.note, now, d.paidBy, d.receivedBy, d.groupId, d.relatedExpenseIds, caller);
    var id := db.InsertSettlement(stored);
    r := Ok(id);
  }

  /* ---------- the replayed net against the pairwise balance ---------- */

  function ReplayExpenseTerm(payer: UserId, receiver: UserId): Expense -> real
  {
    (e: Expense) =>
      (if PaidUngroupedBy(payer)(e) then ReplayExpenseShare(payer, receiver)(e) else 0.0)
      + (if PaidUngroupedBy(receiver)(e) then ReplayExpenseShare(payer, receiver)(e) else 0.0)
  }

  function ReplaySettlementTerm(payer: UserId, receiver: UserId): Settlement -> real
  {
    (s: Settlement) =>
      (if SettledUngroupedTo(payer, receiver)(s) then ReplaySettlementShare(payer)(s) else 0.0)
      + (if SettledUngroupedTo(receiver, payer)(s) then ReplaySettlementShare(payer)(s) else 0.0)
  }

  lemma {:induction false} ReplayOverTable(expenses: seq<Expense>, settlements: seq<Settlement>, payer: UserId, receiver: UserId)
    ensures OutstandingNet(expenses, settlements, payer, receiver)
         == Sum(expenses, ReplayExpenseTerm(payer, receiver)) + Sum(settlements, ReplaySettlementTerm(payer, receiver))
  {
    var f := ReplayExpenseShare(payer, receiver);
    var fp := (e: Expense) => if PaidUngroupedBy(payer)(e) then f(e) else 0.0;
    var fr := (e: Expense) => if PaidUngroupedBy(receiver)(e) then f(e) else 0.0;
    SumAppend(Filter(expenses, PaidUngroupedBy(payer)), Filter(expenses, PaidUngroupedBy(receiver)), f);
    SumFilter(expenses, PaidUngroupedBy(payer), f, fp);
    SumFilter(expenses, PaidUngroupedBy(receiver), f, fr);
    SumAdd(expenses, fp, fr, ReplayExpenseTerm(payer, receiver));
    var g := ReplaySettlementShare(payer);
    var gp := (s: Settlement) => if SettledUngroupedTo(payer, receiver)(s) then g(s) else 0.0;
    var gr := (s: Settlement) => if SettledUngroupedTo(receiver, payer)(s) then g(s) else 0.0;
    SumAppend(Filter(settlements, SettledUngroupedTo(payer, receiver)), Filter(settlements, SettledUngroupedTo(receiver, payer)), g);
    SumFilter(settlements, SettledUngroupedTo(payer, receiver), g, gp);
    SumFilter(settlements, SettledUngroupedTo(receiver, payer), g, gr);
    SumAdd(settlements, gp, gr, ReplaySettlementTerm(payer, receiver));
  }

  /** A payer's expense on which the other party has no split leaves
      nothing unpaid for them. */
  lemma UninvolvedShare(e: Expense, u: UserId)
    requires !Involves(e, u)
    ensures UnpaidShare(e.splits, u) == 0.0
  {
    assert FindUnpaidSplit(e.splits, u).None?;
  }

  lemma ReplayTermAt(payer: UserId, receiver: UserId, e: Expense)
    requires payer != receiver
    ensures ReplayExpenseTerm(payer, receiver)(e) == PairExpenseTerm(payer, receiver)(e)
  {
    var share := ReplayExpenseShare(payer, receiver)(e);
    var pair := PairExpenseTerm(payer, receiver)(e);
    if e.groupId.None? && e.paidBy == payer {
      assert PaidUngroupedBy(payer)(e) && !PaidUngroupedBy(receiver)(e);
      assert ReplayExpenseTerm(payer, receiver)(e) == share == UnpaidShare(e.splits, receiver);
      if Involves(e, receiver) {
        assert InPairHistory(e, payer, receiver);
        assert pair == PairExpenseShare(payer, receiver)(e) == UnpaidShare(e.splits, receiver);
      } else {
        assert !InPairHistory(e, payer, receiver);
        UninvolvedShare(e, receiver);
      }
    } else if e.groupId.None? && e.paidBy == receiver {
      assert !PaidUngroupedBy(payer)(e) && PaidUngroupedBy(receiver)(e);
      assert ReplayExpenseTerm(payer, receiver)(e) == share == -UnpaidShare(e.splits, payer);
      if Involves(e, payer) {
        assert InPairHistory(e, payer, receiver);
        assert pair == PairExpenseShare(payer, receiver)(e) == -UnpaidShare(e.splits, payer);
      } else {
        assert !InPairHistory(e, payer, receiver);
        UninvolvedShare(e, payer);
      }
    } else {
      assert !PaidUngroupedBy(payer)(e) && !PaidUngroupedBy(receiver)(e);
      assert !InPairHistory(e, payer, receiver);
    }
  }

  lemma ReplayTerms(payer: UserId, receiver: UserId)
    requires payer != receiver
    ensures forall e :: ReplayExpenseTerm(payer, receiver)(e) == PairExpenseTerm(payer, receiver)(e)
    ensures forall s :: ReplaySettlementTerm(payer, receiver)(s) == -PairSettlementTerm(payer, receiver)(s)
  {
    forall e ensures ReplayExpenseTerm(payer, receiver)(e) == PairExpenseTerm(payer, receiver)(e) {
      ReplayTermAt(payer, receiver, e);
    }
    forall s ensures ReplaySettlementTerm(payer, receiver)(s) == -PairSettlementTerm(payer, receiver)(s) {
      assert BetweenUngrouped(payer, receiver)(s)
          == (SettledUngroupedTo(payer, receiver)(s) || SettledUngroupedTo(receiver, payer)(s));
    }
  }

  /** `createSettlement` replays the pair's expenses as every balance view
      does, but replays the pair's prior settlements with the opposite
      sign: the net it bounds a new settlement by is the expense net MINUS
      the settled net, where the pairwise balance of `getExpensesBetweenUsers`
      is their SUM. */
  lemma {:induction false} ReplayOppositeSign(expenses: seq<Expense>, settlements: seq<Settlement>, payer: UserId, receiver: UserId)
    requires payer != receiver
    ensures OutstandingNet(expenses, settlements, payer, receiver)
         == PairExpenseNet(expenses, payer, receiver) - PairSettledNet(settlements, payer, receiver)
  {
    ReplayOverTable(expenses, settlements, payer, receiver);
    PairExpenseNetOverTable(expenses, payer, receiver);
    PairSettledNetOverTable(settlements, payer, receiver);
    ReplayTerms(payer, receiver);
    SumPointwise(expenses, ReplayExpenseTerm(payer, receiver), PairExpenseTerm(payer, receiver));
    SumNeg(settlements, PairSettlementTerm(payer, receiver), ReplaySettlementTerm(payer, receiver));
  }

  /** A concrete consequence: user 2 paid 20 split evenly with user 1, and
      user 1 already paid user 2 back 10, so their pairwise balance is 0;
      yet another settlement of 10 from user 1 to user 2 is admitted,
      because the replayed net is -20. */
  lemma SettledDebtCanBeSettledAgain()
    ensures PairBalance(DinnerExpenses(), DinnerSettlements(), 1, 2) == 0.0
    ensures OutstandingNet(DinnerExpenses(), DinnerSettlements(), 1, 2) == -20.0
    ensures AdmitSettlement(SettlementDraft(10.0, None, 1, 2, None, None), 1,
                            DinnerExpenses(), DinnerSettlements(), [], 2, 1).Ok?
  {
    DinnerNets();
    ReplayOppositeSign(DinnerExpenses(), DinnerSettlements(), 1, 2);
  }

  /** User 2 paid a dinner of 20 split evenly with user 1 ... */
  function DinnerExpenses(): seq<Expense>
  {
    [Expense(0, "dinner", 20.0, "Food", 0, 2, "equal", [Split(1, 10.0, false), Split(2, 10.0, false)], None, 2)]
  }

  /** ... and user 1 then paid user 2 back their 10. */
  function DinnerSettlements(): seq<Settlement>
  {
    [Settlement(0, 10.0, None, 1, 1, 2, None, None, 1)]
  }

  /** Seen by user 1, the dinner counts -10 and the repayment +10. */
  lemma DinnerNets()
    ensures PairExpenseNet(DinnerExpenses(), 1, 2) == -10.0
    ensures PairSettledNet(DinnerSettlements(), 1, 2) == 10.0
  {
    var expenses := DinnerExpenses();
    var settlements := DinnerSettlements();
    var e := expenses[0];
    assert FirstIndex(e.splits, UnpaidSplitOf(1)) == 0;
    assert UnpaidShare(e.splits, 1) == 10.0;
    assert Involves(e, 1) && Involves(e, 2);
    PairExpenseNetOverTable(expenses, 1, 2);
    PairSettledNetOverTable(settlements, 1, 2);
    assert Sum(expenses, PairExpenseTerm(1, 2)) == Sum([], PairExpenseTerm(1, 2)) + PairExpenseTerm(1, 2)(e);
    assert Sum(settlements, PairSettlementTerm(1, 2))
        == Sum([], PairSettlementTerm(1, 2)) + PairSettlementTerm(1, 2)(settlements[0]);
  }

  /* ================= getSettlementData ================= */

  datatype MemberBalance = MemberBalance(userId: UserId, name: string, youAreOwed: real, youOwe: real, netBalance: real)

  datatype SettlementData =
    | UserPage(counterpartId: UserId, counterpartName: string, youAreOwed: real, youOwe: real, netBalance: real)
    | GroupPage(groupId: GroupId, groupName: string, groupDescription: string, balances: seq<MemberBalance>)

  /** `Math.max(0, net)` and `Math.max(0, -net)`. */
  function OwedAndOwing(net: real): (r: (real, real))
    ensures r.0 >= 0.0 && r.1 >= 0.0
    ensures r.0 == 0.0 || r.1 == 0.0
    ensures r.0 - r.1 == net
  {
    (if net > 0.0 then net else 0.0, if -net > 0.0 then -net else 0.0)
  }

  /* ---------- user page ---------- */

  /** The user page skips expenses that do not involve both; on the rest
      it adds their first unpaid split when I paid and subtracts my first
      unpaid split when they paid. */
  function UserPageExpenseShare(me: UserId, other: UserId): Expense -> real
  {
    (e: Expense) =>
      if Involves(e, me) && Involves(e, other) then
        (if e.paidBy == me then UnpaidShare(e.splits, other) else 0.0)
        + (if e.paidBy == other then -UnpaidShare(e.splits, me) else 0.0)
      else 0.0
  }

  /** Every ungrouped settlement either of the two paid, whoever received it. */
  function UserPageSettlements(settlements: seq<Settlement>, me: UserId, other: UserId): seq<Settlement>
  {
    Filter(settlements, SettledUngroupedBy(me)) + Filter(settlements, SettledUngroupedBy(other))
  }

  function UserPageNet(expenses: seq<Expense>, settlements: seq<Settlement>, me: UserId, other: UserId): real
  {
    Sum(PairCandidates(expenses, me, other), UserPageExpenseShare(me, other))
      + Sum(UserPageSettlements(settlements, me, other), PairSettlementShare(me))
  }

  /** The two `netBalance` loops of the user page. */
  method UserPageBalance(expenses: seq<Expense>, settlements: seq<Settlement>, me: UserId, other: UserId)
    returns (net: real)
    ensures net == UserPageNet(expenses, settlements, me, other)
  {
    var candidates := Filter(expenses, PaidUngroupedBy(me)) + Filter(expenses, PaidUngroupedBy(other));
    net := UserPageExpenseLoop(candidates, me, other, 0.0);
    var paid := Filter(settlements, SettledUngroupedBy(me)) + Filter(settlements, SettledUngroupedBy(other));
    net := UserPageSettlementLoop(paid, me, net);
  }

  /** The user page's loop over candidate expenses, from a running `netBalance`. */
  method UserPageExpenseLoop(candidates: seq<Expense>, me: UserId, other: UserId, start: real) returns (net: real)
    ensures net == start + Sum(candidates, UserPageExpenseShare(me, other))
  {
    net := start;
    for i := 0 to |candidates|
      invariant net == start + Sum(candidates[..i], UserPageExpenseShare(me, other))
    {
      var e := candidates[i];
      assert candidates[..i + 1][..i] == candidates[..i];
      if Involves(e, me) && Involves(e, other) {
        ghost var before := net;
        if e.paidBy == me {
          var split := FindUnpaidSplit(e.splits, other);
          if split.Some? {
            net := net + split.value.amount;
          }
        }
        if e.paidBy == other {
          var split := FindUnpaidSplit(e.splits, me);
          if split.Some? {
            net := net - split.value.amount;
          }
        }
        assert net == before + UserPageExpenseShare(me, other)(e);
      }
    }
    assert candidates[..|candidates|] == candidates;
  }

  /** The user page's loop over settlements either party paid. */
  method UserPageSettlementLoop(paid: seq<Settlement>, me: UserId, start: real) returns (net: real)
    ensures net == start + Sum(paid, PairSettlementShare(me))
  {
    net := start;
    for i := 0 to |paid|
      invariant net == start + Sum(paid[..i], PairSettlementShare(me))
    {
      var s := paid[i];
      assert paid[..i + 1][..i] == paid[..i];
      if s.paidBy == me {
        net := net + s.amount;
      } else {
        net := net - s.amount;
      }
    }
    assert paid[..|paid|] == paid;
  }

  /** Ungrouped settlements either party made to somebody else: what I
      paid a third party counts for me, what they paid one counts against me. */
  function ThirdPartyTerm(me: UserId, other: UserId): Settlement -> real
  {
    (s: Settlement) =>
      if s.groupId.None? && s.paidBy == me && s.receivedBy != other then s.amount
      else if s.groupId.None? && s.paidBy == other && s.receivedBy != me then -s.amount
      else 0.0
  }

  function UserPageExpenseTerm(me: UserId, other: UserId): Expense -> real
  {
    (e: Expense) =>
      (if PaidUngroupedBy(me)(e) then UserPageExpenseShare(me, other)(e) else 0.0)
      + (if PaidUngroupedBy(other)(e) then UserPageExpenseShare(me, other)(e) else 0.0)
  }

  function UserPageSettlementTerm(me: UserId, other: UserId): Settlement -> real
  {
    (s: Settlement) =>
      (if SettledUngroupedBy(me)(s) then PairSettlementShare(me)(s) else 0.0)
      + (if SettledUngroupedBy(other)(s) then PairSettlementShare(me)(s) else 0.0)
  }

  lemma {:induction false} UserPageOverTable(expenses: seq<Expense>, settlements: seq<Settlement>, me: UserId, other: UserId)
    ensures UserPageNet(expenses, settlements, me, other)
         == Sum(expenses, UserPageExpenseTerm(me, other)) + Sum(settlements, UserPageSettlementTerm(me, other))
  {
    var f := UserPageExpenseShare(me, other);
    var fm := (e: Expense) => if PaidUngroupedBy(me)(e) then f(e) else 0.0;
    var fo := (e: Expense) => if PaidUngroupedBy(other)(e) then f(e) else 0.0;
    SumAppend(Filter(expenses, PaidUngroupedBy(me)), Filter(expenses, PaidUngroupedBy(other)), f);
    SumFilter(expenses, PaidUngroupedBy(me), f, fm);
    SumFilter(expenses, PaidUngroupedBy(other), f, fo);
    SumAdd(expenses, fm, fo, UserPageExpenseTerm(me, other));
    var g := PairSettlementShare(me);
    var gm := (s: Settlement) => if SettledUngroupedBy(me)(s) then g(s) else 0.0;
    var go := (s: Settlement) => if SettledUngroupedBy(other)(s) then g(s) else 0.0;
    SumAppend(Filter(settlements, SettledUngroupedBy(me)), Filter(settlements, SettledUngroupedBy(other)), g);
    SumFilter(settlements, SettledUngroupedBy(me), g, gm);
    SumFilter(settlements, SettledUngroupedBy(other), g, go);
    SumAdd(settlements, gm, go, UserPageSettlementTerm(me, other));
  }

  lemma UserPageTermAt(me: UserId, other: UserId, e: Expense)
    requires me != other
    ensures UserPageExpenseTerm(me, other)(e) == PairExpenseTerm(me, other)(e)
  {
    var share := UserPageExpenseShare(me, other)(e);
    if e.groupId.None? && e.paidBy == me {
      assert PaidUngroupedBy(me)(e) && !PaidUngroupedBy(other)(e);
      assert UserPageExpenseTerm(me, other)(e) == share;
    } else if e.groupId.None? && e.paidBy == other {
      assert !PaidUngroupedBy(me)(e) && PaidUngroupedBy(other)(e);
      assert UserPageExpenseTerm(me, other)(e) == share;
    } else {
      assert !PaidUngroupedBy(me)(e) && !PaidUngroupedBy(other)(e);
      assert !InPairHistory(e, me, other);
    }
    if InPairHistory(e, me, other) {
      assert PairExpenseTerm(me, other)(e) == PairExpenseShare(me, other)(e) == share;
    } else if e.groupId.None? && (e.paidBy == me || e.paidBy == other) {
      assert !(Involves(e, me) && Involves(e, other));
      assert share == 0.0;
    }
  }

  lemma UserPageSettlementAt(me: UserId, other: UserId, s: Settlement)
    requires me != other
    ensures UserPageSettlementTerm(me, other)(s) == PairSettlementTerm(me, other)(s) + ThirdPartyTerm(me, other)(s)
  {
    var third := ThirdPartyTerm(me, other)(s);
    var pair := PairSettlementTerm(me, other)(s);
    if s.groupId.None? && s.paidBy == me {
      assert SettledUngroupedBy(me)(s) && !SettledUngroupedBy(other)(s);
      assert UserPageSettlementTerm(me, other)(s) == PairSettlementShare(me)(s) == s.amount;
      if s.receivedBy == other {
        assert BetweenUngrouped(me, other)(s);
        assert pair == s.amount && third == 0.0;
      } else {
        assert !BetweenUngrouped(me, other)(s);
        assert pair == 0.0 && third == s.amount;
      }
    } else if s.groupId.None? && s.paidBy == other {
      assert !SettledUngroupedBy(me)(s) && SettledUngroupedBy(other)(s);
      assert UserPageSettlementTerm(me, other)(s) == PairSettlementShare(me)(s) == -s.amount;
      if s.receivedBy == me {
        assert BetweenUngrouped(me, other)(s);
        assert pair == -s.amount && third == 0.0;
      } else {
        assert !BetweenUngrouped(me, other)(s);
        assert pair == 0.0 && third == -s.amount;
      }
    } else {
      assert !SettledUngroupedBy(me)(s) && !SettledUngroupedBy(other)(s);
      assert !BetweenUngrouped(me, other)(s);
      assert pair == 0.0 && third == 0.0;
    }
  }

  lemma UserPageTerms(me: UserId, other: UserId)
    requires me != other
    ensures forall e :: UserPageExpenseTerm(me, other)(e) == PairExpenseTerm(me, other)(e)
    ensures forall s :: UserPageSettlementTerm(me, other)(s) == PairSettlementTerm(me, other)(s) + ThirdPartyTerm(me, other)(s)
  {
    forall e ensures UserPageExpenseTerm(me, other)(e) == PairExpenseTerm(me, other)(e) {
      UserPageTermAt(me, other, e);
    }
    forall s ensures UserPageSettlementTerm(me, other)(s) == PairSettlementTerm(me, other)(s) + ThirdPartyTerm(me, other)(s) {
      UserPageSettlementAt(me, other, s);
    }
  }

  /** The user page counts third-party settlements: its net is the pairwise
      balance of `getExpensesBetweenUsers` plus what I paid to others minus
      what they paid to others, ungrouped. */
  lemma {:induction false} UserPageCountsThirdParties(expenses: seq<Expense>, settlements: seq<Settlement>, me: UserId, other: UserId)
    requires me != other
    ensures UserPageNet(expenses, settlements, me, other)
         == PairBalance(expenses, settlements, me, other) + Sum(settlements, ThirdPartyTerm(me, other))
  {
    UserPageOverTable(expenses, settlements, me, other);
    PairExpenseNetOverTable(expenses, me, other);
    PairSettledNetOverTable(settlements, me, other);
    UserPageTerms(me, other);
    SumPointwise(expenses, UserPageExpenseTerm(me, other), PairExpenseTerm(me, other));
    SumAdd(settlements, PairSettlementTerm(me, other), ThirdPartyTerm(me, other), UserPageSettlementTerm(me, other));
  }

  /** So the two pairwise views agree exactly when neither party settled,
      ungrouped, with a third party (or those settlements cancel out). */
  lemma {:induction false} UserPageMatchesPairWithoutThirdParties(expenses: seq<Expense>, settlements: seq<Settlement>,
                                                                  me: UserId, other: UserId)
    requires me != other
    requires forall s :: s in settlements && s.groupId.None? ==>
               (s.paidBy == me ==> s.receivedBy == other) && (s.paidBy == other ==> s.receivedBy == me)
    ensures UserPageNet(expenses, settlements, me, other) == PairBalance(expenses, settlements, me, other)
  {
    UserPageCountsThirdParties(expenses, settlements, me, other);
    SumZero(settlements, ThirdPartyTerm(me, other));
  }

  /* ---------- group page ---------- */

  function OtherThan(me: UserId): UserId -> bool { (u: UserId) => u != me }

  /** The keys of `balances`: every member but the caller, once, in order. */
  function TrackedMembers(members: seq<UserId>, me: UserId): seq<UserId>
  {
    Dedup(Filter(members, OtherThan(me)))
  }

  /** A group expense I paid adds every unpaid split of `u`; one `u` paid
      subtracts my first unpaid split. */
  function MemberExpenseTerm(me: UserId, u: UserId): Expense -> real
  {
    (e: Expense) =>
      if e.paidBy == me then Sum(e.splits, UnpaidAmountOf(u))
      else if e.paidBy == u then -UnpaidShare(e.splits, me)
      else 0.0
  }

  /** A group settlement I paid to `u` adds; one `u` paid to me subtracts. */
  function MemberSettlementTerm(me: UserId, u: UserId): Settlement -> real
  {
    (s: Settlement) =>
      (if s.paidBy == me && s.receivedBy == u then s.amount else 0.0)
      + (if s.receivedBy == me && s.paidBy == u then -s.amount else 0.0)
  }

  /** The tally of one tracked member over the group's expenses and settlements. */
  function MemberNet(groupExpenses: seq<Expense>, groupSettlements: seq<Settlement>, me: UserId, u: UserId): real
  {
    Sum(groupExpenses, MemberExpenseTerm(me, u)) + Sum(groupSettlements, MemberSettlementTerm(me, u))
  }

  function MemberRow(users: map<UserId, User>, u: UserId, net: real): MemberBalance
  {
    MemberBalance(u, NameOrUnknown(users, u), OwedAndOwing(net).0, OwedAndOwing(net).1, net)
  }

  function GroupRows(keys: seq<UserId>, groupExpenses: seq<Expense>, groupSettlements: seq<Settlement>,
                     me: UserId, users: map<UserId, User>): seq<MemberBalance>
  {
    seq(|keys|, i requires 0 <= i < |keys| => MemberRow(users, keys[i], MemberNet(groupExpenses, groupSettlements, me, keys[i])))
  }

  /** The group page has one row per other member, never one for the
      caller, each keyed once, with a well-split net. */
  lemma {:induction false} GroupRowsShape(members: seq<UserId>, groupExpenses: seq<Expense>, groupSettlements: seq<Settlement>,
                                          me: UserId, users: map<UserId, User>)
    ensures var rows := GroupRows(TrackedMembers(members, me), groupExpenses, groupSettlements, me, users);
            && (forall u :: (exists i :: 0 <= i < |rows| && rows[i].userId == u) <==> u in members && u != me)
            && (forall i, j :: 0 <= i < j < |rows| ==> rows[i].userId != rows[j].userId)
            && (forall i :: 0 <= i < |rows| ==>
                  rows[i].netBalance == MemberNet(groupExpenses, groupSettlements, me, rows[i].userId)
                  && rows[i].youAreOwed >= 0.0 && rows[i].youOwe >= 0.0
                  && rows[i].youAreOwed - rows[i].youOwe == rows[i].netBalance)
  {
    var keys := TrackedMembers(members, me);
    var rows := GroupRows(keys, groupExpenses, groupSettlements, me, users);
    forall u ensures (exists i :: 0 <= i < |rows| && rows[i].userId == u) <==> u in members && u != me {
      DedupMembers(Filter(members, OtherThan(me)), u);
      FilterMembers(members, OtherThan(me), u);
      if u in keys {
        var i :| 0 <= i < |keys| && keys[i] == u;
        assert rows[i].userId == u;
      }
    }
  }

  lemma TrackedStep(members: seq<UserId>, i: nat, me: UserId)
    requires i < |members|
    ensures var m := members[i];
            var before := TrackedMembers(members[..i], me);
            TrackedMembers(members[..i + 1], me)
              == if m != me && m !in before then before + [m] else before
  {
    var m := members[i];
    assert members[..i + 1] == members[..i] + [m];
    FilterAppend(members[..i], [m], OtherThan(me));
    assert Filter([m], OtherThan(me)) == Filter([], OtherThan(me)) + (if m != me then [m] else []);
    var f := Filter(members[..i], OtherThan(me));
    if m != me {
      assert (f + [m])[..|f + [m]| - 1] == f;
    } else {
      assert f + [] == f;
    }
  }

  /** `group.members.forEach(...)`: a zero tally for every member but the
      caller, keys in first-insertion order. */
  method InitBalances(members: seq<UserId>, me: UserId) returns (keys: seq<UserId>, balances: map<UserId, real>)
    ensures keys == TrackedMembers(members, me)
    ensures forall u :: u in balances <==> u in keys
    ensures forall u :: u in balances ==> balances[u] == 0.0
    ensures me !in balances
  {
    balances := map[];
    keys := [];
    for i := 0 to |members|
      invariant keys == TrackedMembers(members[..i], me)
      invariant forall u :: u in balances <==> u in keys
      invariant forall u :: u in balances ==> balances[u] == 0.0
    {
      var m := members[i];
      TrackedStep(members, i, me);
      if m != me {
        if m !in balances {
          keys := keys + [m];
        }
        balances := balances[m := 0.0];
      }
    }
    assert members[..|members|] == members;
    FilterMembers(members, OtherThan(me), me);
    DedupMembers(Filter(members, OtherThan(me)), me);
  }

  /** The balance loops of the group page, on a `balances` dictionary keyed
      by the tracked members. */
  method GroupBalances(groupExpenses: seq<Expense>, groupSettlements: seq<Settlement>, members: seq<UserId>,
                       me: UserId, users: map<UserId, User>) returns (rows: seq<MemberBalance>)
    ensures rows == GroupRows(TrackedMembers(members, me), groupExpenses, groupSettlements, me, users)
  {
    var keys, balances := InitBalances(members, me);
    balances := ApplyGroupExpenses(groupExpenses, me, balances);
    balances := ApplyGroupSettlements(groupSettlements, me, balances);
    rows := MemberRows(keys, balances, users);
    forall t | 0 <= t < |keys| ensures balances[keys[t]] == MemberNet(groupExpenses, groupSettlements, me, keys[t]) {
      assert keys[t] in keys;
    }
  }

  /** The `Object.entries(balances).map(...)` that turns each tracked
      member's tally into a row. */
  method MemberRows(keys: seq<UserId>, balances: map<UserId, real>, users: map<UserId, User>) returns (rows: seq<MemberBalance>)
    requires forall u :: u in keys ==> u in balances
    ensures |rows| == |keys|
    ensures forall t :: 0 <= t < |keys| ==> rows[t] == MemberRow(users, keys[t], balances[keys[t]])
  {
    rows := [];
    for k := 0 to |keys|
      invariant |rows| == k
      invariant forall t :: 0 <= t < k ==> rows[t] == MemberRow(users, keys[t], balances[keys[t]])
    {
      rows := rows + [MemberRow(users, keys[k], balances[keys[k]])];
    }
  }

  /** The expense loop of the group page: splits of an expense I paid add
      to tracked participants, my unpaid split on an expense a tracked
      member paid subtracts from theirs; untracked ids change nothing. */
  method ApplyGroupExpenses(groupExpenses: seq<Expense>, me: UserId, start: map<UserId, real>)
    returns (balances: map<UserId, real>)
    requires me !in start
    ensures balances.Keys == start.Keys
    ensures forall u :: u in balances ==> balances[u] == start[u] + Sum(groupExpenses, MemberExpenseTerm(me, u))
  {
    balances := start;
    for i := 0 to |groupExpenses|
      invariant balances.Keys == start.Keys
      invariant forall u :: u in balances ==> balances[u] == start[u] + Sum(groupExpenses[..i], MemberExpenseTerm(me, u))
    {
      assert groupExpenses[..i + 1][..i] == groupExpenses[..i];
      balances := ApplyGroupExpense(groupExpenses[i], me, balances);
    }
    assert groupExpenses[..|groupExpenses|] == groupExpenses;
  }

  /** One turn of the expense loop of the group page. */
  method ApplyGroupExpense(e: Expense, me: UserId, start: map<UserId, real>) returns (balances: map<UserId, real>)
    requires me !in start
    ensures balances.Keys == start.Keys
    ensures forall u :: u in balances ==> balances[u] == start[u] + MemberExpenseTerm(me, u)(e)
  {
    balances := start;
    if e.paidBy == me {
      balances := ApplySplits(e.splits, me, balances);
    } else if e.paidBy in balances {
      var split := FindUnpaidSplit(e.splits, me);
      if split.Some? {
        balances := balances[e.paidBy := balances[e.paidBy] - split.value.amount];
      }
    }
  }

  /** The `splits.forEach` of an expense I paid. */
  method ApplySplits(splits: seq<Split>, me: UserId, start: map<UserId, real>) returns (balances: map<UserId, real>)
    requires me !in start
    ensures balances.Keys == start.Keys
    ensures forall u :: u in balances ==> balances[u] == start[u] + Sum(splits, UnpaidAmountOf(u))
  {
    balances := start;
    for j := 0 to |splits|
      invariant balances.Keys == start.Keys
      invariant forall u :: u in balances ==> balances[u] == start[u] + Sum(splits[..j], UnpaidAmountOf(u))
    {
      var split := splits[j];
      assert splits[..j + 1][..j] == splits[..j];
      if split.userId != me && !split.paid && split.userId in balances {
        balances := balances[split.userId := balances[split.userId] + split.amount];
      }
    }
    assert splits[..|splits|] == splits;
  }

  /** The settlement loop of the group page. */
  method ApplyGroupSettlements(groupSettlements: seq<Settlement>, me: UserId, start: map<UserId, real>)
    returns (balances: map<UserId, real>)
    requires me !in start
    ensures balances.Keys == start.Keys
    ensures forall u :: u in balances ==> balances[u] == start[u] + Sum(groupSettlements, MemberSettlementTerm(me, u))
  {
    balances := start;
    for i := 0 to |groupSettlements|
      invariant balances.Keys == start.Keys
      invariant forall u :: u in balances ==> balances[u] == start[u] + Sum(groupSettlements[..i], MemberSettlementTerm(me, u))
    {
      var s := groupSettlements[i];
      assert groupSettlements[..i + 1][..i] == groupSettlements[..i];
      if s.paidBy == me && s.receivedBy in balances {
        balances := balances[s.receivedBy := balances[s.receivedBy] + s.amount];
      }
      if s.receivedBy == me && s.paidBy in balances {
        balances := balances[s.paidBy := balances[s.paidBy] - s.amount];
      }
    }
    assert groupSettlements[..|groupSettlements|] == groupSettlements;
  }

  /** `getSettlementData` for `/settlements/[entityType]/[entityId]`. */
  method GetSettlementData(db: Db, me: UserId, entityType: string, entityId: nat) returns (r: Result<SettlementData>)
    ensures entityType == "user" && entityId !in db.users ==> r == Err(UserNotFound)
    ensures entityType == "user" && entityId in db.users ==>
              var net := UserPageNet(db.expenses, db.settlements, me, entityId);
              r == Ok(UserPage(entityId, db.users[entityId].name, OwedAndOwing(net).0, OwedAndOwing(net).1, net))
    ensures entityType == "group" && FindGroup(db.groups, entityId).None? ==> r == Err(GroupNotFound)
    ensures entityType == "group" && FindGroup(db.groups, entityId).Some? && !IsMember(FindGroup(db.groups, entityId).value, me)
            ==> r == Err(CallerNotGroupMember)
    ensures entityType == "group" && FindGroup(db.groups, entityId).Some? && IsMember(FindGroup(db.groups, entityId).value, me)
            ==> var g := FindGroup(db.groups, entityId).value;
                r == Ok(GroupPage(g.id, g.name, g.description,
                                  GroupRows(TrackedMembers(g.members, me), Filter(db.expenses, ExpensesOfGroup(g.id)),
                                            Filter(db.settlements, SettlementsOfGroup(g.id)), me, db.users)))
    ensures entityType != "user" && entityType != "group" ==> r == Err(InvalidEntityType)
  {
    if entityType == "user" {
      if entityId !in db.users {
        return Err(UserNotFound);
      }
      var net := UserPageBalance(db.expenses, db.settlements, me, entityId);
      var split := OwedAndOwing(net);
      return Ok(UserPage(entityId, db.users[entityId].name, split.0, split.1, net));
    } else if entityType == "group" {
      var group := FindGroup(db.groups, entityId);
      if group.None? {
        return Err(GroupNotFound);
      }
      var g := group.value;
      if !IsMember(g, me) {
        return Err(CallerNotGroupMember);
      }
      var expenses := Filter(db.expenses, ExpensesOfGroup(g.id));
      var settlements := Filter(db.settlements, SettlementsOfGroup(g.id));
      var rows := GroupBalances(expenses, settlements, g.members, me, db.users);
      return Ok(GroupPage(g.id, g.name, g.description, rows));
    }
    return Err(InvalidEntityType);
  }
}
