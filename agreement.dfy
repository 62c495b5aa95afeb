/** Where the screens of the application compute the same balance twice,
    by different code: the dashboard's list of one-to-one balances against
    the pair view of expenses.js, and the dashboard's per-group balance
    against the sum of the settle-up page's per-member rows. Each
    agreement holds only under conditions the handlers do not enforce;
    the lemmas name them. */
module Agreement {
  import opened Folds
  import opened Records
  import opened Expenses
  import opened Settlements
  import opened Dashboard

  /* ================= dashboard list against the pair view ================= */

  /** The dashboard's expense tally for `c`, over the whole table. */
  function TallyExpenseOverTable(user: UserId, c: UserId): Expense -> real
  {
    (e: Expense) => if UngroupedInvolving(user)(e) then TallyExpenseTerm(user, c)(e) else 0.0
  }

  function TallySettlementOverTable(user: UserId, c: UserId): Settlement -> real
  {
    (s: Settlement) => if UngroupedParty(user)(s) then TallySettlementTerm(user, c)(s) else 0.0
  }

  /** Over an expense with unique participants, the dashboard and the pair
      view count the same amount for the pair. */
  lemma TallyExpenseAt(user: UserId, c: UserId, e: Expense)
    requires user != c
    requires e.groupId.None? ==> UniqueSplitUsers(e.splits)
    ensures TallyExpenseOverTable(user, c)(e) == PairExpenseTerm(user, c)(e)
  {
    if e.groupId.Some? {
      assert !UngroupedInvolving(user)(e);
      assert !InPairHistory(e, user, c);
    } else {
      UniqueSplitLookups(e.splits, user);
      UniqueSplitLookups(e.splits, c);
      if e.paidBy == user {
        if InSplits(e.splits, c) {
          assert InPairHistory(e, user, c);
          assert TallyExpenseTerm(user, c)(e) == Sum(e.splits, UnpaidAmountOf(c)) by {
            SumPointwise(e.splits, TallySplitTerm(user, c), UnpaidAmountOf(c));
          }
          assert UngroupedInvolving(user)(e);
          assert PairExpenseShare(user, c)(e) == UnpaidShare(e.splits, c);
          assert PairExpenseTerm(user, c)(e) == PairExpenseShare(user, c)(e);
        } else {
          forall x | x in e.splits ensures TallySplitTerm(user, c)(x) == 0.0 {
            var i :| 0 <= i < |e.splits| && e.splits[i] == x;
          }
          SumZero(e.splits, TallySplitTerm(user, c));
          assert TallyExpenseTerm(user, c)(e) == 0.0;
          assert !InPairHistory(e, user, c);
        }
      } else if e.paidBy == c {
        if InSplits(e.splits, user) {
          assert InPairHistory(e, user, c);
          assert UngroupedInvolving(user)(e);
          assert TallyExpenseTerm(user, c)(e) == -FirstSplitIfUnpaid(e.splits, user);
          assert PairExpenseShare(user, c)(e) == -UnpaidShare(e.splits, user);
          assert PairExpenseTerm(user, c)(e) == PairExpenseShare(user, c)(e);
        } else {
          assert !UngroupedInvolving(user)(e);
          assert !InPairHistory(e, user, c);
        }
      } else {
        assert TallyExpenseTerm(user, c)(e) == 0.0;
        assert !InPairHistory(e, user, c);
      }
    }
  }

  lemma TallySettlementAt(user: UserId, c: UserId, s: Settlement)
    requires user != c
    ensures TallySettlementOverTable(user, c)(s) == PairSettlementTerm(user, c)(s)
  {
    var between := BetweenUngrouped(user, c)(s);
    assert between == (s.groupId.None? && ((s.paidBy == user && s.receivedBy == c) || (s.paidBy == c && s.receivedBy == user)));
    if UngroupedParty(user)(s) {
      if s.paidBy == user {
        assert TallySettlementTerm(user, c)(s) == if s.receivedBy == c then s.amount else 0.0;
      } else {
        assert TallySettlementTerm(user, c)(s) == if s.paidBy == c then -s.amount else 0.0;
      }
    } else {
      assert !between;
    }
  }

  /** The dashboard's balance with `c` is the pair view's balance with `c`,
      provided every one-to-one expense lists each participant at most once
      (nothing in expense creation ensures that: with a repeated
      participant the dashboard adds every unpaid split while the pair view
      takes the first one). */
  lemma {:induction false} DashboardMatchesPair(expenses: seq<Expense>, settlements: seq<Settlement>, user: UserId, c: UserId)
    requires user != c
    requires forall e :: e in expenses && e.groupId.None? ==> UniqueSplitUsers(e.splits)
    ensures Tally(expenses, settlements, user, c) == PairBalance(expenses, settlements, user, c)
  {
    SumFilter(expenses, UngroupedInvolving(user), TallyExpenseTerm(user, c), TallyExpenseOverTable(user, c));
    SumFilter(settlements, UngroupedParty(user), TallySettlementTerm(user, c), TallySettlementOverTable(user, c));
    PairExpenseNetOverTable(expenses, user, c);
    PairSettledNetOverTable(settlements, user, c);
    forall e | e in expenses ensures TallyExpenseOverTable(user, c)(e) == PairExpenseTerm(user, c)(e) {
      TallyExpenseAt(user, c, e);
    }
    forall s | s in settlements ensures TallySettlementOverTable(user, c)(s) == PairSettlementTerm(user, c)(s) {
      TallySettlementAt(user, c, s);
    }
    SumPointwise(expenses, TallyExpenseOverTable(user, c), PairExpenseTerm(user, c));
    SumPointwise(settlements, TallySettlementOverTable(user, c), PairSettlementTerm(user, c));
  }

  /** A concrete expense that lists user 1 twice: user 1 paid 30, user 2
      owes 10 in two separate splits. The dashboard says user 2 owes 20;
      the pair view says 10. */
  lemma DuplicateSplitsDisagree()
    ensures var e := Expense(0, "", 30.0, "other", 0, 1, "exact",
                             [Split(2, 10.0, false), Split(2, 10.0, false), Split(1, 10.0, false)], None, 1);
            && Tally([e], [], 1, 2) == 20.0
            && PairBalance([e], [], 1, 2) == 10.0
  {
    var e := Expense(0, "", 30.0, "other", 0, 1, "exact",
                     [Split(2, 10.0, false), Split(2, 10.0, false), Split(1, 10.0, false)], None, 1);
    var splits := e.splits;
    assert splits[..2][..1] == [splits[0]];
    assert splits[..1][..0] == [];
    assert Sum(splits, TallySplitTerm(1, 2)) == 20.0 by {
      assert Sum(splits[..1], TallySplitTerm(1, 2)) == 10.0;
      assert Sum(splits[..2], TallySplitTerm(1, 2)) == 20.0;
    }
    assert [e][..0] == [];
    assert Filter([e], UngroupedInvolving(1)) == [e] by {
      assert Involves(e, 1);
    }
    assert Filter([], UngroupedParty(1)) == [];
    assert TallyExpenseTerm(1, 2)(e) == 20.0;
    assert Sum([e], TallyExpenseTerm(1, 2)) == 20.0;
    assert Tally([e], [], 1, 2) == 20.0;
    assert FindUnpaidSplit(splits, 2) == Some(splits[0]) by {
      assert SplitOf(2)(splits[0]);
    }
    assert InSplits(splits, 2) by {
      assert splits[0].userId == 2;
    }
    PairExpenseNetOverTable([e], 1, 2);
    PairSettledNetOverTable([], 1, 2);
    assert InPairHistory(e, 1, 2);
  }

  /* ================= dashboard group balance against the settle-up rows ================= */

  /** The settle-up terms as tables indexed by member. */
  function MemberExpenseTable(me: UserId): UserId -> Expense -> real
  {
    (u: UserId) => MemberExpenseTerm(me, u)
  }

  function MemberSettlementTable(me: UserId): UserId -> Settlement -> real
  {
    (u: UserId) => MemberSettlementTerm(me, u)
  }

  function UnpaidTable(): UserId -> Split -> real
  {
    (u: UserId) => UnpaidAmountOf(u)
  }

  function MemberNetOf(groupExpenses: seq<Expense>, groupSettlements: seq<Settlement>, me: UserId): UserId -> real
  {
    (u: UserId) => MemberNet(groupExpenses, groupSettlements, me, u)
  }

  /** The dashboard's settlement term, over every settlement of the group. */
  function GroupSettlementOverTable(g: GroupId, me: UserId): Settlement -> real
  {
    (s: Settlement) => if GroupSettlementOf(g, me)(s) then GroupSettlementTerm(me)(s) else 0.0
  }

  predicate DistinctKeys(keys: seq<UserId>)
  {
    forall i, j :: 0 <= i < j < |keys| ==> keys[i] != keys[j]
  }

  /** Over distinct keys, a function that is zero except at `x` sums to its value at `x`. */
  lemma SumAtKey(keys: seq<UserId>, f: UserId -> real, x: UserId)
    requires DistinctKeys(keys)
    requires forall u :: u in keys && u != x ==> f(u) == 0.0
    ensures Sum(keys, f) == if x in keys then f(x) else 0.0
  {
  }

  /** One split of an expense the caller paid, spread over the tracked
      members, is the split's unpaid amount if someone else holds it. */
  lemma SplitAcrossMembers(me: UserId, keys: seq<UserId>, members: seq<UserId>, s: Split)
    requires DistinctKeys(keys)
    requires forall u :: u in keys <==> u in members && u != me
    requires s.userId in members
    ensures Row(keys, Flip<UserId, Split>(UnpaidTable()))(s) == OthersUnpaid(me)(s)
  {
    var f := Flip<UserId, Split>(UnpaidTable())(s);
    forall u | u in keys && u != s.userId ensures f(u) == 0.0 {
      assert f(u) == UnpaidAmountOf(u)(s);
    }
    SumAtKey(keys, f, s.userId);
    if s.userId in keys {
      assert f(s.userId) == UnpaidAmountOf(s.userId)(s);
    }
  }

  /** One group expense, spread over the tracked members, is the dashboard's
      term for it. */
  lemma ExpenseAcrossMembers(me: UserId, keys: seq<UserId>, members: seq<UserId>, e: Expense)
    requires DistinctKeys(keys)
    requires forall u :: u in keys <==> u in members && u != me
    requires e.paidBy in members
    requires forall i :: 0 <= i < |e.splits| ==> e.splits[i].userId in members
    requires UniqueSplitUsers(e.splits)
    ensures Row(keys, Flip<UserId, Expense>(MemberExpenseTable(me)))(e) == GroupExpenseTerm(me)(e)
  {
    var f := Flip<UserId, Expense>(MemberExpenseTable(me))(e);
    if e.paidBy == me {
      forall u | u in keys ensures f(u) == Row(e.splits, UnpaidTable())(u) {
        assert f(u) == MemberExpenseTerm(me, u)(e);
        assert UnpaidTable()(u) == UnpaidAmountOf(u);
      }
      SumPointwise(keys, f, Row(e.splits, UnpaidTable()));
      SumSwap<UserId, Split>(keys, e.splits, UnpaidTable());
      forall s | s in e.splits ensures Row(keys, Flip<UserId, Split>(UnpaidTable()))(s) == OthersUnpaid(me)(s) {
        SplitAcrossMembers(me, keys, members, s);
      }
      SumPointwise(e.splits, Row(keys, Flip<UserId, Split>(UnpaidTable())), OthersUnpaid(me));
    } else {
      forall u | u in keys && u != e.paidBy ensures f(u) == 0.0 {
        assert f(u) == MemberExpenseTerm(me, u)(e);
      }
      SumAtKey(keys, f, e.paidBy);
      assert f(e.paidBy) == MemberExpenseTerm(me, e.paidBy)(e);
      UniqueSplitLookups(e.splits, me);
    }
  }

  /** One group settlement, spread over the tracked members, is the
      dashboard's term for it. */
  lemma SettlementAcrossMembers(g: GroupId, me: UserId, keys: seq<UserId>, members: seq<UserId>, s: Settlement)
    requires DistinctKeys(keys)
    requires forall u :: u in keys <==> u in members && u != me
    requires s.groupId == Some(g)
    requires s.paidBy == me || s.receivedBy == me ==> s.paidBy != s.receivedBy && s.paidBy in members && s.receivedBy in members
    ensures Row(keys, Flip<UserId, Settlement>(MemberSettlementTable(me)))(s) == GroupSettlementOverTable(g, me)(s)
  {
    var f := Flip<UserId, Settlement>(MemberSettlementTable(me))(s);
    var other := if s.paidBy == me then s.receivedBy else s.paidBy;
    forall u | u in keys && u != other ensures f(u) == 0.0 {
      assert f(u) == MemberSettlementTerm(me, u)(s);
    }
    SumAtKey(keys, f, other);
    assert Row(keys, Flip<UserId, Settlement>(MemberSettlementTable(me)))(s) == Sum(keys, f);
    assert f(other) == MemberSettlementTerm(me, other)(s);
    if s.paidBy == me {
      assert other in keys;
      assert f(other) == s.amount;
      assert GroupSettlementOf(g, me)(s);
    } else if s.receivedBy == me {
      assert other in keys;
      assert f(other) == -s.amount;
      assert GroupSettlementOf(g, me)(s);
    } else {
      assert f(other) == 0.0;
      assert !GroupSettlementOf(g, me)(s);
    }
  }

  /** The dashboard's balance in a group is the sum of the settle-up page's
      per-member nets, provided the group's records agree with its member
      list (payers, split users and settlement parties are members, as
      creation checks but later membership changes do not), settlements
      have two different parties, and every group expense lists each
      participant at most once (which nothing ensures). */
  lemma {:induction false} GroupScalarMatchesMembers(expenses: seq<Expense>, settlements: seq<Settlement>,
                                                     g: GroupId, members: seq<UserId>, me: UserId)
    requires forall e :: e in expenses && e.groupId == Some(g) ==>
               && e.paidBy in members
               && (forall i :: 0 <= i < |e.splits| ==> e.splits[i].userId in members)
               && UniqueSplitUsers(e.splits)
    requires forall s :: s in settlements && s.groupId == Some(g) && (s.paidBy == me || s.receivedBy == me) ==>
               s.paidBy != s.receivedBy && s.paidBy in members && s.receivedBy in members
    ensures GroupScalar(expenses, settlements, g, me)
         == Sum(TrackedMembers(members, me),
                MemberNetOf(Filter(expenses, ExpensesOfGroup(g)), Filter(settlements, SettlementsOfGroup(g)), me))
  {
    var ge := Filter(expenses, ExpensesOfGroup(g));
    var gs := Filter(settlements, SettlementsOfGroup(g));
    var keys := TrackedMembers(members, me);
    forall u ensures u in keys <==> u in members && u != me {
      DedupMembers(Filter(members, OtherThan(me)), u);
      FilterMembers(members, OtherThan(me), u);
    }
    // split each member's net into its expense and settlement parts, then swap the sums
    SumAdd(keys, Row(ge, MemberExpenseTable(me)), Row(gs, MemberSettlementTable(me)), MemberNetOf(ge, gs, me));
    SumSwap<UserId, Expense>(keys, ge, MemberExpenseTable(me));
    SumSwap<UserId, Settlement>(keys, gs, MemberSettlementTable(me));
    // expenses: element by element
    forall e | e in ge ensures Row(keys, Flip<UserId, Expense>(MemberExpenseTable(me)))(e) == GroupExpenseTerm(me)(e) {
      FilterMembers(expenses, ExpensesOfGroup(g), e);
      ExpenseAcrossMembers(me, keys, members, e);
    }
    SumPointwise(ge, Row(keys, Flip<UserId, Expense>(MemberExpenseTable(me))), GroupExpenseTerm(me));
    // settlements: both sides as sums over the whole table
    forall s | s in gs ensures Row(keys, Flip<UserId, Settlement>(MemberSettlementTable(me)))(s) == GroupSettlementOverTable(g, me)(s) {
      FilterMembers(settlements, SettlementsOfGroup(g), s);
      SettlementAcrossMembers(g, me, keys, members, s);
    }
    SumPointwise(gs, Row(keys, Flip<UserId, Settlement>(MemberSettlementTable(me))), GroupSettlementOverTable(g, me));
    forall s | s in settlements && !SettlementsOfGroup(g)(s) ensures GroupSettlementOverTable(g, me)(s) == 0.0 {
      assert !GroupSettlementOf(g, me)(s);
    }
    SumFilter(settlements, SettlementsOfGroup(g), GroupSettlementOverTable(g, me), GroupSettlementOverTable(g, me));
    SumFilter(settlements, GroupSettlementOf(g, me), GroupSettlementTerm(me), GroupSettlementOverTable(g, me));
  }
}
