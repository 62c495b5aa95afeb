/** convex/dashboard.js: the caller's one-to-one balances with every
    counterparty, the caller's balance in each of their groups, the recent
    activity feed and the personal spending total. */
module Dashboard {
  import opened Folds
  import opened Records
  import opened Store

  /** `(balanceByUser[c] || 0)`: a missing key reads as zero. */
  function Get(balances: map<UserId, real>, c: UserId): real
  {
    if c in balances then balances[c] else 0.0
  }

  /** The keys of a dictionary in insertion order, each once. */
  ghost predicate KeysMatch(balances: map<UserId, real>, keys: seq<UserId>)
  {
    && (forall c :: c in balances <==> c in keys)
    && (forall i, j :: 0 <= i < j < |keys| ==> keys[i] != keys[j])
  }

  /* ================= getUserBalances ================= */

  function UngroupedInvolving(user: UserId): Expense -> bool
  {
    (e: Expense) => e.groupId.None? && Involves(e, user)
  }

  function UngroupedParty(user: UserId): Settlement -> bool
  {
    (s: Settlement) => s.groupId.None? && (s.paidBy == user || s.receivedBy == user)
  }

  /** What one split of an expense I paid adds to `c`'s tally. */
  function TallySplitTerm(user: UserId, c: UserId): Split -> real
  {
    (s: Split) => if s.userId == c && c != user && !s.paid then s.amount else 0.0
  }

  /** What one expense adds to `c`'s tally: every unpaid split of `c` when
      I paid, minus my first split, if unpaid, when `c` paid. */
  function TallyExpenseTerm(user: UserId, c: UserId): Expense -> real
  {
    (e: Expense) =>
      if e.paidBy == user then Sum(e.splits, TallySplitTerm(user, c))
      else if e.paidBy == c then -FirstSplitIfUnpaid(e.splits, user)
      else 0.0
  }

  /** What one settlement adds to `c`'s tally. */
  function TallySettlementTerm(user: UserId, c: UserId): Settlement -> real
  {
    (s: Settlement) =>
      if s.paidBy == user then (if s.receivedBy == c then s.amount else 0.0)
      else if s.paidBy == c then -s.amount
      else 0.0
  }

  /** The net tally of counterparty `c` before negligible ones are dropped:
      positive means `c` owes the user. */
  function Tally(expenses: seq<Expense>, settlements: seq<Settlement>, user: UserId, c: UserId): real
  {
    Sum(Filter(expenses, UngroupedInvolving(user)), TallyExpenseTerm(user, c))
      + Sum(Filter(settlements, UngroupedParty(user)), TallySettlementTerm(user, c))
  }

  /** The inner `for (const s of e.splits)` of an expense the user paid. */
  method TallySplits(splits: seq<Split>, user: UserId, start: map<UserId, real>, startKeys: seq<UserId>)
    returns (balances: map<UserId, real>, keys: seq<UserId>)
    requires KeysMatch(start, startKeys)
    ensures KeysMatch(balances, keys)
    ensures forall c :: Get(balances, c) == Get(start, c) + Sum(splits, TallySplitTerm(user, c))
    ensures forall c :: c in start ==> c in balances
  {
    balances, keys := start, startKeys;
    for j := 0 to |splits|
      invariant KeysMatch(balances, keys)
      invariant forall c :: Get(balances, c) == Get(start, c) + Sum(splits[..j], TallySplitTerm(user, c))
      invariant forall c :: c in start ==> c in balances
    {
      var s := splits[j];
      assert splits[..j + 1][..j] == splits[..j];
      if s.userId == user || s.paid {
        continue;
      }
      if s.userId !in balances {
        keys := keys + [s.userId];
      }
      balances := balances[s.userId := Get(balances, s.userId) + s.amount];
    }
    assert splits[..|splits|] == splits;
  }

  /** The expense loop of `getUserBalances`. */
  method TallyExpenses(expenses: seq<Expense>, user: UserId, start: map<UserId, real>, startKeys: seq<UserId>)
    returns (balances: map<UserId, real>, keys: seq<UserId>)
    requires KeysMatch(start, startKeys)
    ensures KeysMatch(balances, keys)
    ensures forall c :: Get(balances, c) == Get(start, c) + Sum(expenses, TallyExpenseTerm(user, c))
  {
    balances, keys := start, startKeys;
    for i := 0 to |expenses|
      invariant KeysMatch(balances, keys)
      invariant forall c :: Get(balances, c) == Get(start, c) + Sum(expenses[..i], TallyExpenseTerm(user, c))
    {
      var e := expenses[i];
      assert expenses[..i + 1][..i] == expenses[..i];
      ghost var before := balances;
      var isPayer := e.paidBy == user;
      var mySplit := FindSplit(e.splits, user);
      if isPayer {
        balances, keys := TallySplits(e.splits, user, balances, keys);
      } else if mySplit.Some? && !mySplit.value.paid {
        if e.paidBy !in balances {
          keys := keys + [e.paidBy];
        }
        balances := balances[e.paidBy := Get(balances, e.paidBy) - mySplit.value.amount];
      }
      assert forall c :: Get(balances, c) == Get(before, c) + TallyExpenseTerm(user, c)(e);
    }
    assert expenses[..|expenses|] == expenses;
  }

  /** The settlement loop of `getUserBalances`. */
  method TallySettlements(settlements: seq<Settlement>, user: UserId, start: map<UserId, real>, startKeys: seq<UserId>)
    returns (balances: map<UserId, real>, keys: seq<UserId>)
    requires KeysMatch(start, startKeys)
    ensures KeysMatch(balances, keys)
    ensures forall c :: Get(balances, c) == Get(start, c) + Sum(settlements, TallySettlementTerm(user, c))
  {
    balances, keys := start, startKeys;
    for i := 0 to |settlements|
      invariant KeysMatch(balances, keys)
      invariant forall c :: Get(balances, c) == Get(start, c) + Sum(settlements[..i], TallySettlementTerm(user, c))
    {
      var s := settlements[i];
      assert settlements[..i + 1][..i] == settlements[..i];
      if s.paidBy == user {
        if s.receivedBy !in balances {
          keys := keys + [s.receivedBy];
        }
        balances := balances[s.receivedBy := Get(balances, s.receivedBy) + s.amount];
      } else {
        if s.paidBy !in balances {
          keys := keys + [s.paidBy];
        }
        balances := balances[s.paidBy := Get(balances, s.paidBy) - s.amount];
      }
    }
    assert settlements[..|settlements|] == settlements;
  }

  datatype BalanceEntry = BalanceEntry(userId: UserId, name: string, amount: real)

  function EntryAmount(b: BalanceEntry): real { b.amount }

  function EntryUser(b: BalanceEntry): UserId { b.userId }

  /** Tallies this close to zero are not listed. */
  const Negligible: real := 0.01

  ghost predicate Listed(entries: seq<BalanceEntry>, c: UserId)
  {
    exists b :: b in entries && b.userId == c
  }

  /** Whether a tally goes on the owed-to-me side (`owed`) or on the
      I-owe side: non-negligible, with the matching sign. */
  predicate Keep(net: real, owed: bool)
  {
    Abs(net) >= Negligible && (net > 0.0) == owed
  }

  /** One side of the `Object.entries` loop: the keys whose tally is kept
      on that side, in key order, each with its name and magnitude. */
  function Entries(keys: seq<UserId>, balances: map<UserId, real>, users: map<UserId, User>, owed: bool): (r: seq<BalanceEntry>)
    requires forall k :: k in keys ==> k in balances
    ensures |r| <= |keys|
  {
    if keys == [] then []
    else
      var uid := keys[|keys| - 1];
      Entries(keys[..|keys| - 1], balances, users, owed)
        + if Keep(balances[uid], owed) then [BalanceEntry(uid, NameIfKnown(users, uid), Abs(balances[uid]))] else []
  }

  /** A side lists each key with a kept tally once, and nothing else, with
      the tally's magnitude. */
  lemma {:induction false} EntriesShape(keys: seq<UserId>, balances: map<UserId, real>, users: map<UserId, User>, owed: bool)
    requires forall k :: k in keys ==> k in balances
    requires forall i, j :: 0 <= i < j < |keys| ==> keys[i] != keys[j]
    ensures forall c :: Listed(Entries(keys, balances, users, owed), c) <==> c in keys && Keep(balances[c], owed)
    ensures forall b :: b in Entries(keys, balances, users, owed) ==>
              b.userId in keys && b == BalanceEntry(b.userId, NameIfKnown(users, b.userId), Abs(balances[b.userId]))
    ensures DistinctBy(Entries(keys, balances, users, owed), EntryUser)
    decreases |keys|
  {
    if keys != [] {
      var prefix := keys[..|keys| - 1];
      var uid := keys[|keys| - 1];
      assert keys == prefix + [uid];
      EntriesShape(prefix, balances, users, owed);
      var before := Entries(prefix, balances, users, owed);
      assert uid !in prefix by {
        forall t | 0 <= t < |prefix| ensures prefix[t] != uid {
          assert keys[t] == prefix[t];
        }
      }
      if Keep(balances[uid], owed) {
        AppendFresh(before, BalanceEntry(uid, NameIfKnown(users, uid), Abs(balances[uid])));
      } else {
        assert Entries(keys, balances, users, owed) == before;
      }
    }
  }

  /** Appending an entry for a user not yet listed keeps the list keyed
      once per user. */
  lemma AppendFresh(entries: seq<BalanceEntry>, b: BalanceEntry)
    requires DistinctBy(entries, EntryUser)
    requires !Listed(entries, b.userId)
    ensures DistinctBy(entries + [b], EntryUser)
    ensures forall c :: Listed(entries + [b], c) <==> Listed(entries, c) || c == b.userId
  {
  }

  /** One key of the `Object.entries` loop, on one side: the entry it
      appends, if any, and what that adds to the side's total. */
  lemma EntriesStep(keys: seq<UserId>, k: nat, balances: map<UserId, real>, users: map<UserId, User>, owed: bool,
                    side: seq<BalanceEntry>)
    requires forall c :: c in keys ==> c in balances
    requires k < |keys|
    requires side == Entries(keys[..k], balances, users, owed)
    ensures var uid := keys[k];
            var entry := BalanceEntry(uid, NameIfKnown(users, uid), Abs(balances[uid]));
            && (Keep(balances[uid], owed) ==> Entries(keys[..k + 1], balances, users, owed) == side + [entry]
                                              && Sum(side + [entry], EntryAmount) == Sum(side, EntryAmount) + Abs(balances[uid]))
            && (!Keep(balances[uid], owed) ==> Entries(keys[..k + 1], balances, users, owed) == side)
  {
    assert keys[..k + 1][..k] == keys[..k];
    var uid := keys[k];
    var entry := BalanceEntry(uid, NameIfKnown(users, uid), Abs(balances[uid]));
    assert (side + [entry])[..|side|] == side;
  }

  /** The `Object.entries` loop: drop negligible tallies, list positive ones
      as owed to the user and the others as owed by the user, each with
      its magnitude, and total both lists. */
  method Partition(keys: seq<UserId>, balances: map<UserId, real>, users: map<UserId, User>)
    returns (owedBy: seq<BalanceEntry>, owe: seq<BalanceEntry>, youAreOwed: real, youOwe: real)
    requires forall k :: k in keys ==> k in balances
    ensures owedBy == Entries(keys, balances, users, true)
    ensures owe == Entries(keys, balances, users, false)
    ensures youAreOwed == Sum(owedBy, EntryAmount) && youOwe == Sum(owe, EntryAmount)
  {
    owedBy, owe := [], [];
    youAreOwed, youOwe := 0.0, 0.0;
    for k := 0 to |keys|
      invariant owedBy == Entries(keys[..k], balances, users, true)
      invariant owe == Entries(keys[..k], balances, users, false)
      invariant youAreOwed == Sum(owedBy, EntryAmount) && youOwe == Sum(owe, EntryAmount)
    {
      var uid := keys[k];
      var net := balances[uid];
      EntriesStep(keys, k, balances, users, true, owedBy);
      EntriesStep(keys, k, balances, users, false, owe);
      if Abs(net) < Negligible {
        continue;
      }
      var base := BalanceEntry(uid, NameIfKnown(users, uid), Abs(net));
      if net > 0.0 {
        youAreOwed := youAreOwed + net;
        owedBy := owedBy + [base];
      } else {
        youOwe := youOwe + -net;
        owe := owe + [base];
      }
    }
    assert keys[..|keys|] == keys;
  }

  /** Sorting a list reorders it: same entries, same total, one per user. */
  lemma SortedList(entries: seq<BalanceEntry>)
    requires DistinctBy(entries, EntryUser)
    ensures forall b :: b in SortDesc(entries, EntryAmount) <==> b in entries
    ensures forall c :: Listed(SortDesc(entries, EntryAmount), c) <==> Listed(entries, c)
    ensures DistinctBy(SortDesc(entries, EntryAmount), EntryUser)
    ensures Sum(SortDesc(entries, EntryAmount), EntryAmount) == Sum(entries, EntryAmount)
  {
    var sorted := SortDesc(entries, EntryAmount);
    forall b ensures b in sorted <==> b in entries {
      assert b in sorted <==> b in multiset(sorted);
    }
    SortDistinct(entries, EntryAmount, EntryUser);
    SumSortDesc(entries, EntryAmount, EntryAmount);
  }

  /** Both loops of `getUserBalances`: the tally of every counterparty,
      keyed in the order counterparties were first met. */
  method TallyAll(db: Db, user: UserId) returns (balances: map<UserId, real>, keys: seq<UserId>)
    ensures KeysMatch(balances, keys)
    ensures forall c :: Get(balances, c) == Tally(db.expenses, db.settlements, user, c)
  {
    var expenses := Filter(db.expenses, UngroupedInvolving(user));
    balances, keys := TallyExpenses(expenses, user, map[], []);
    var settlements := Filter(db.settlements, UngroupedParty(user));
    balances, keys := TallySettlements(settlements, user, balances, keys);
  }

  function TallyOf(expenses: seq<Expense>, settlements: seq<Settlement>, user: UserId): UserId -> real
  {
    (c: UserId) => Tally(expenses, settlements, user, c)
  }

  /** One side built from the tallies and sorted lists each counterparty
      whose tally is kept on that side, once, with its magnitude, largest
      first; its total is never negative. */
  lemma SideOfTally(keys: seq<UserId>, balances: map<UserId, real>, users: map<UserId, User>, owed: bool, tally: UserId -> real)
    requires KeysMatch(balances, keys)
    requires forall c :: Get(balances, c) == tally(c)
    ensures var side := SortDesc(Entries(keys, balances, users, owed), EntryAmount);
            && (forall c :: Listed(side, c) <==> if owed then tally(c) >= Negligible else tally(c) <= -Negligible)
            && (forall b :: b in side ==>
                  b == BalanceEntry(b.userId, NameIfKnown(users, b.userId), if owed then tally(b.userId) else -tally(b.userId)))
            && DistinctBy(side, EntryUser)
            && SortedDesc(side, EntryAmount)
            && Sum(side, EntryAmount) == Sum(Entries(keys, balances, users, owed), EntryAmount) >= 0.0
  {
    var entries := Entries(keys, balances, users, owed);
    EntriesShape(keys, balances, users, owed);
    forall c ensures Listed(entries, c) <==> Keep(tally(c), owed) {
      assert c !in balances ==> tally(c) == 0.0;
    }
    forall b | b in entries ensures b == BalanceEntry(b.userId, NameIfKnown(users, b.userId), Abs(tally(b.userId))) {
      assert Get(balances, b.userId) == balances[b.userId];
    }
    SumNonNegative(entries, EntryAmount);
    SortedList(entries);
  }

  datatype UserBalances = UserBalances(
    youOwe: real,
    youAreOwed: real,
    totalBalance: real,
    youOweList: seq<BalanceEntry>,
    youAreOwedByList: seq<BalanceEntry>)

  /** `getUserBalances`: every counterparty whose tally is at least the
      negligible amount in magnitude is listed once, on the side its sign
      says, with the magnitude of its tally; both lists are sorted by amount,
      largest first, and the totals are the sums of the lists. */
  method GetUserBalances(db: Db, user: UserId) returns (r: UserBalances)
    ensures forall c :: Listed(r.youAreOwedByList, c) <==> Tally(db.expenses, db.settlements, user, c) >= Negligible
    ensures forall c :: Listed(r.youOweList, c) <==> Tally(db.expenses, db.settlements, user, c) <= -Negligible
    ensures forall b :: b in r.youAreOwedByList ==>
              b == BalanceEntry(b.userId, NameIfKnown(db.users, b.userId), Tally(db.expenses, db.settlements, user, b.userId))
    ensures forall b :: b in r.youOweList ==>
              b == BalanceEntry(b.userId, NameIfKnown(db.users, b.userId), -Tally(db.expenses, db.settlements, user, b.userId))
    ensures DistinctBy(r.youAreOwedByList, EntryUser) && DistinctBy(r.youOweList, EntryUser)
    ensures SortedDesc(r.youAreOwedByList, EntryAmount) && SortedDesc(r.youOweList, EntryAmount)
    ensures r.youAreOwed == Sum(r.youAreOwedByList, EntryAmount) && r.youOwe == Sum(r.youOweList, EntryAmount)
    ensures r.totalBalance == r.youAreOwed - r.youOwe
    ensures r.youAreOwed >= 0.0 && r.youOwe >= 0.0
  {
    var balances, keys := TallyAll(db, user);
    ghost var tally := TallyOf(db.expenses, db.settlements, user);
    var owedBy, owe, youAreOwed, youOwe := Partition(keys, balances, db.users);
    SideOfTally(keys, balances, db.users, true, tally);
    SideOfTally(keys, balances, db.users, false, tally);
    owe := SortDesc(owe, EntryAmount);
    owedBy := SortDesc(owedBy, EntryAmount);
    r := UserBalances(youOwe, youAreOwed, youAreOwed - youOwe, owe, owedBy);
  }

  /* ================= getUserGroups ================= */

  function HasMember(user: UserId): Group -> bool { (g: Group) => IsMember(g, user) }

  /** Every unpaid split of someone else on an expense the user paid. */
  function OthersUnpaid(user: UserId): Split -> real
  {
    (s: Split) => if s.userId != user && !s.paid then s.amount else 0.0
  }

  /** What one group expense adds to the user's group balance. */
  function GroupExpenseTerm(user: UserId): Expense -> real
  {
    (e: Expense) =>
      if e.paidBy == user then Sum(e.splits, OthersUnpaid(user))
      else -FirstSplitIfUnpaid(e.splits, user)
  }

  /** Settlements of group `g` the user paid or received. */
  function GroupSettlementOf(g: GroupId, user: UserId): Settlement -> bool
  {
    (s: Settlement) => s.groupId == Some(g) && (s.paidBy == user || s.receivedBy == user)
  }

  /** What one of those settlements adds: what the user paid, minus what they received. */
  function GroupSettlementTerm(user: UserId): Settlement -> real
  {
    (s: Settlement) => if s.paidBy == user then s.amount else -s.amount
  }

  /** The user's single balance in group `g`. */
  function GroupScalar(expenses: seq<Expense>, settlements: seq<Settlement>, g: GroupId, user: UserId): real
  {
    Sum(Filter(expenses, ExpensesOfGroup(g)), GroupExpenseTerm(user))
      + Sum(Filter(settlements, GroupSettlementOf(g, user)), GroupSettlementTerm(user))
  }

  /** The `let balance` loops for one group. */
  method GroupBalance(expenses: seq<Expense>, settlements: seq<Settlement>, g: GroupId, user: UserId)
    returns (balance: real)
    ensures balance == GroupScalar(expenses, settlements, g, user)
  {
    var groupExpenses := Filter(expenses, ExpensesOfGroup(g));
    balance := 0.0;
    for i := 0 to |groupExpenses|
      invariant balance == Sum(groupExpenses[..i], GroupExpenseTerm(user))
    {
      var e := groupExpenses[i];
      assert groupExpenses[..i + 1][..i] == groupExpenses[..i];
      if e.paidBy == user {
        ghost var before := balance;
        for j := 0 to |e.splits|
          invariant balance == before + Sum(e.splits[..j], OthersUnpaid(user))
        {
          var split := e.splits[j];
          assert e.splits[..j + 1][..j] == e.splits[..j];
          if split.userId != user && !split.paid {
            balance := balance + split.amount;
          }
        }
        assert e.splits[..|e.splits|] == e.splits;
      } else {
        var userSplit := FindSplit(e.splits, user);
        if userSplit.Some? && !userSplit.value.paid {
          balance := balance - userSplit.value.amount;
        }
      }
    }
    assert groupExpenses[..|groupExpenses|] == groupExpenses;
    var groupSettlements := Filter(settlements, GroupSettlementOf(g, user));
    ghost var fromExpenses := balance;
    for i := 0 to |groupSettlements|
      invariant balance == fromExpenses + Sum(groupSettlements[..i], GroupSettlementTerm(user))
    {
      var s := groupSettlements[i];
      assert groupSettlements[..i + 1][..i] == groupSettlements[..i];
      if s.paidBy == user {
        balance := balance + s.amount;
      } else {
        balance := balance - s.amount;
      }
    }
    assert groupSettlements[..|groupSettlements|] == groupSettlements;
  }

  datatype GroupSummary = GroupSummary(group: Group, balance: real)

  /** `getUserGroups`: exactly the groups the user is a member of, in
      table order, each with the user's balance in it. */
  method GetUserGroups(db: Db, user: UserId) returns (r: seq<GroupSummary>)
    ensures forall g :: (exists i :: 0 <= i < |r| && r[i].group == g) <==> g in db.groups && IsMember(g, user)
    ensures forall i :: 0 <= i < |r| ==> r[i].balance == GroupScalar(db.expenses, db.settlements, r[i].group.id, user)
    ensures |r| == |Filter(db.groups, HasMember(user))|
  {
    var groups := Filter(db.groups, HasMember(user));
    r := [];
    for i := 0 to |groups|
      invariant |r| == i
      invariant forall t :: 0 <= t < i ==> r[t] == GroupSummary(groups[t], GroupScalar(db.expenses, db.settlements, groups[t].id, user))
    {
      var balance := GroupBalance(db.expenses, db.settlements, groups[i].id, user);
      r := r + [GroupSummary(groups[i], balance)];
    }
    forall g ensures (exists i :: 0 <= i < |r| && r[i].group == g) <==> g in db.groups && IsMember(g, user) {
      FilterMembers(db.groups, HasMember(user), g);
      if g in groups {
        var i :| 0 <= i < |groups| && groups[i] == g;
        assert r[i].group == g;
      }
    }
  }

  /* ================= getRecentActivity ================= */

  function InvolvesUser(user: UserId): Expense -> bool { (e: Expense) => Involves(e, user) }

  /** How many expenses the date index scan takes, and how many involving
      the user are kept. */
  const ScanSize: nat := 50
  const FeedSize: nat := 20

  /** The first 50 records of the `by_date` index read in descending order.
      The index breaks ties between equal dates by creation time, so
      same-date expenses come newest-created first. The table is kept in
      creation order, so a stable descending sort of the reversed table
      gives exactly that order. */
  function LatestExpenses(expenses: seq<Expense>): (r: seq<Expense>)
    ensures |r| <= ScanSize
    ensures SortedDesc(r, ExpenseDate)
    ensures multiset(r) <= multiset(expenses)
    ensures |expenses| <= ScanSize ==> multiset(r) == multiset(expenses)
  {
    var sorted := SortDesc(Reverse(expenses), ExpenseDate);
    assert multiset(Reverse(expenses)) == multiset(expenses) by {
      ReverseMultiset(expenses);
    }
    var r := Take(sorted, ScanSize);
    assert r == sorted[..|r|];
    assert sorted == r + sorted[|r|..];
    assert SortedDesc(r, ExpenseDate);
    r
  }

  /** Two expenses on the same date come out newest-created (later in the
      table) first. */
  lemma SameDateNewestFirst(a: Expense, b: Expense)
    requires a.date == b.date
    ensures LatestExpenses([a, b]) == [b, a]
  {
    assert Reverse([a, b]) == [b, a];
    assert SortDesc([b, a], ExpenseDate) == [b, a];
  }

  /** `take(50)` of the date index, then `filter(involves)`, then `slice(0, 20)`. */
  function RecentExpenses(expenses: seq<Expense>, user: UserId): (r: seq<Expense>)
    ensures |r| <= FeedSize
    ensures forall i :: 0 <= i < |r| ==> Involves(r[i], user)
    ensures IsSubsequence(r, LatestExpenses(expenses))
    ensures SortedDesc(r, ExpenseDate)
    ensures |Filter(LatestExpenses(expenses), InvolvesUser(user))| <= FeedSize
            ==> r == Filter(LatestExpenses(expenses), InvolvesUser(user))
    ensures |Filter(LatestExpenses(expenses), InvolvesUser(user))| >= FeedSize ==> |r| == FeedSize
    ensures r == Filter(LatestExpenses(expenses), InvolvesUser(user))[..|r|]
  {
    var involved := Filter(LatestExpenses(expenses), InvolvesUser(user));
    RecentSelection(expenses, user);
    Take(involved, FeedSize)
  }

  /** The involved expenses among the latest ones: a subsequence of them,
      newest first. */
  lemma RecentSelection(expenses: seq<Expense>, user: UserId)
    ensures var involved := Filter(LatestExpenses(expenses), InvolvesUser(user));
            && IsSubsequence(Take(involved, FeedSize), LatestExpenses(expenses))
            && SortedDesc(Take(involved, FeedSize), ExpenseDate)
  {
    var latest := LatestExpenses(expenses);
    var involved := Filter(latest, InvolvesUser(user));
    var r := Take(involved, FeedSize);
    FilterIsSubsequence(latest, InvolvesUser(user));
    SubsequenceOfPrefix(involved, latest, |r|);
    FilterSorted(latest, InvolvesUser(user), ExpenseDate);
    assert forall i :: 0 <= i < |r| ==> r[i] == involved[i];
  }

  /** `groupName`: null for an ungrouped expense, `group?.name` otherwise,
      which is undefined when the group is gone. */
  datatype GroupName = NoGroup | MissingGroup | Named(name: string)

  datatype Activity = Activity(expense: Expense, payerName: string, groupName: GroupName)

  function GroupNameOf(e: Expense, groups: seq<Group>): (r: GroupName)
    ensures r == NoGroup <==> e.groupId.None?
    ensures r.Named? ==> FindGroup(groups, e.groupId.value).Some? && r.name == FindGroup(groups, e.groupId.value).value.name
    ensures e.groupId.Some? && FindGroup(groups, e.groupId.value).Some? ==> r.Named?
    ensures r == MissingGroup <==> e.groupId.Some? && FindGroup(groups, e.groupId.value).None?
  {
    if e.groupId.None? then NoGroup
    else match FindGroup(groups, e.groupId.value)
      case None => MissingGroup
      case Some(g) => Named(g.name)
  }

  /** `getRecentActivity`: the recent expenses, each with its payer's name
      (or "Unknown") and its group's name. */
  function RecentActivity(expenses: seq<Expense>, groups: seq<Group>, users: map<UserId, User>, user: UserId): (r: seq<Activity>)
    ensures |r| == |RecentExpenses(expenses, user)| <= FeedSize
    ensures forall i :: 0 <= i < |r| ==>
              && r[i].expense == RecentExpenses(expenses, user)[i]
              && Involves(r[i].expense, user)
              && r[i].payerName != ""
              && r[i].payerName == NameOrUnknown(users, r[i].expense.paidBy)
              && r[i].groupName == GroupNameOf(r[i].expense, groups)
              && (r[i].groupName == NoGroup <==> r[i].expense.groupId.None?)
  {
    var recent := RecentExpenses(expenses, user);
    seq(|recent|, i requires 0 <= i < |recent| =>
      Activity(recent[i], NameOrUnknown(users, recent[i].paidBy), GroupNameOf(recent[i], groups)))
  }

  /* ================= getTotalSpent ================= */

  function DatedFrom(startOfYear: int): Expense -> bool { (e: Expense) => e.date >= startOfYear }

  /** The user's own share of one expense: the amount of their first split. */
  function OwnShare(user: UserId): Expense -> real
  {
    (e: Expense) => FirstSplitAmount(e.splits, user)
  }

  function TotalSpent(expenses: seq<Expense>, user: UserId, startOfYear: int): real
  {
    Sum(Filter(Filter(expenses, DatedFrom(startOfYear)), InvolvesUser(user)), OwnShare(user))
  }

  /** The `forEach` accumulator of `getTotalSpent`. */
  method GetTotalSpent(db: Db, user: UserId, startOfYear: int) returns (total: real)
    ensures total == TotalSpent(db.expenses, user, startOfYear)
  {
    var expenses := Filter(db.expenses, DatedFrom(startOfYear));
    var userExpenses := Filter(expenses, InvolvesUser(user));
    total := 0.0;
    for i := 0 to |userExpenses|
      invariant total == Sum(userExpenses[..i], OwnShare(user))
    {
      var e := userExpenses[i];
      assert userExpenses[..i + 1][..i] == userExpenses[..i];
      var userSplit := FindSplit(e.splits, user);
      if userSplit.Some? {
        total := total + userSplit.value.amount;
      }
    }
    assert userExpenses[..|userExpenses|] == userExpenses;
  }

  function DatedShare(user: UserId, startOfYear: int): Expense -> real
  {
    (e: Expense) => if e.date >= startOfYear then FirstSplitAmount(e.splits, user) else 0.0
  }

  /** The involvement filter changes nothing: an expense the user paid
      without a split of their own contributes zero, so the total is the
      user's first-split amount summed over every expense of the year. */
  lemma {:induction false} TotalSpentOverYear(expenses: seq<Expense>, user: UserId, startOfYear: int)
    ensures TotalSpent(expenses, user, startOfYear) == Sum(expenses, DatedShare(user, startOfYear))
  {
    var dated := Filter(expenses, DatedFrom(startOfYear));
    forall e | e in dated ensures OwnShare(user)(e) == (if InvolvesUser(user)(e) then OwnShare(user)(e) else 0.0) {
      if !Involves(e, user) {
        assert FindSplit(e.splits, user).None?;
      }
    }
    SumFilter(dated, InvolvesUser(user), OwnShare(user), OwnShare(user));
    SumFilter(expenses, DatedFrom(startOfYear), OwnShare(user), DatedShare(user, startOfYear));
  }

  /** With stored expenses well formed, the total is never negative. */
  lemma {:induction false} TotalSpentNonNegative(expenses: seq<Expense>, user: UserId, startOfYear: int)
    requires forall e :: e in expenses ==> WellFormedExpense(e)
    ensures TotalSpent(expenses, user, startOfYear) >= 0.0
  {
    TotalSpentOverYear(expenses, user, startOfYear);
    forall e | e in expenses ensures DatedShare(user, startOfYear)(e) >= 0.0 {
      var s := FindSplit(e.splits, user);
      if s.Some? {
        var k :| 0 <= k < |e.splits| && e.splits[k] == s.value && e.splits[k].userId == user
                 && forall j :: 0 <= j < k ==> e.splits[j].userId != user;
        assert e.splits[k].amount > 0.0;
      }
    }
    SumNonNegative(expenses, DatedShare(user, startOfYear));
  }
}
