/** The three record kinds of the ledger (expenses, settlements, groups),
    the user profiles they point at, and the split lookups every handler
    shares. Amounts are JavaScript numbers, modelled as reals. */
module Records {
  import opened Folds

  type UserId = nat
  type GroupId = nat
  type ExpenseId = nat
  type SettlementId = nat

  datatype Option<T> = None | Some(value: T)

  /** One constructor per error message a handler throws. */
  datatype Error =
    | AmountNotPositive
    | InvalidSplitType
    | SplitAmountNotPositive
    | GroupNotFound
    | CallerNotGroupMember
    | PayerNotGroupMember
    | SplitUserNotGroupMember
    | CallerNotInvolved
    | SplitSumMismatch
    | CannotQueryYourself
    | UserNotFound
    | ExpenseNotFound
    | NotAllowedToDelete
    | SamePayerAndReceiver
    | CallerNotParty
    | NoOutstandingBalance
    | ExceedsOutstandingBalance
    | PartiesNotGroupMembers
    | InvalidEntityType

  datatype Result<T> = Ok(value: T) | Err(error: Error)

  /** Allowance for rounding when sums of amounts are compared. */
  const Tolerance: real := 0.01

  datatype Split = Split(userId: UserId, amount: real, paid: bool)

  datatype Expense = Expense(
    id: ExpenseId,
    description: string,
    amount: real,
    category: string,
    date: int,
    paidBy: UserId,
    splitType: string,
    splits: seq<Split>,
    groupId: Option<GroupId>,
    createdBy: UserId)

  datatype Settlement = Settlement(
    id: SettlementId,
    amount: real,
    note: Option<string>,
    date: int,
    paidBy: UserId,
    receivedBy: UserId,
    groupId: Option<GroupId>,
    relatedExpenseIds: Option<seq<ExpenseId>>,
    createdBy: UserId)

  datatype Group = Group(id: GroupId, name: string, description: string, members: seq<UserId>)

  datatype User = User(name: string)

  function Abs(x: real): real { if x < 0.0 then -x else x }

  /* ---------- splits ---------- */

  function SplitAmount(s: Split): real { s.amount }

  function SplitUser(s: Split): UserId { s.userId }

  function SplitOf(u: UserId): Split -> bool { (s: Split) => s.userId == u }

  function UnpaidSplitOf(u: UserId): Split -> bool { (s: Split) => s.userId == u && !s.paid }

  /** Amount of a split if it is an unpaid share of `u`, else 0. */
  function UnpaidAmountOf(u: UserId): Split -> real
  {
    (s: Split) => if s.userId == u && !s.paid then s.amount else 0.0
  }

  /** `splits.some((s) => s.userId === u)` */
  predicate InSplits(splits: seq<Split>, u: UserId)
  {
    exists i :: 0 <= i < |splits| && splits[i].userId == u
  }

  /** Each participant appears at most once in the split list. */
  predicate UniqueSplitUsers(splits: seq<Split>)
  {
    DistinctBy(splits, SplitUser)
  }

  /** `splits.find((s) => s.userId === u)`: the FIRST split of `u`. */
  function FindSplit(splits: seq<Split>, u: UserId): (r: Option<Split>)
    ensures r.None? <==> !InSplits(splits, u)
    ensures r.Some? ==> exists k :: 0 <= k < |splits| && splits[k] == r.value && splits[k].userId == u
                                  && forall j :: 0 <= j < k ==> splits[j].userId != u
  {
    var k := FirstIndex(splits, SplitOf(u));
    if k < |splits| then Some(splits[k]) else None
  }

  /** `splits.find((s) => s.userId === u && !s.paid)`: the first UNPAID split
      of `u`, which may come after a paid one. */
  function FindUnpaidSplit(splits: seq<Split>, u: UserId): (r: Option<Split>)
    ensures r.None? <==> forall i :: 0 <= i < |splits| ==> splits[i].userId != u || splits[i].paid
    ensures r.Some? ==> exists k :: 0 <= k < |splits| && splits[k] == r.value && splits[k].userId == u
                                  && !splits[k].paid
                                  && forall j :: 0 <= j < k ==> splits[j].userId != u || splits[j].paid
  {
    var k := FirstIndex(splits, UnpaidSplitOf(u));
    if k < |splits| then Some(splits[k]) else None
  }

  /** What `u` still owes on an expense by the lookups of expenses.js and
      settlements.js: the first unpaid split of `u`, or nothing. */
  function UnpaidShare(splits: seq<Split>, u: UserId): real
  {
    match FindUnpaidSplit(splits, u)
    case Some(s) => s.amount
    case None => 0.0
  }

  /** With unique participants, "first unpaid split" and "first split, if
      unpaid" (the two lookups the handlers use) coincide, and both equal
      the sum of every unpaid split of `u`. */
  lemma {:induction false} UniqueSplitLookups(splits: seq<Split>, u: UserId)
    requires UniqueSplitUsers(splits)
    ensures FindUnpaidSplit(splits, u)
            == (if FindSplit(splits, u).Some? && !FindSplit(splits, u).value.paid
                then FindSplit(splits, u) else None)
    ensures Sum(splits, UnpaidAmountOf(u)) == UnpaidShare(splits, u)
    ensures FirstSplitIfUnpaid(splits, u) == UnpaidShare(splits, u)
  {
    var k := FirstIndex(splits, SplitOf(u));
    if k < |splits| {
      forall j | 0 <= j < |splits| && j != k ensures splits[j].userId != u {
        if j < k {
        } else {
          assert SplitUser(splits[k]) != SplitUser(splits[j]);
        }
      }
      SumSingle(splits, UnpaidAmountOf(u), k);
    } else {
      SumZero(splits, UnpaidAmountOf(u));
    }
  }

  /** `mySplit && !mySplit.paid ? mySplit.amount : 0` with `mySplit` the
      FIRST split of `u`, paid or not (the lookup of dashboard.js). */
  function FirstSplitIfUnpaid(splits: seq<Split>, u: UserId): real
  {
    match FindSplit(splits, u)
    case Some(s) => if s.paid then 0.0 else s.amount
    case None => 0.0
  }

  /** The first split of `u`, whether paid or not, or nothing. */
  function FirstSplitAmount(splits: seq<Split>, u: UserId): real
  {
    match FindSplit(splits, u)
    case Some(s) => s.amount
    case None => 0.0
  }

  function SplitTotal(splits: seq<Split>): real { Sum(splits, SplitAmount) }

  predicate ValidSplitType(t: string)
  {
    t == "equal" || t == "percentage" || t == "exact"
  }

  /* ---------- expenses and settlements ---------- */

  predicate Involves(e: Expense, u: UserId)
  {
    e.paidBy == u || InSplits(e.splits, u)
  }

  function ExpenseDate(e: Expense): real { e.date as real }

  function SettlementDate(s: Settlement): real { s.date as real }

  function SettlementAmount(s: Settlement): real { s.amount }

  /** The `by_user_and_group` index with `groupId === undefined`. */
  function PaidUngroupedBy(u: UserId): Expense -> bool
  {
    (e: Expense) => e.paidBy == u && e.groupId.None?
  }

  function SettledUngroupedBy(u: UserId): Settlement -> bool
  {
    (s: Settlement) => s.paidBy == u && s.groupId.None?
  }

  function ExpensesOfGroup(g: GroupId): Expense -> bool
  {
    (e: Expense) => e.groupId == Some(g)
  }

  function SettlementsOfGroup(g: GroupId): Settlement -> bool
  {
    (s: Settlement) => s.groupId == Some(g)
  }

  /* ---------- groups and users ---------- */

  function GroupIdIs(g: GroupId): Group -> bool { (x: Group) => x.id == g }

  /** `ctx.db.get(groupId)` on the groups table. */
  function FindGroup(groups: seq<Group>, g: GroupId): (r: Option<Group>)
    ensures r.Some? ==> r.value in groups && r.value.id == g
    ensures r.None? ==> forall i :: 0 <= i < |groups| ==> groups[i].id != g
  {
    var k := FirstIndex(groups, GroupIdIs(g));
    if k < |groups| then Some(groups[k]) else None
  }

  predicate IsMember(g: Group, u: UserId)
  {
    u in g.members
  }

  /** `user?.name || "Unknown"`: a missing user or an empty name reads "Unknown". */
  function NameOrUnknown(users: map<UserId, User>, u: UserId): (r: string)
    ensures r != ""
    ensures u in users && users[u].name != "" ==> r == users[u].name
    ensures !(u in users && users[u].name != "") ==> r == "Unknown"
  {
    if u in users && users[u].name != "" then users[u].name else "Unknown"
  }

  /** `user?.name ?? "Unknown"`: only a missing user reads "Unknown". */
  function NameIfKnown(users: map<UserId, User>, u: UserId): (r: string)
    ensures u in users ==> r == users[u].name
    ensures u !in users ==> r == "Unknown"
  {
    if u in users then users[u].name else "Unknown"
  }
}
