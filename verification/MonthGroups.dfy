/** The grouping of the shown transactions by month (`groupByMonth` in
    `transactions.page.ts`): one group per month that occurs, holding that
    month's transactions and their income, expense and balance, the latest
    month first. */
module MonthGroups {

  import opened Models
  import opened Collections
  import opened TransactionFilters

  /** One month of `groupedTransactions`. The key is the month's index
      `year * 12 + month - 1`, which orders months as the `YYYY-MM` keys
      of the source do. */
  datatype MonthGroup = MonthGroup(
    monthKey: int,
    transactions: seq<ApiTransaction>,
    totalIncome: real,
    totalExpense: real,
    balance: real)

  function MonthKey(t: ApiTransaction): int {
    t.date.year * 12 + (t.date.month - 1)
  }

  /** The grouping counts a transaction as income when its type is the
      income code, and as expense otherwise. */
  predicate IsIncome(t: ApiTransaction) {
    t.releaseType == IncomeCode
  }

  function Incomes(): ApiTransaction -> bool {
    t => IsIncome(t)
  }

  /** The group a month starts with when the loop first meets it. */
  function EmptyGroup(k: int): MonthGroup {
    MonthGroup(k, [], 0.0, 0.0, 0.0)
  }

  /** What the grouping loop does with a transaction once it has found (or
      opened) its month: append it, add its value to the income total for
      an income and to the expense total for any other type, and
      recompute the balance. */
  function Record(g: MonthGroup, t: ApiTransaction): MonthGroup {
    var income := if IsIncome(t) then g.totalIncome + t.value else g.totalIncome;
    var expense := if IsIncome(t) then g.totalExpense else g.totalExpense + t.value;
    MonthGroup(g.monthKey, g.transactions + [t], income, expense, income - expense)
  }

  /** The group of month `k` holding `members`: the sum of the values of
      the incomes, the sum of the values of everything else, and their
      difference. */
  function Tally(k: int, members: seq<ApiTransaction>): (g: MonthGroup)
    ensures g.monthKey == k && g.transactions == members
    ensures g.balance == g.totalIncome - g.totalExpense
  {
    var income := SumWhere(members, Incomes(), Value);
    var expense := SumWhere(members, Not(Incomes()), Value);
    MonthGroup(k, members, income, expense, income - expense)
  }

  /** Between them the two totals of a group account for every member's
      value once. */
  lemma TallyCoversMembers(k: int, members: seq<ApiTransaction>)
    ensures Tally(k, members).totalIncome + Tally(k, members).totalExpense == SumOf(members, Value)
  {
    SumWhereIsFilteredSum(members, Incomes(), Value);
    SumWhereIsFilteredSum(members, Not(Incomes()), Value);
    SumSplit(members, Incomes(), Value);
  }

  /** Recording a transaction in the tally of a month's members is the
      tally of the members with that transaction appended; the loop's
      step thus keeps each group equal to the tally of what it holds. */
  lemma TallySnoc(k: int, m: seq<ApiTransaction>, t: ApiTransaction)
    ensures Tally(k, m + [t]) == Record(Tally(k, m), t)
  {
    SumWhereSnoc(m, t, Incomes(), Value);
    SumWhereSnoc(m, t, Not(Incomes()), Value);
  }

  /** The group of month `k` as the loop builds it: start empty and
      record each transaction of that month, in order. */
  function GroupOf(ts: seq<ApiTransaction>, k: int): (g: MonthGroup)
    ensures g.monthKey == k
    ensures g.balance == g.totalIncome - g.totalExpense
  {
    if ts == [] then EmptyGroup(k)
    else
      var t := ts[|ts| - 1];
      var g := GroupOf(ts[..|ts| - 1], k);
      if MonthKey(t) == k then Record(g, t) else g
  }

  /** The group of a month is the tally of that month's transactions: it
      holds exactly them, in order, with the sum of the incomes, the sum
      of everything else, and their difference. */
  lemma {:induction false} GroupOfIsTally(ts: seq<ApiTransaction>, k: int)
    ensures GroupOf(ts, k) == Tally(k, Filter(ts, KeyIs(MonthKey, k)))
  {
    if ts != [] {
      var s := ts[..|ts| - 1];
      var t := ts[|ts| - 1];
      assert ts == s + [t];
      GroupOfIsTally(s, k);
      FilterSnoc(s, t, KeyIs(MonthKey, k));
      if MonthKey(t) == k {
        TallySnoc(k, Filter(s, KeyIs(MonthKey, k)), t);
      }
    }
  }

  /** A group holds exactly the transactions of its month. */
  lemma GroupMembers(ts: seq<ApiTransaction>, k: int)
    ensures forall t :: t in GroupOf(ts, k).transactions <==> t in ts && MonthKey(t) == k
  {
    GroupOfIsTally(ts, k);
  }

  /** A month that does not occur has the empty group. */
  lemma GroupOfAbsent(ts: seq<ApiTransaction>, k: int)
    requires !Occurs(ts, MonthKey, k)
    ensures GroupOf(ts, k) == EmptyGroup(k)
  {
    GroupOfIsTally(ts, k);
  }

  /** One more transaction changes only the group of its month. */
  lemma GroupOfSnoc(ts: seq<ApiTransaction>, t: ApiTransaction, k: int)
    ensures GroupOf(ts + [t], k) == if MonthKey(t) == k then Record(GroupOf(ts, k), t) else GroupOf(ts, k)
  {
    var s := ts + [t];
    assert s[..|s| - 1] == ts;
  }

  function GroupFor(ts: seq<ApiTransaction>): int -> MonthGroup {
    k => GroupOf(ts, k)
  }

  /** The groups in the order the `Map` receives their months. */
  function GroupsInOrder(ts: seq<ApiTransaction>): (gs: seq<MonthGroup>)
    ensures |gs| == |KeysInOrder(ts, MonthKey)|
    ensures forall i :: 0 <= i < |gs| ==> gs[i] == GroupOf(ts, KeysInOrder(ts, MonthKey)[i])
  {
    MapSeq(KeysInOrder(ts, MonthKey), GroupFor(ts))
  }

  function GroupKey(g: MonthGroup): real {
    g.monthKey as real
  }

  /** `groupedTransactions`: the groups the loop builds, latest month
      first. */
  function MonthGroupList(ts: seq<ApiTransaction>): seq<MonthGroup> {
    SortDesc(Grouped(ts), GroupKey)
  }

  /** Position of the group of month `k`, or `|gs|` when there is none. */
  function IndexOfMonth(gs: seq<MonthGroup>, k: int): (j: nat)
    ensures j <= |gs|
    ensures j < |gs| ==> gs[j].monthKey == k
    ensures forall i :: 0 <= i < j ==> gs[i].monthKey != k
  {
    if gs == [] then 0
    else if gs[0].monthKey == k then 0
    else 1 + IndexOfMonth(gs[1..], k)
  }

  /** The grouping loop's step: find the month's group, opening an empty
      one at the end when there is none, and record the transaction in
      it. */
  function Step(gs: seq<MonthGroup>, t: ApiTransaction): seq<MonthGroup> {
    var j := IndexOfMonth(gs, MonthKey(t));
    if j < |gs| then gs[j := Record(gs[j], t)]
    else gs + [Record(EmptyGroup(MonthKey(t)), t)]
  }

  /** The groups the loop has built after a prefix of the transactions. */
  function Grouped(ts: seq<ApiTransaction>): seq<MonthGroup> {
    if ts == [] then [] else Step(Grouped(ts[..|ts| - 1]), ts[|ts| - 1])
  }

  /** The keys of a list extended by one element. */
  lemma KeysInOrderSnoc(ts: seq<ApiTransaction>, t: ApiTransaction)
    ensures KeysInOrder(ts + [t], MonthKey)
            == if MonthKey(t) in KeysInOrder(ts, MonthKey) then KeysInOrder(ts, MonthKey)
               else KeysInOrder(ts, MonthKey) + [MonthKey(t)]
  {
    var s := ts + [t];
    assert s[..|s| - 1] == ts;
  }

  /** An existing group after one more transaction: recorded in when it
      is the transaction's month, unchanged otherwise. */
  lemma SnocKeepsGroup(ts: seq<ApiTransaction>, t: ApiTransaction, i: int)
    requires 0 <= i < |GroupsInOrder(ts)|
    ensures i < |GroupsInOrder(ts + [t])|
    ensures var g := GroupsInOrder(ts)[i];
            GroupsInOrder(ts + [t])[i] == if g.monthKey == MonthKey(t) then Record(g, t) else g
  {
    KeysInOrderSnoc(ts, t);
    var ks := KeysInOrder(ts, MonthKey);
    assert KeysInOrder(ts + [t], MonthKey)[i] == ks[i];
    GroupOfSnoc(ts, t, ks[i]);
  }

  /** The step when the month already has a group. */
  lemma SnocIntoGroup(ts: seq<ApiTransaction>, t: ApiTransaction)
    requires IndexOfMonth(GroupsInOrder(ts), MonthKey(t)) < |GroupsInOrder(ts)|
    ensures GroupsInOrder(ts + [t]) == Step(GroupsInOrder(ts), t)
  {
    var k := MonthKey(t);
    var ks := KeysInOrder(ts, MonthKey);
    var gs := GroupsInOrder(ts);
    var j := IndexOfMonth(gs, k);
    var after := GroupsInOrder(ts + [t]);
    assert ks[j] == k;
    KeysInOrderSnoc(ts, t);
    assert |after| == |gs|;
    forall i | 0 <= i < |gs| && i != j ensures after[i] == gs[i] {
      SnocKeepsGroup(ts, t, i);
      assert ks[i] != ks[j];
    }
    SnocKeepsGroup(ts, t, j);
    UpdateOfPointwise(after, gs, j, Record(gs[j], t));
  }

  /** The step when the month has no group yet. */
  lemma SnocNewGroup(ts: seq<ApiTransaction>, t: ApiTransaction)
    requires IndexOfMonth(GroupsInOrder(ts), MonthKey(t)) == |GroupsInOrder(ts)|
    ensures GroupsInOrder(ts + [t]) == Step(GroupsInOrder(ts), t)
  {
    var k := MonthKey(t);
    var ks := KeysInOrder(ts, MonthKey);
    var gs := GroupsInOrder(ts);
    var after := GroupsInOrder(ts + [t]);
    var last := Record(EmptyGroup(k), t);
    NoGroupNoMonth(ts, k);
    NewGroupLast(ts, t);
    OtherGroupsKept(ts, t);
    SnocOfPointwise(after, gs, last);
  }

  /** The groups of other months are untouched by a transaction. */
  lemma OtherGroupsKept(ts: seq<ApiTransaction>, t: ApiTransaction)
    requires IndexOfMonth(GroupsInOrder(ts), MonthKey(t)) == |GroupsInOrder(ts)|
    ensures |GroupsInOrder(ts + [t])| >= |GroupsInOrder(ts)|
    ensures forall i :: 0 <= i < |GroupsInOrder(ts)| ==> GroupsInOrder(ts + [t])[i] == GroupsInOrder(ts)[i]
  {
    var gs := GroupsInOrder(ts);
    KeysInOrderSnoc(ts, t);
    forall i | 0 <= i < |gs| ensures GroupsInOrder(ts + [t])[i] == gs[i] {
      SnocKeepsGroup(ts, t, i);
    }
  }

  /** A month without a group does not occur. */
  lemma NoGroupNoMonth(ts: seq<ApiTransaction>, k: int)
    requires IndexOfMonth(GroupsInOrder(ts), k) == |GroupsInOrder(ts)|
    ensures !Occurs(ts, MonthKey, k)
  {
    var ks := KeysInOrder(ts, MonthKey);
    var gs := GroupsInOrder(ts);
    forall i | 0 <= i < |ks| ensures ks[i] != k {
      assert gs[i].monthKey == ks[i];
    }
    assert k !in ks;
  }

  /** A transaction of a month not seen before opens a group at the end. */
  lemma NewGroupLast(ts: seq<ApiTransaction>, t: ApiTransaction)
    requires !Occurs(ts, MonthKey, MonthKey(t))
    ensures |GroupsInOrder(ts + [t])| == |GroupsInOrder(ts)| + 1
    ensures GroupsInOrder(ts + [t])[|GroupsInOrder(ts)|] == Record(EmptyGroup(MonthKey(t)), t)
  {
    var k := MonthKey(t);
    var n := |GroupsInOrder(ts)|;
    KeysInOrderSnoc(ts, t);
    assert KeysInOrder(ts + [t], MonthKey)[n] == k;
    GroupOfSnoc(ts, t, k);
    GroupOfAbsent(ts, k);
  }

  /** The loop's step on the groups of a prefix gives the groups of the
      prefix extended by one transaction. */
  lemma GroupsInOrderSnoc(ts: seq<ApiTransaction>, t: ApiTransaction)
    ensures GroupsInOrder(ts + [t]) == Step(GroupsInOrder(ts), t)
  {
    if IndexOfMonth(GroupsInOrder(ts), MonthKey(t)) < |GroupsInOrder(ts)| {
      SnocIntoGroup(ts, t);
    } else {
      SnocNewGroup(ts, t);
    }
  }

  /** The loop builds, for each month in order of first appearance, the
      group of that month. */
  lemma {:induction false} GroupedIsGroupsInOrder(ts: seq<ApiTransaction>)
    ensures Grouped(ts) == GroupsInOrder(ts)
  {
    if ts != [] {
      var s := ts[..|ts| - 1];
      assert ts == s + [ts[|ts| - 1]];
      GroupedIsGroupsInOrder(s);
      GroupsInOrderSnoc(s, ts[|ts| - 1]);
    }
  }

  /** The groups in order of first appearance carry distinct months. */
  lemma GroupsInOrderDistinct(ts: seq<ApiTransaction>)
    ensures DistinctBy(GroupsInOrder(ts), GroupKey)
  {
    var ks := KeysInOrder(ts, MonthKey);
    var u := GroupsInOrder(ts);
    forall i, j | 0 <= i < j < |u| ensures GroupKey(u[i]) != GroupKey(u[j]) {
      assert u[i].monthKey == ks[i] && u[j].monthKey == ks[j];
      assert ks[i] != ks[j];
      assert u[i].monthKey != u[j].monthKey;
    }
  }

  /** The months strictly decrease along `groupedTransactions`. */
  lemma MonthGroupsDescending(ts: seq<ApiTransaction>)
    ensures var gs := MonthGroupList(ts);
            forall i, j :: 0 <= i < j < |gs| ==> gs[i].monthKey > gs[j].monthKey
  {
    var gs := MonthGroupList(ts);
    GroupedIsGroupsInOrder(ts);
    SortDescPermutes(Grouped(ts), GroupKey);
    GroupsInOrderDistinct(ts);
    PermutationKeepsDistinct(GroupsInOrder(ts), gs, GroupKey);
    forall i, j | 0 <= i < j < |gs| ensures gs[i].monthKey > gs[j].monthKey {
      assert GroupKey(gs[i]) >= GroupKey(gs[j]) && GroupKey(gs[i]) != GroupKey(gs[j]);
    }
  }

  /** Each group of `groupedTransactions` is the group of its month and
      holds at least one transaction. */
  lemma MonthGroupsAreGroups(ts: seq<ApiTransaction>)
    ensures forall g :: g in MonthGroupList(ts) ==> g == GroupOf(ts, g.monthKey) && g.transactions != []
  {
    var ks := KeysInOrder(ts, MonthKey);
    var u := GroupsInOrder(ts);
    var gs := MonthGroupList(ts);
    GroupedIsGroupsInOrder(ts);
    SortDescPermutes(Grouped(ts), GroupKey);
    forall g | g in gs ensures g == GroupOf(ts, g.monthKey) && g.transactions != [] {
      assert g in multiset(u);
      var i :| 0 <= i < |u| && u[i] == g;
      assert ks[i] in ks;
      var p :| 0 <= p < |ts| && MonthKey(ts[p]) == ks[i];
      GroupMembers(ts, ks[i]);
      assert ts[p] in g.transactions;
    }
  }

  /** Every transaction's month has a group in `groupedTransactions`. */
  lemma MonthGroupsCover(ts: seq<ApiTransaction>)
    ensures forall t :: t in ts ==> exists g :: g in MonthGroupList(ts) && g.monthKey == MonthKey(t)
  {
    var ks := KeysInOrder(ts, MonthKey);
    var u := GroupsInOrder(ts);
    var gs := MonthGroupList(ts);
    GroupedIsGroupsInOrder(ts);
    SortDescPermutes(Grouped(ts), GroupKey);
    forall t | t in ts ensures exists g :: g in gs && g.monthKey == MonthKey(t) {
      var p :| 0 <= p < |ts| && ts[p] == t;
      assert Occurs(ts, MonthKey, MonthKey(t));
      var i :| 0 <= i < |ks| && ks[i] == MonthKey(t);
      assert u[i] in multiset(gs);
    }
  }

  /** Together: every transaction lies in exactly one group, the group of
      its month; each group is the group of its month and is not empty;
      the months strictly decrease along the list. */
  lemma MonthGroupsPartition(ts: seq<ApiTransaction>)
    ensures var gs := MonthGroupList(ts);
            && (forall i, j :: 0 <= i < j < |gs| ==> gs[i].monthKey > gs[j].monthKey)
            && (forall g :: g in gs ==> g == GroupOf(ts, g.monthKey) && g.transactions != [])
            && (forall t :: t in ts ==> exists g :: g in gs && g.monthKey == MonthKey(t))
  {
    MonthGroupsDescending(ts);
    MonthGroupsAreGroups(ts);
    MonthGroupsCover(ts);
  }
}
