/**
 * The trial balance: four filters over the journal items, grouped by account and
 * merged into one table of totals.
 *
 * Amounts are integers in the smallest unit of the currency.  The filters that
 * are common to the four searches (company, posted entries, journals, partners,
 * accounts) are one predicate.  read_group is a parameter: any list that groups
 * the matching items by account.
 */
module TrialBalance {

  import opened FiniteSums

  type AccountId = int
  type EntryId = int

  datatype Item = Item(account: AccountId, entry: EntryId, date: int, debit: int, credit: int, balance: int,
                       isDisplay: bool)

  datatype Query = Query(dateFrom: int, dateTo: int, fyStart: int, carried: set<AccountId>, common: Item -> bool,
                         hideAtZero: bool, unaffected: AccountId)

  datatype Filter = InitialBs | InitialPl | Period | PriorPl

  /** Accounts that carry their balance forward are balance-sheet accounts. */
  predicate Passes(q: Query, f: Filter, it: Item) {
    && q.common(it)
    && match f
       case InitialBs => it.account in q.carried && it.date < q.dateFrom
       case InitialPl => it.account !in q.carried && q.fyStart <= it.date < q.dateFrom
       case Period => !it.isDisplay && q.dateFrom <= it.date <= q.dateTo
       case PriorPl => it.account !in q.carried && it.date < q.fyStart
  }

  datatype Column = Debit | Credit | Balance

  function Amount(c: Column, it: Item): int {
    match c
    case Debit => it.debit
    case Credit => it.credit
    case Balance => it.balance
  }

  /** The total of a column over the items of one account that pass a filter. */
  function AccountSum(q: Query, f: Filter, c: Column, a: AccountId, items: seq<Item>): int {
    if items == [] then 0
    else
      var rest := AccountSum(q, f, c, a, items[1..]);
      if Passes(q, f, items[0]) && items[0].account == a then rest + Amount(c, items[0]) else rest
  }

  function FilterSum(q: Query, f: Filter, c: Column, items: seq<Item>): int {
    if items == [] then 0
    else
      var rest := FilterSum(q, f, c, items[1..]);
      if Passes(q, f, items[0]) then rest + Amount(c, items[0]) else rest
  }

  datatype Group = Group(account: AccountId, debit: int, credit: int, balance: int)

  function Accounts(groups: seq<Group>): set<AccountId> {
    set g | g in groups :: g.account
  }

  ghost predicate DistinctAccounts(groups: seq<Group>) {
    forall i, j :: 0 <= i < j < |groups| ==> groups[i].account != groups[j].account
  }

  ghost predicate SumsOf(q: Query, f: Filter, items: seq<Item>, g: Group) {
    && g.debit == AccountSum(q, f, Debit, g.account, items)
    && g.credit == AccountSum(q, f, Credit, g.account, items)
    && g.balance == AccountSum(q, f, Balance, g.account, items)
  }

  /** The result of grouping the items that pass a filter by account, in any order. */
  ghost predicate Groups(q: Query, f: Filter, items: seq<Item>, groups: seq<Group>) {
    && DistinctAccounts(groups)
    && Accounts(groups) == (set it | it in items && Passes(q, f, it) :: it.account)
    && forall g <- groups :: SumsOf(q, f, items, g)
  }

  datatype Totals = Totals(debit: int, credit: int, balance: int, initial: int, ending: int)

  function Initial(q: Query, a: AccountId, items: seq<Item>): int {
    AccountSum(q, InitialBs, Balance, a, items) + AccountSum(q, InitialPl, Balance, a, items)
  }

  /** What the report owes an account, before the earnings of earlier years. */
  function Due(q: Query, a: AccountId, items: seq<Item>): Totals {
    var balance := AccountSum(q, Period, Balance, a, items);
    Totals(AccountSum(q, Period, Debit, a, items), AccountSum(q, Period, Credit, a, items), balance,
           Initial(q, a, items), Initial(q, a, items) + balance)
  }

  function WithEarnings(t: Totals, earnings: int): Totals {
    t.(initial := t.initial + earnings, ending := t.ending + earnings)
  }

  function Expected(q: Query, a: AccountId, items: seq<Item>): Totals {
    if a == q.unaffected then WithEarnings(Due(q, a, items), FilterSum(q, PriorPl, Balance, items))
    else Due(q, a, items)
  }

  // ---------------------------------------------------------------- groups and sums

  /** An account without a passing item sums to nothing. */
  lemma {:induction false} AccountSumAbsent(q: Query, f: Filter, c: Column, a: AccountId, items: seq<Item>)
    requires forall it <- items :: Passes(q, f, it) ==> it.account != a
    ensures AccountSum(q, f, c, a, items) == 0
  {
    if items != [] { AccountSumAbsent(q, f, c, a, items[1..]); }
  }

  lemma GroupsMiss(q: Query, f: Filter, items: seq<Item>, groups: seq<Group>, a: AccountId)
    requires Groups(q, f, items, groups) && a !in Accounts(groups)
    ensures SumsOf(q, f, items, Group(a, 0, 0, 0))
  {
    AccountSumAbsent(q, f, Debit, a, items);
    AccountSumAbsent(q, f, Credit, a, items);
    AccountSumAbsent(q, f, Balance, a, items);
  }

  lemma AccountsSnoc(groups: seq<Group>, k: nat)
    requires k < |groups|
    ensures Accounts(groups[..k + 1]) == Accounts(groups[..k]) + {groups[k].account}
    ensures DistinctAccounts(groups) ==> groups[k].account !in Accounts(groups[..k])
    ensures groups[k] in groups && groups[..|groups|] == groups
  {
    assert groups[..k + 1] == groups[..k] + [groups[k]];
  }

  /** No account has both kinds of initial balance. */
  lemma InitialKindsApart(q: Query, a: AccountId, items: seq<Item>)
    ensures a in q.carried ==> AccountSum(q, InitialPl, Balance, a, items) == 0
    ensures a !in q.carried ==> AccountSum(q, InitialBs, Balance, a, items) == 0
  {
    if a in q.carried {
      AccountSumAbsent(q, InitialPl, Balance, a, items);
    } else {
      AccountSumAbsent(q, InitialBs, Balance, a, items);
    }
  }

  /** Totals per account add up to the total of the filter. */
  lemma {:induction false} AccountsAddUp(q: Query, f: Filter, c: Column, accounts: set<AccountId>, items: seq<Item>)
    requires forall it <- items :: it.account in accounts
    ensures SumOver(accounts, a => AccountSum(q, f, c, a, items)) == FilterSum(q, f, c, items)
    decreases |items|
  {
    if items == [] {
      SumOverEqual(accounts, a => AccountSum(q, f, c, a, items), _ => 0);
      SumOverNone(accounts);
    } else {
      var rest, it := items[1..], items[0];
      AccountsAddUp(q, f, c, accounts, rest);
      var first := (a: AccountId) => if Passes(q, f, it) && it.account == a then Amount(c, it) else 0;
      SumOverSingle(accounts, first, it.account);
      SumOverPlus(accounts, a => AccountSum(q, f, c, a, rest), first, a => AccountSum(q, f, c, a, items));
    }
  }

  // ---------------------------------------------------------------- the report data

  /** The groups kept when accounts at zero are hidden. */
  function NonZero(groups: seq<Group>): (kept: seq<Group>)
    ensures forall g :: g in kept <==> g in groups && g.balance != 0
    ensures DistinctAccounts(groups) ==> DistinctAccounts(kept)
  {
    if groups == [] then []
    else
      assert groups == [groups[0]] + groups[1..];
      var rest := NonZero(groups[1..]);
      assert DistinctAccounts(groups) ==> forall g <- rest :: g.account != groups[0].account;
      if groups[0].balance == 0 then rest else [groups[0]] + rest
  }

  /** Groups of initial balances: one per account, and an account without one starts at zero. */
  ghost predicate InitialGroups(q: Query, items: seq<Item>, groups: seq<Group>) {
    && DistinctAccounts(groups)
    && (forall g <- groups :: g.balance == Initial(q, g.account, items))
    && (forall a :: a !in Accounts(groups) ==> Initial(q, a, items) == 0)
  }

  lemma MergedInitial(q: Query, items: seq<Item>, bs: seq<Group>, pl: seq<Group>)
    requires Groups(q, InitialBs, items, bs) && Groups(q, InitialPl, items, pl)
    ensures InitialGroups(q, items, bs + pl)
  {
    forall a ensures (a in q.carried ==> Initial(q, a, items) == AccountSum(q, InitialBs, Balance, a, items))
                  && (a !in q.carried ==> Initial(q, a, items) == AccountSum(q, InitialPl, Balance, a, items)) {
      InitialKindsApart(q, a, items);
    }
    assert Accounts(bs + pl) == Accounts(bs) + Accounts(pl);
    assert Accounts(bs) !! Accounts(pl);
    forall i, j | 0 <= i < |bs| && 0 <= j < |pl| ensures bs[i].account != pl[j].account {
      assert bs[i].account in Accounts(bs) && pl[j].account in Accounts(pl);
    }
    forall g | g in bs + pl ensures g.balance == Initial(q, g.account, items) {
      assert g in bs ==> g.account in Accounts(bs);
      assert g in pl ==> g.account in Accounts(pl);
    }
    forall a | a !in Accounts(bs + pl) ensures Initial(q, a, items) == 0 {
      GroupsMiss(q, InitialBs, items, bs, a);
      GroupsMiss(q, InitialPl, items, pl, a);
    }
  }

  lemma HiddenInitial(q: Query, items: seq<Item>, groups: seq<Group>)
    requires InitialGroups(q, items, groups)
    ensures InitialGroups(q, items, NonZero(groups))
  {
    forall a | a !in Accounts(NonZero(groups)) ensures Initial(q, a, items) == 0 {
      if a in Accounts(groups) {
        var g :| g in groups && g.account == a;
        assert g in NonZero(groups) ==> a in Accounts(NonZero(groups));
      }
    }
  }

  /** An entry of the table once the period and the initial groups of some accounts are merged in. */
  ghost predicate Merged(q: Query, items: seq<Item>, a: AccountId, seen: set<AccountId>, t: Totals) {
    var initial := if a in seen then Initial(q, a, items) else 0;
    t == Due(q, a, items).(initial := initial, ending := initial + t.balance)
  }

  method PeriodTotals(q: Query, ghost items: seq<Item>, groups: seq<Group>) returns (total: map<AccountId, Totals>)
    requires Groups(q, Period, items, groups)
    ensures total.Keys == Accounts(groups)
    ensures forall a :: a in total ==> Merged(q, items, a, {}, total[a])
  {
    hide Groups, Merged;
    total := map[];
    for k := 0 to |groups|
      invariant total.Keys == Accounts(groups[..k])
      invariant forall a :: a in total ==> Merged(q, items, a, {}, total[a])
    {
      var tb := groups[k];
      total := total[tb.account := Totals(tb.debit, tb.credit, tb.balance, 0, tb.balance)];
      PeriodEntry(q, items, groups, k);
    }
    assert groups[..|groups|] == groups;
  }

  method AddInitial(q: Query, ghost items: seq<Item>, ghost period: seq<Group>, initial: seq<Group>,
                    before: map<AccountId, Totals>)
    returns (total: map<AccountId, Totals>)
    requires Groups(q, Period, items, period) && InitialGroups(q, items, initial)
    requires before.Keys == Accounts(period) && forall a :: a in before ==> Merged(q, items, a, {}, before[a])
    ensures forall a :: a !in total ==> Due(q, a, items) == Totals(0, 0, 0, 0, 0)
    ensures forall a :: a in total ==> total[a] == Due(q, a, items)
  {
    hide Groups, InitialGroups, Merged, Due;
    total := before;
    assert Accounts(initial[..0]) == {};
    for k := 0 to |initial|
      invariant total.Keys == Accounts(period) + Accounts(initial[..k])
      invariant forall a :: a in total ==> Merged(q, items, a, Accounts(initial[..k]), total[a])
    {
      var tb := initial[k];
      ghost var old_ := total;
      InitialApart(q, items, initial, k);
      if tb.account !in total {
        total := total[tb.account := Totals(0, 0, 0, tb.balance, tb.balance)];
      } else {
        var t := total[tb.account];
        total := total[tb.account := t.(initial := tb.balance, ending := t.ending + tb.balance)];
      }
      forall a | a in total ensures Merged(q, items, a, Accounts(initial[..k + 1]), total[a]) {
        MergeStep(q, items, period, initial, k, old_, a);
      }
    }
    assert initial[..|initial|] == initial;
    forall a ensures a !in total ==> Due(q, a, items) == Totals(0, 0, 0, 0, 0)
             ensures a in total ==> total[a] == Due(q, a, items) {
      MergedIsDue(q, items, period, initial, total, a);
    }
  }

  method GetData(q: Query, ghost items: seq<Item>, bsGroups: seq<Group>, plGroups: seq<Group>,
                 periodGroups: seq<Group>, priorGroups: seq<Group>)
    returns (total: map<AccountId, Totals>)
    requires Groups(q, InitialBs, items, bsGroups) && Groups(q, InitialPl, items, plGroups)
    requires Groups(q, Period, items, periodGroups) && Groups(q, PriorPl, items, priorGroups)
    ensures q.unaffected in total
    ensures forall a :: a in total ==> total[a] == Expected(q, a, items)
    ensures forall a :: a !in total ==> Due(q, a, items) == Totals(0, 0, 0, 0, 0)
  {
    hide Groups, InitialGroups, Merged, NonZero, Due;
    var initialGroups := bsGroups + plGroups;
    MergedInitial(q, items, bsGroups, plGroups);
    if q.hideAtZero {
      HiddenInitial(q, items, initialGroups);
      initialGroups := NonZero(initialGroups);
    }
    total := PeriodTotals(q, items, periodGroups);
    total := AddInitial(q, items, periodGroups, initialGroups, total);
    if q.unaffected !in total {
      total := total[q.unaffected := Totals(0, 0, 0, 0, 0)];
    }
    var earnings := PlInitialBalance(q, items, priorGroups);
    var t := total[q.unaffected];
    total := total[q.unaffected := t.(ending := t.ending + earnings, initial := t.initial + earnings)];
  }

  lemma PeriodEntry(q: Query, items: seq<Item>, groups: seq<Group>, k: nat)
    requires Groups(q, Period, items, groups) && k < |groups|
    ensures var tb := groups[k];
            Merged(q, items, tb.account, {}, Totals(tb.debit, tb.credit, tb.balance, 0, tb.balance))
    ensures Accounts(groups[..k + 1]) == Accounts(groups[..k]) + {groups[k].account}
  {
    AccountsSnoc(groups, k);
    hide AccountSum;
  }

  lemma InitialApart(q: Query, items: seq<Item>, groups: seq<Group>, k: nat)
    requires InitialGroups(q, items, groups) && k < |groups|
    ensures groups[k].account !in Accounts(groups[..k])
    ensures Accounts(groups[..k + 1]) == Accounts(groups[..k]) + {groups[k].account}
    ensures groups[k].balance == Initial(q, groups[k].account, items)
  {
    AccountsSnoc(groups, k);
  }

  /** One turn of the loop over the initial balances. */
  lemma MergeStep(q: Query, items: seq<Item>, period: seq<Group>, initial: seq<Group>, k: nat,
                  total: map<AccountId, Totals>, a: AccountId)
    requires Groups(q, Period, items, period) && InitialGroups(q, items, initial) && k < |initial|
    requires total.Keys == Accounts(period) + Accounts(initial[..k])
    requires a in total ==> Merged(q, items, a, Accounts(initial[..k]), total[a])
    ensures var tb, seen := initial[k], Accounts(initial[..k + 1]);
      if a != tb.account then a in total ==> Merged(q, items, a, seen, total[a])
      else Merged(q, items, a, seen,
                  if a in total then total[a].(initial := tb.balance, ending := total[a].ending + tb.balance)
                  else Totals(0, 0, 0, tb.balance, tb.balance))
  {
    InitialApart(q, items, initial, k);
    if a !in Accounts(period) {
      GroupsMiss(q, Period, items, period, a);
    }
    hide AccountSum;
  }

  lemma MergedIsDue(q: Query, items: seq<Item>, period: seq<Group>, initial: seq<Group>, total: map<AccountId, Totals>,
                    a: AccountId)
    requires Groups(q, Period, items, period) && InitialGroups(q, items, initial)
    requires total.Keys == Accounts(period) + Accounts(initial)
    requires a in total ==> Merged(q, items, a, Accounts(initial), total[a])
    ensures a !in total ==> Due(q, a, items) == Totals(0, 0, 0, 0, 0)
    ensures a in total ==> total[a] == Due(q, a, items)
  {
    if a !in total {
      GroupsMiss(q, Period, items, period, a);
    }
    hide AccountSum;
  }

  /** The earnings of the fiscal years before the one of the report. */
  method PlInitialBalance(q: Query, ghost items: seq<Item>, groups: seq<Group>) returns (balance: int)
    requires Groups(q, PriorPl, items, groups)
    ensures balance == FilterSum(q, PriorPl, Balance, items)
  {
    balance := 0;
    ghost var sum := (a: AccountId) => AccountSum(q, PriorPl, Balance, a, items);
    for k := 0 to |groups|
      invariant balance == SumOver(Accounts(groups[..k]), sum)
    {
      AccountsSnoc(groups, k);
      var a := groups[k].account;
      SumOverRemove(Accounts(groups[..k + 1]), sum, a);
      assert Accounts(groups[..k + 1]) - {a} == Accounts(groups[..k]);
      balance := balance + groups[k].balance;
    }
    assert groups[..|groups|] == groups;
    GroupsAddUp(q, items, groups);
  }

  lemma GroupsAddUp(q: Query, items: seq<Item>, groups: seq<Group>)
    requires Groups(q, PriorPl, items, groups)
    ensures SumOver(Accounts(groups), a => AccountSum(q, PriorPl, Balance, a, items)) == FilterSum(q, PriorPl, Balance, items)
  {
    var sum := (a: AccountId) => AccountSum(q, PriorPl, Balance, a, items);
    var all := Accounts(groups) + set it | it in items :: it.account;
    forall a | a in all && a !in Accounts(groups) ensures sum(a) == 0 {
      GroupsMiss(q, PriorPl, items, groups, a);
    }
    SumOverSupport(Accounts(groups), all, sum);
    AccountsAddUp(q, PriorPl, Balance, all, items);
  }

  // ---------------------------------------------------------------- the totals in dates

  /** Sums by recursion are sums over the positions of the items. */
  lemma {:induction false} AccountSumOver(q: Query, f: Filter, c: Column, a: AccountId, items: seq<Item>, n: nat, amount: nat -> int)
    requires n <= |items|
    requires forall k: nat :: k < |items| ==> amount(k) == Amount(c, items[k])
    ensures AccountSum(q, f, c, a, items[n..])
         == SumOver((set k: nat | n <= k < |items| && Passes(q, f, items[k]) && items[k].account == a), amount)
    decreases |items| - n
  {
    hide Passes;
    var now := set k: nat | n <= k < |items| && Passes(q, f, items[k]) && items[k].account == a;
    if n < |items| {
      AccountSumOver(q, f, c, a, items, n + 1, amount);
      var rest := set k: nat | n + 1 <= k < |items| && Passes(q, f, items[k]) && items[k].account == a;
      assert items[n..][0] == items[n] && items[n..][1..] == items[n + 1..];
      if Passes(q, f, items[n]) && items[n].account == a {
        SumOverRemove(now, amount, n);
        assert now - {n} == rest;
      } else {
        assert now == rest;
      }
    } else {
      assert now == {};
    }
  }

  lemma {:induction false} FilterSumOver(q: Query, f: Filter, c: Column, items: seq<Item>, n: nat, amount: nat -> int)
    requires n <= |items|
    requires forall k: nat :: k < |items| ==> amount(k) == Amount(c, items[k])
    ensures FilterSum(q, f, c, items[n..]) == SumOver((set k: nat | n <= k < |items| && Passes(q, f, items[k])), amount)
    decreases |items| - n
  {
    hide Passes;
    var now := set k: nat | n <= k < |items| && Passes(q, f, items[k]);
    if n < |items| {
      FilterSumOver(q, f, c, items, n + 1, amount);
      var rest := set k: nat | n + 1 <= k < |items| && Passes(q, f, items[k]);
      assert items[n..][0] == items[n] && items[n..][1..] == items[n + 1..];
      if Passes(q, f, items[n]) {
        SumOverRemove(now, amount, n);
        assert now - {n} == rest;
      } else {
        assert now == rest;
      }
    } else {
      assert now == {};
    }
  }

  /** The positions of the items of an account in the period. */
  ghost function InPeriod(q: Query, a: AccountId, items: seq<Item>): set<nat> {
    set k: nat | k < |items| && items[k].account == a && q.common(items[k]) && !items[k].isDisplay
      && q.dateFrom <= items[k].date && items[k].date <= q.dateTo
  }

  /** The positions of the items that open an account: all earlier ones, or those of the fiscal year so far. */
  ghost function BeforePeriod(q: Query, a: AccountId, items: seq<Item>): set<nat> {
    set k: nat | k < |items| && items[k].account == a && q.common(items[k]) && items[k].date < q.dateFrom
      && (a in q.carried || q.fyStart <= items[k].date)
  }

  /** The positions of the items of earlier fiscal years on accounts that do not carry their balance. */
  ghost function EarlierYears(q: Query, items: seq<Item>): set<nat> {
    set k: nat | k < |items| && items[k].account !in q.carried && q.common(items[k]) && items[k].date < q.fyStart
  }

  /**
   * What the report shows of an account, in dates: the items of the period, and the
   * items it opens with; the unaffected-earnings account also opens with all
   * earlier years of the accounts that do not carry their balance.
   */
  lemma ExpectedInDates(q: Query, a: AccountId, items: seq<Item>)
    ensures var debit, credit, balance := (k: nat) => if k < |items| then items[k].debit else 0,
                                          (k: nat) => if k < |items| then items[k].credit else 0,
                                          (k: nat) => if k < |items| then items[k].balance else 0;
      var t := Expected(q, a, items);
      && t.debit == SumOver(InPeriod(q, a, items), debit)
      && t.credit == SumOver(InPeriod(q, a, items), credit)
      && t.balance == SumOver(InPeriod(q, a, items), balance)
      && t.initial == SumOver(BeforePeriod(q, a, items), balance)
                    + (if a == q.unaffected then SumOver(EarlierYears(q, items), balance) else 0)
      && t.ending == t.initial + t.balance
  {
    hide SumOver, AccountSum, FilterSum;
    var debit, credit, balance := (k: nat) => if k < |items| then items[k].debit else 0,
                                  (k: nat) => if k < |items| then items[k].credit else 0,
                                  (k: nat) => if k < |items| then items[k].balance else 0;
    assert items[0..] == items;
    AccountSumOver(q, Period, Debit, a, items, 0, debit);
    AccountSumOver(q, Period, Credit, a, items, 0, credit);
    AccountSumOver(q, Period, Balance, a, items, 0, balance);
    assert (set k: nat | 0 <= k < |items| && Passes(q, Period, items[k]) && items[k].account == a) == InPeriod(q, a, items);
    InitialInDates(q, a, items, balance);
    FilterSumOver(q, PriorPl, Balance, items, 0, balance);
    assert (set k: nat | 0 <= k < |items| && Passes(q, PriorPl, items[k])) == EarlierYears(q, items);
  }

  lemma InitialInDates(q: Query, a: AccountId, items: seq<Item>, balance: nat -> int)
    requires forall k: nat :: k < |items| ==> balance(k) == items[k].balance
    ensures Initial(q, a, items) == SumOver(BeforePeriod(q, a, items), balance)
  {
    hide SumOver, AccountSum;
    assert items[0..] == items;
    InitialKindsApart(q, a, items);
    if a in q.carried {
      AccountSumOver(q, InitialBs, Balance, a, items, 0, balance);
      assert (set k: nat | 0 <= k < |items| && Passes(q, InitialBs, items[k]) && items[k].account == a)
          == BeforePeriod(q, a, items);
    } else {
      AccountSumOver(q, InitialPl, Balance, a, items, 0, balance);
      assert (set k: nat | 0 <= k < |items| && Passes(q, InitialPl, items[k]) && items[k].account == a)
          == BeforePeriod(q, a, items);
    }
  }

  // ---------------------------------------------------------------- what the totals add up to

  function Hits(q: Query, it: Item): nat {
    (if Passes(q, InitialBs, it) then 1 else 0) + (if Passes(q, InitialPl, it) then 1 else 0)
    + (if Passes(q, Period, it) then 1 else 0) + (if Passes(q, PriorPl, it) then 1 else 0)
  }

  /** The items a report up to its last day should account for. */
  predicate UpToDate(q: Query, it: Item) {
    q.common(it) && it.date <= q.dateTo
  }

  /** Every real item that passes the common filters is counted once, or not at all after the last day. */
  ghost predicate Partition(q: Query) {
    forall it: Item :: !it.isDisplay && q.common(it) ==> Hits(q, it) == if it.date <= q.dateTo then 1 else 0
  }

  /** The four filters partition the items exactly when the dates of the report are in order. */
  lemma PartitionIffOrdered(q: Query, pl: AccountId, bs: AccountId)
    requires pl !in q.carried && bs in q.carried
    requires forall it :: q.common(it)
    ensures Partition(q) <==> q.fyStart <= q.dateFrom <= q.dateTo + 1
  {
    if q.fyStart > q.dateFrom {
      // an item of the last year before fyStart, on a profit-and-loss account
      var day := if q.dateFrom <= q.dateTo then q.dateFrom else q.dateTo + 1;
      assert Hits(q, Item(pl, 0, day, 0, 0, 0, false)) != if day <= q.dateTo then 1 else 0;
    } else if q.dateFrom > q.dateTo + 1 {
      assert Hits(q, Item(bs, 0, q.dateTo + 1, 0, 0, 0, false)) == 1;
    }
  }

  predicate Ordered(q: Query) {
    q.fyStart <= q.dateFrom <= q.dateTo + 1
  }

  function Grand(q: Query, items: seq<Item>): int {
    if items == [] then 0
    else
      var rest := Grand(q, items[1..]);
      if UpToDate(q, items[0]) then rest + items[0].balance else rest
  }

  lemma {:induction false} FiltersAddUp(q: Query, items: seq<Item>)
    requires Ordered(q) && forall it <- items :: it.isDisplay ==> it.balance == 0
    ensures FilterSum(q, InitialBs, Balance, items) + FilterSum(q, InitialPl, Balance, items)
          + FilterSum(q, Period, Balance, items) + FilterSum(q, PriorPl, Balance, items) == Grand(q, items)
    decreases |items|
  {
    if items != [] {
      assert items[0] in items;
      FiltersAddUp(q, items[1..]);
    }
  }

  /**
   * The ending balances of the trial balance add up to all items up to its last
   * day, whether or not accounts at zero are hidden.
   */
  lemma EndingsAddUp(q: Query, items: seq<Item>, total: map<AccountId, Totals>)
    requires Ordered(q) && forall it <- items :: it.isDisplay ==> it.balance == 0
    requires q.unaffected in total
    requires forall a :: a in total ==> total[a] == Expected(q, a, items)
    requires forall a :: a !in total ==> Due(q, a, items) == Totals(0, 0, 0, 0, 0)
    ensures SumOver(total.Keys, a => if a in total then total[a].ending else 0) == Grand(q, items)
  {
    var all := total.Keys + set it | it in items :: it.account;
    var ending := (a: AccountId) => if a in total then total[a].ending else 0;
    var bs := (a: AccountId) => AccountSum(q, InitialBs, Balance, a, items);
    var pl := (a: AccountId) => AccountSum(q, InitialPl, Balance, a, items);
    var period := (a: AccountId) => AccountSum(q, Period, Balance, a, items);
    var earnings := (a: AccountId) => if a == q.unaffected then FilterSum(q, PriorPl, Balance, items) else 0;
    var initial := (a: AccountId) => bs(a) + pl(a);
    var due := (a: AccountId) => initial(a) + period(a);
    hide AccountSum, FilterSum;
    SumOverSupport(total.Keys, all, ending);
    SumOverPlus(all, due, earnings, ending);
    SumOverPlus(all, initial, period, due);
    SumOverPlus(all, bs, pl, initial);
    SumOverSingle(all, earnings, q.unaffected);
    AccountsAddUp(q, InitialBs, Balance, all, items);
    AccountsAddUp(q, InitialPl, Balance, all, items);
    AccountsAddUp(q, Period, Balance, all, items);
    FiltersAddUp(q, items);
  }

  /** The total of one entry. */
  function EntrySum(e: EntryId, items: seq<Item>): int {
    if items == [] then 0
    else
      var rest := EntrySum(e, items[1..]);
      if items[0].entry == e then rest + items[0].balance else rest
  }

  /** The report takes the entry of an item whole or not at all. */
  ghost predicate WholeEntries(q: Query, items: seq<Item>) {
    forall it <- items, it' <- items :: it.entry == it'.entry ==> (UpToDate(q, it) <==> UpToDate(q, it'))
  }

  lemma {:induction false} EntriesAddUp(q: Query, taken: set<EntryId>, items: seq<Item>)
    requires forall it <- items :: UpToDate(q, it) <==> it.entry in taken
    ensures SumOver(taken, e => EntrySum(e, items)) == Grand(q, items)
    decreases |items|
  {
    if items == [] {
      SumOverEqual(taken, e => EntrySum(e, items), _ => 0);
      SumOverNone(taken);
    } else {
      var rest, it := items[1..], items[0];
      assert it in items;
      EntriesAddUp(q, taken, rest);
      var first := (e: EntryId) => if it.entry == e then it.balance else 0;
      SumOverSingle(taken, first, it.entry);
      SumOverPlus(taken, e => EntrySum(e, rest), first, e => EntrySum(e, items));
    }
  }

  /** When every entry balances and is taken whole, the items up to the last day add up to zero. */
  lemma BalancedEntriesGiveZero(q: Query, items: seq<Item>)
    requires WholeEntries(q, items) && forall it <- items :: EntrySum(it.entry, items) == 0
    ensures Grand(q, items) == 0
  {
    var taken := set it | it in items && UpToDate(q, it) :: it.entry;
    forall it | it in items ensures UpToDate(q, it) <==> it.entry in taken {
      if it.entry in taken {
        var it' :| it' in items && UpToDate(q, it') && it'.entry == it.entry;
      }
    }
    EntriesAddUp(q, taken, items);
    SumOverEqual(taken, e => EntrySum(e, items), _ => 0);
    SumOverNone(taken);
  }

  /** When every entry balances and is taken whole, the ending balances add up to zero. */
  lemma BalancedEndings(q: Query, items: seq<Item>, total: map<AccountId, Totals>)
    requires Ordered(q) && forall it <- items :: it.isDisplay ==> it.balance == 0
    requires q.unaffected in total
    requires forall a :: a in total ==> total[a] == Expected(q, a, items)
    requires forall a :: a !in total ==> Due(q, a, items) == Totals(0, 0, 0, 0, 0)
    requires WholeEntries(q, items) && forall it <- items :: EntrySum(it.entry, items) == 0
    ensures SumOver(total.Keys, a => if a in total then total[a].ending else 0) == 0
  {
    hide Expected, Due, SumOver, WholeEntries, EntrySum;
    EndingsAddUp(q, items, total);
    BalancedEntriesGiveZero(q, items);
  }
}
