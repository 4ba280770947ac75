/**
 * The general ledger: initial balances per account and partner, the move lines of
 * the period, running balances, and centralised lines.
 *
 * Amounts are integers in the smallest unit of the currency.  The results of
 * read_group and search_read are parameters.
 */
module GeneralLedger {

  import opened Options
  import opened FiniteSums

  type AccountId = int
  type PartnerId = int
  type JournalId = int

  datatype Bal = Bal(debit: int, credit: int, balance: int)

  const ZERO := Bal(0, 0, 0)

  function Plus(a: Bal, b: Bal): Bal {
    Bal(a.debit + b.debit, a.credit + b.credit, a.balance + b.balance)
  }

  datatype Line = Line(account: AccountId, partner: Option<PartnerId>, journal: JournalId, month: int, date: int, amounts: Bal)

  /** Lines without a partner are filed under key 0, which no partner has. */
  function PartnerKey(partner: Option<PartnerId>): PartnerId {
    if partner.Some? then partner.value else 0
  }

  // ---------------------------------------------------------------- totals of lines

  datatype Selection = Everything | OfAccount(a: AccountId) | OfPartner(a: AccountId, p: PartnerId)
                     | OfMonth(j: JournalId, m: int)

  predicate Selects(s: Selection, l: Line) {
    match s
    case Everything => true
    case OfAccount(a) => l.account == a
    case OfPartner(a, p) => l.account == a && PartnerKey(l.partner) == p
    case OfMonth(j, m) => l.journal == j && l.month == m
  }

  /** The total of the selected lines. */
  function Total(s: Selection, lines: seq<Line>): Bal {
    if lines == [] then ZERO
    else
      var rest := Total(s, lines[..|lines| - 1]);
      if Selects(s, lines[|lines| - 1]) then Plus(rest, lines[|lines| - 1].amounts) else rest
  }

  function Select(s: Selection, lines: seq<Line>): seq<Line> {
    if lines == [] then []
    else
      var rest := Select(s, lines[..|lines| - 1]);
      if Selects(s, lines[|lines| - 1]) then rest + [lines[|lines| - 1]] else rest
  }

  /** Selecting first does not change the total. */
  lemma {:induction false} TotalOfSelect(s: Selection, lines: seq<Line>)
    ensures Total(Everything, Select(s, lines)) == Total(s, lines)
  {
    if lines != [] {
      TotalOfSelect(s, lines[..|lines| - 1]);
      var rest := Select(s, lines[..|lines| - 1]);
      assert (rest + [lines[|lines| - 1]])[..|rest|] == rest;
    }
  }

  /** The sum of a figure over some lines. */
  ghost function LineSum(lines: seq<Line>, figure: Line -> int): int {
    if lines == [] then 0 else LineSum(lines[..|lines| - 1], figure) + figure(lines[|lines| - 1])
  }

  lemma {:induction false} TotalIsSum(s: Selection, lines: seq<Line>, debit: Line -> int, credit: Line -> int,
                                       balance: Line -> int)
    requires forall l :: debit(l) == (if Selects(s, l) then l.amounts.debit else 0)
    requires forall l :: credit(l) == (if Selects(s, l) then l.amounts.credit else 0)
    requires forall l :: balance(l) == (if Selects(s, l) then l.amounts.balance else 0)
    ensures var t := Total(s, lines);
      t.debit == LineSum(lines, debit) && t.credit == LineSum(lines, credit) && t.balance == LineSum(lines, balance)
    decreases |lines|
  {
    if lines != [] {
      hide Selects;
      TotalIsSum(s, lines[..|lines| - 1], debit, credit, balance);
    }
  }

  /** The totals of all lines and of an account add up each figure of their lines. */
  lemma AccountTotal(a: AccountId, lines: seq<Line>)
    ensures var all, t := Total(Everything, lines), Total(OfAccount(a), lines);
      && all.debit == LineSum(lines, (l: Line) => l.amounts.debit)
      && all.credit == LineSum(lines, (l: Line) => l.amounts.credit)
      && all.balance == LineSum(lines, (l: Line) => l.amounts.balance)
      && t.debit == LineSum(lines, (l: Line) => if l.account == a then l.amounts.debit else 0)
      && t.credit == LineSum(lines, (l: Line) => if l.account == a then l.amounts.credit else 0)
      && t.balance == LineSum(lines, (l: Line) => if l.account == a then l.amounts.balance else 0)
  {
    hide Total, LineSum;
    TotalIsSum(Everything, lines, (l: Line) => l.amounts.debit, (l: Line) => l.amounts.credit, (l: Line) => l.amounts.balance);
    TotalIsSum(OfAccount(a), lines, (l: Line) => if l.account == a then l.amounts.debit else 0,
               (l: Line) => if l.account == a then l.amounts.credit else 0,
               (l: Line) => if l.account == a then l.amounts.balance else 0);
  }

  /** A line belongs to a partner when it names it, and to partner 0 when it names none. */
  ghost predicate Belongs(l: Line, a: AccountId, p: PartnerId) {
    l.account == a && (l.partner == Some(p) || (l.partner.None? && p == 0))
  }

  /** The total of a partner of an account adds up each figure of its lines. */
  lemma PartnerTotal(a: AccountId, p: PartnerId, lines: seq<Line>)
    ensures var t := Total(OfPartner(a, p), lines);
      && t.debit == LineSum(lines, (l: Line) => if Belongs(l, a, p) then l.amounts.debit else 0)
      && t.credit == LineSum(lines, (l: Line) => if Belongs(l, a, p) then l.amounts.credit else 0)
      && t.balance == LineSum(lines, (l: Line) => if Belongs(l, a, p) then l.amounts.balance else 0)
  {
    hide Total, LineSum;
    TotalIsSum(OfPartner(a, p), lines, (l: Line) => if Belongs(l, a, p) then l.amounts.debit else 0,
               (l: Line) => if Belongs(l, a, p) then l.amounts.credit else 0,
               (l: Line) => if Belongs(l, a, p) then l.amounts.balance else 0);
  }

  lemma MonthTotal(j: JournalId, m: int, lines: seq<Line>)
    ensures var t := Total(OfMonth(j, m), lines);
      && t.debit == LineSum(lines, (l: Line) => if l.journal == j && l.month == m then l.amounts.debit else 0)
      && t.credit == LineSum(lines, (l: Line) => if l.journal == j && l.month == m then l.amounts.credit else 0)
  {
    hide Total, LineSum;
    TotalIsSum(OfMonth(j, m), lines, (l: Line) => if l.journal == j && l.month == m then l.amounts.debit else 0,
               (l: Line) => if l.journal == j && l.month == m then l.amounts.credit else 0,
               (l: Line) => if l.journal == j && l.month == m then l.amounts.balance else 0);
  }

  lemma {:induction false} NoneSelected(s: Selection, lines: seq<Line>)
    requires forall l <- lines :: !Selects(s, l)
    ensures Total(s, lines) == ZERO && Select(s, lines) == []
  {
    if lines != [] { NoneSelected(s, lines[..|lines| - 1]); }
  }

  // ---------------------------------------------------------------- the ledger

  datatype PartnerData = PartnerData(init: Bal, fin: Bal, lines: seq<Line>)

  /** An account is split by partner as soon as it has an entry for one. */
  datatype AccountData = AccountData(init: Bal, fin: Bal, partners: map<PartnerId, PartnerData>, lines: seq<Line>)

  type Ledger = map<AccountId, AccountData>

  const NEW_ACCOUNT := AccountData(ZERO, ZERO, map[], [])
  const NEW_PARTNER := PartnerData(ZERO, ZERO, [])

  /** An account, split by partner or not, after one of its lines. */
  function Credited(account: AccountData, l: Line, split: bool): AccountData {
    var fin := Plus(account.fin, l.amounts);
    if split then
      var p := PartnerKey(l.partner);
      var partner := if p in account.partners then account.partners[p] else NEW_PARTNER;
      var partner' := partner.(fin := Plus(partner.fin, l.amounts), lines := partner.lines + [l]);
      account.(fin := fin, partners := account.partners[p := partner'])
    else
      account.(fin := fin, lines := account.lines + [l])
  }

  /** Files one move line of the period. */
  function File(ledger: Ledger, byPartner: set<AccountId>, l: Line): Ledger {
    ledger[l.account := Credited(AccountAt(ledger, l.account), l, l.account in byPartner)]
  }

  /** What a partner's entry becomes after some lines are filed. */
  ghost predicate PartnerFiled(before: PartnerData, after: PartnerData, a: AccountId, p: PartnerId, lines: seq<Line>) {
    && after.init == before.init
    && after.fin == Plus(before.fin, Total(OfPartner(a, p), lines))
    && after.lines == before.lines + Select(OfPartner(a, p), lines)
  }

  /** The partner keys of the lines of an account. */
  function Keys(a: AccountId, lines: seq<Line>): set<PartnerId> {
    set l | l in lines && l.account == a :: PartnerKey(l.partner)
  }

  function PartnerAt(account: AccountData, p: PartnerId): PartnerData {
    if p in account.partners then account.partners[p] else NEW_PARTNER
  }

  /** What an account becomes after some lines are filed. */
  ghost predicate AccountFiled(before: AccountData, after: AccountData, a: AccountId, byPartner: bool, lines: seq<Line>) {
    && after.init == before.init
    && after.fin == Plus(before.fin, Total(OfAccount(a), lines))
    && (if byPartner then
          && after.lines == before.lines
          && after.partners.Keys == before.partners.Keys + Keys(a, lines)
          && (forall p :: p in after.partners ==>
                PartnerFiled(PartnerAt(before, p), after.partners[p], a, p, lines))
        else
          && after.partners == before.partners
          && after.lines == before.lines + Select(OfAccount(a), lines))
  }

  function AccountAt(ledger: Ledger, a: AccountId): AccountData {
    if a in ledger then ledger[a] else NEW_ACCOUNT
  }

  ghost predicate Filed(before: Ledger, after: Ledger, byPartner: set<AccountId>, lines: seq<Line>) {
    && after.Keys == before.Keys + (set l | l in lines :: l.account)
    && forall a :: a in after ==> AccountFiled(AccountAt(before, a), after[a], a, a in byPartner, lines)
  }

  lemma FiledNothing(ledger: Ledger, byPartner: set<AccountId>)
    ensures Filed(ledger, ledger, byPartner, [])
  {
  }

  lemma KeysSnoc(a: AccountId, lines: seq<Line>, l: Line)
    ensures Keys(a, lines + [l]) == Keys(a, lines) + if l.account == a then {PartnerKey(l.partner)} else {}
    ensures Total(OfAccount(a), lines + [l])
         == if l.account == a then Plus(Total(OfAccount(a), lines), l.amounts) else Total(OfAccount(a), lines)
    ensures Select(OfAccount(a), lines + [l])
         == if l.account == a then Select(OfAccount(a), lines) + [l] else Select(OfAccount(a), lines)
  {
    assert (lines + [l])[..|lines|] == lines;
  }

  lemma PartnerSnoc(before: PartnerData, partner: PartnerData, a: AccountId, p: PartnerId, lines: seq<Line>, l: Line)
    requires PartnerFiled(before, partner, a, p, lines)
    ensures PartnerFiled(before,
                         if Selects(OfPartner(a, p), l)
                         then partner.(fin := Plus(partner.fin, l.amounts), lines := partner.lines + [l]) else partner,
                         a, p, lines + [l])
  {
    assert (lines + [l])[..|lines|] == lines;
  }

  /** The account a line goes to, after one more line. */
  lemma FileAccount(before: AccountData, account: AccountData, l: Line, split: bool, lines: seq<Line>)
    requires AccountFiled(before, account, l.account, split, lines)
    ensures AccountFiled(before, Credited(account, l, split), l.account, split, lines + [l])
  {
    hide Total, Select;
    var after, a := Credited(account, l, split), l.account;
    KeysSnoc(a, lines, l);
    if split {
      forall p | p in after.partners ensures PartnerFiled(PartnerAt(before, p), after.partners[p], a, p, lines + [l]) {
        if p !in account.partners { UnseenPartner(before, account, a, p, lines); }
        PartnerSnoc(PartnerAt(before, p), PartnerAt(account, p), a, p, lines, l);
        hide PartnerFiled;
      }
    }
    hide PartnerFiled, Keys;
  }

  lemma UnseenPartner(before: AccountData, account: AccountData, a: AccountId, p: PartnerId, lines: seq<Line>)
    requires AccountFiled(before, account, a, true, lines) && p !in account.partners
    ensures PartnerFiled(PartnerAt(before, p), NEW_PARTNER, a, p, lines)
  {
    assert p !in Keys(a, lines);
    NoneSelected(OfPartner(a, p), lines);
  }

  lemma OtherAccount(before: AccountData, account: AccountData, a: AccountId, l: Line, split: bool, lines: seq<Line>)
    requires AccountFiled(before, account, a, split, lines) && l.account != a
    ensures AccountFiled(before, account, a, split, lines + [l])
  {
    KeysSnoc(a, lines, l);
    if split {
      forall p | p in account.partners ensures PartnerFiled(PartnerAt(before, p), account.partners[p], a, p, lines + [l]) {
        PartnerSnoc(PartnerAt(before, p), account.partners[p], a, p, lines, l);
      }
    }
    hide Total, Select, PartnerFiled, Keys;
  }

  lemma FileStep(before: Ledger, ledger: Ledger, byPartner: set<AccountId>, lines: seq<Line>, k: nat)
    requires k < |lines| && Filed(before, ledger, byPartner, lines[..k])
    ensures Filed(before, File(ledger, byPartner, lines[k]), byPartner, lines[..k + 1])
  {
    hide AccountFiled, Credited;
    var l, done, ledger' := lines[k], lines[..k], File(ledger, byPartner, lines[k]);
    assert lines[..k + 1] == done + [l];
    assert (set x | x in done + [l] :: x.account) == (set x | x in done :: x.account) + {l.account};
    forall a | a in ledger'
      ensures AccountFiled(AccountAt(before, a), ledger'[a], a, a in byPartner, done + [l]) {
      if a != l.account {
        OtherAccount(AccountAt(before, a), ledger[a], a, l, a in byPartner, done);
      } else {
        if a !in ledger {
          NotFiledYet(before, ledger, byPartner, done, a);
        }
        FileAccount(AccountAt(before, a), AccountAt(ledger, a), l, a in byPartner, done);
      }
    }
  }

  lemma NotFiledYet(before: Ledger, ledger: Ledger, byPartner: set<AccountId>, lines: seq<Line>, a: AccountId)
    requires Filed(before, ledger, byPartner, lines) && a !in ledger
    ensures AccountFiled(AccountAt(before, a), NEW_ACCOUNT, a, a in byPartner, lines)
  {
    forall l | l in lines ensures l.account != a {
      assert l.account in (set x | x in lines :: x.account);
    }
    NoneSelected(OfAccount(a), lines);
  }

  method PeriodMlData(ledger: Ledger, byPartner: set<AccountId>, lines: seq<Line>) returns (ledger': Ledger)
    ensures Filed(ledger, ledger', byPartner, lines)
  {
    hide Filed;
    ledger' := ledger;
    FiledNothing(ledger, byPartner);
    assert lines[..0] == [];
    for k := 0 to |lines|
      invariant Filed(ledger, ledger', byPartner, lines[..k])
    {
      FileStep(ledger, ledger', byPartner, lines, k);
      ledger' := File(ledger', byPartner, lines[k]);
    }
    assert lines[..|lines|] == lines;
  }

  // ---------------------------------------------------------------- initial balances

  datatype AccountGroup = AccountGroup(account: AccountId, amounts: Bal)
  datatype PartnerGroup = PartnerGroup(account: AccountId, partner: Option<PartnerId>, amounts: Bal)

  function AccountsOf(groups: seq<AccountGroup>): set<AccountId> {
    set g | g in groups :: g.account
  }

  /** Lines grouped by account. */
  ghost predicate GroupedByAccount(lines: seq<Line>, groups: seq<AccountGroup>) {
    && (forall i, j :: 0 <= i < j < |groups| ==> groups[i].account != groups[j].account)
    && AccountsOf(groups) == (set l | l in lines :: l.account)
    && forall g <- groups :: g.amounts == Total(OfAccount(g.account), lines)
  }

  /** The lines of some accounts grouped by account and partner. */
  ghost predicate GroupedByPartner(lines: seq<Line>, accounts: set<AccountId>, groups: seq<PartnerGroup>) {
    && (forall i, j :: 0 <= i < j < |groups| ==> groups[i].account != groups[j].account || groups[i].partner != groups[j].partner)
    && (forall g <- groups :: g.account in accounts && exists l <- lines :: l.account == g.account && l.partner == g.partner)
    && (forall l <- lines :: l.account in accounts ==> exists g <- groups :: g.account == l.account && g.partner == l.partner)
    && (forall g <- groups :: g.amounts == Total(OfPartner(g.account, PartnerKey(g.partner)), lines))
  }

  /** An account before the period: nothing filed, one entry per partner with an earlier line. */
  ghost predicate Opened(account: AccountData, a: AccountId, split: bool, bs: seq<Line>, init: Bal) {
    && account.init == account.fin == init
    && account.lines == []
    && (forall p :: p in account.partners <==> split && exists l <- bs :: l.account == a && PartnerKey(l.partner) == p)
    && (forall p :: p in account.partners ==>
          account.partners[p] == PartnerData(Total(OfPartner(a, p), bs), Total(OfPartner(a, p), bs), []))
  }

  /** The initial balance of an account, before the earnings of earlier years. */
  function InitialOf(a: AccountId, bs: seq<Line>, pl: seq<Line>): Bal {
    Plus(Total(OfAccount(a), bs), Total(OfAccount(a), pl))
  }

  /** The ledger while partner groups are being filed. */
  ghost predicate Opening(ledger: Ledger, bs: seq<Line>, pl: seq<Line>, groups: seq<PartnerGroup>) {
    && ledger.Keys == (set l | l in bs + pl :: l.account)
    && (forall a :: a in ledger ==>
          && ledger[a].init == ledger[a].fin == InitialOf(a, bs, pl)
          && ledger[a].lines == []
          && (forall p :: p in ledger[a].partners <==> exists g <- groups :: g.account == a && PartnerKey(g.partner) == p)
          && (forall p :: p in ledger[a].partners ==>
                ledger[a].partners[p] == PartnerData(Total(OfPartner(a, p), bs), Total(OfPartner(a, p), bs), [])))
  }

  method OpenAccounts(ghost bs: seq<Line>, ghost pl: seq<Line>, groups: seq<AccountGroup>) returns (ledger: Ledger)
    requires forall i, j :: 0 <= i < j < |groups| ==> groups[i].account != groups[j].account
    requires AccountsOf(groups) == (set l | l in bs + pl :: l.account)
    requires forall g <- groups :: g.amounts == InitialOf(g.account, bs, pl)
    ensures Opening(ledger, bs, pl, [])
  {
    hide Total, InitialOf;
    ledger := map[];
    for k := 0 to |groups|
      invariant ledger.Keys == AccountsOf(groups[..k])
      invariant forall a :: a in ledger ==>
        ledger[a] == AccountData(InitialOf(a, bs, pl), InitialOf(a, bs, pl), map[], [])
    {
      var gl := groups[k];
      assert gl in groups && groups[..k + 1] == groups[..k] + [gl];
      ledger := ledger[gl.account := AccountData(gl.amounts, gl.amounts, map[], [])];
    }
    assert groups[..|groups|] == groups;
  }

  /** Grouping the two kinds of initial lines, whose accounts differ, gives every account once. */
  lemma GroupsMerge(bs: seq<Line>, pl: seq<Line>, bsGroups: seq<AccountGroup>, plGroups: seq<AccountGroup>)
    requires GroupedByAccount(bs, bsGroups) && GroupedByAccount(pl, plGroups)
    requires forall l <- bs, m <- pl :: l.account != m.account
    ensures var groups := bsGroups + plGroups;
      && (forall i, j :: 0 <= i < j < |groups| ==> groups[i].account != groups[j].account)
      && AccountsOf(groups) == (set l | l in bs + pl :: l.account)
      && (forall g <- groups :: g.amounts == InitialOf(g.account, bs, pl))
  {
    var groups := bsGroups + plGroups;
    assert AccountsOf(groups) == AccountsOf(bsGroups) + AccountsOf(plGroups);
    assert (set l | l in bs + pl :: l.account) == (set l | l in bs :: l.account) + (set l | l in pl :: l.account);
    assert AccountsOf(bsGroups) !! AccountsOf(plGroups);
    forall i, j | 0 <= i < |bsGroups| && 0 <= j < |plGroups| ensures bsGroups[i].account != plGroups[j].account {
      assert bsGroups[i].account in AccountsOf(bsGroups) && plGroups[j].account in AccountsOf(plGroups);
    }
    forall g | g in groups ensures g.amounts == InitialOf(g.account, bs, pl) {
      if g in bsGroups {
        assert g.account in AccountsOf(bsGroups);
        NoneSelected(OfAccount(g.account), pl);
      } else {
        assert g.account in AccountsOf(plGroups);
        NoneSelected(OfAccount(g.account), bs);
      }
    }
  }

  method OpenPartners(ghost bs: seq<Line>, ghost pl: seq<Line>, accounts: Ledger, groups: seq<PartnerGroup>)
    returns (ledger: Ledger)
    requires Opening(accounts, bs, pl, [])
    requires forall g <- groups :: g.account in accounts && g.amounts == Total(OfPartner(g.account, PartnerKey(g.partner)), bs)
    ensures Opening(ledger, bs, pl, groups)
  {
    ledger := accounts;
    assert groups[..0] == [];
    for k := 0 to |groups|
      invariant Opening(ledger, bs, pl, groups[..k])
    {
      var gl := groups[k];
      assert gl in groups;
      assert ledger.Keys == accounts.Keys;
      var a, p := gl.account, PartnerKey(gl.partner);
      ghost var before := ledger;
      var account := ledger[a];
      ledger := ledger[a := account.(partners := account.partners[p := PartnerData(gl.amounts, gl.amounts, [])])];
      OpeningStep(before, bs, pl, groups, k, ledger);
    }
    assert groups[..|groups|] == groups;
  }

  lemma OpeningStep(before: Ledger, bs: seq<Line>, pl: seq<Line>, groups: seq<PartnerGroup>, k: nat, ledger: Ledger)
    requires k < |groups| && Opening(before, bs, pl, groups[..k])
    requires groups[k].account in before
    requires groups[k].amounts == Total(OfPartner(groups[k].account, PartnerKey(groups[k].partner)), bs)
    requires var gl := groups[k]; var account := before[gl.account];
             ledger == before[gl.account := account.(partners :=
                         account.partners[PartnerKey(gl.partner) := PartnerData(gl.amounts, gl.amounts, [])])]
    ensures Opening(ledger, bs, pl, groups[..k + 1])
  {
    hide Total, InitialOf;
    var gl, done := groups[k], groups[..k];
    assert groups[..k + 1] == done + [gl];
    forall a, p | a in ledger
      ensures p in ledger[a].partners <==> exists g <- done + [gl] :: g.account == a && PartnerKey(g.partner) == p {
      assert p in before[a].partners <==> exists g <- done :: g.account == a && PartnerKey(g.partner) == p;
      if p in before[a].partners {
        var g :| g in done && g.account == a && PartnerKey(g.partner) == p;
        assert g in done + [gl];
      }
      if a == gl.account && p == PartnerKey(gl.partner) { assert gl in done + [gl]; }
    }
  }

  method InitialBalanceData(ghost bs: seq<Line>, ghost pl: seq<Line>, ghost prior: seq<Line>, ghost byPartner: set<AccountId>,
                            bsGroups: seq<AccountGroup>, plGroups: seq<AccountGroup>, partnerGroups: seq<PartnerGroup>,
                            earnings: Bal, unaffected: AccountId)
    returns (ledger: Ledger)
    requires GroupedByAccount(bs, bsGroups) && GroupedByAccount(pl, plGroups)
    requires GroupedByPartner(bs, byPartner, partnerGroups)
    requires forall l <- bs, m <- pl :: l.account != m.account
    requires earnings == Total(Everything, prior)
    ensures ledger.Keys == (set l | l in bs + pl :: l.account) + {unaffected}
    ensures forall a :: a in ledger ==>
      Opened(ledger[a], a, a in byPartner, bs,
             if a == unaffected then Plus(InitialOf(a, bs, pl), Total(Everything, prior)) else InitialOf(a, bs, pl))
  {
    hide Total, InitialOf, Opening, GroupedByAccount, GroupedByPartner, Opened;
    GroupsMerge(bs, pl, bsGroups, plGroups);
    ledger := OpenAccounts(bs, pl, bsGroups + plGroups);
    PartnerGroupsKnown(bs, pl, byPartner, partnerGroups, ledger);
    ledger := OpenPartners(bs, pl, ledger, partnerGroups);
    OpeningDone(ledger, bs, pl, byPartner, partnerGroups);
    if unaffected !in ledger {
      AbsentAccount(bs, pl, unaffected, unaffected in byPartner);
      ledger := ledger[unaffected := NEW_ACCOUNT];
    }
    var account := ledger[unaffected];
    EarningsAdded(account, unaffected, unaffected in byPartner, bs, InitialOf(unaffected, bs, pl), earnings);
    ledger := ledger[unaffected := account.(init := Plus(account.init, earnings), fin := Plus(account.fin, earnings))];
  }

  lemma PartnerGroupsKnown(bs: seq<Line>, pl: seq<Line>, byPartner: set<AccountId>, groups: seq<PartnerGroup>, ledger: Ledger)
    requires GroupedByPartner(bs, byPartner, groups) && Opening(ledger, bs, pl, [])
    ensures forall g <- groups :: g.account in ledger && g.amounts == Total(OfPartner(g.account, PartnerKey(g.partner)), bs)
  {
    hide Total, InitialOf;
    forall g | g in groups ensures g.account in ledger {
      var l :| l in bs && l.account == g.account;
      assert l in bs + pl;
    }
  }

  lemma EarningsAdded(account: AccountData, a: AccountId, split: bool, bs: seq<Line>, init: Bal, earnings: Bal)
    requires Opened(account, a, split, bs, init)
    ensures Opened(account.(init := Plus(account.init, earnings), fin := Plus(account.fin, earnings)), a, split, bs,
                   Plus(init, earnings))
  {
  }

  lemma OpeningDone(ledger: Ledger, bs: seq<Line>, pl: seq<Line>, byPartner: set<AccountId>, groups: seq<PartnerGroup>)
    requires Opening(ledger, bs, pl, groups) && GroupedByPartner(bs, byPartner, groups)
    ensures ledger.Keys == (set l | l in bs + pl :: l.account)
    ensures forall a :: a in ledger ==> Opened(ledger[a], a, a in byPartner, bs, InitialOf(a, bs, pl))
  {
    hide Total, InitialOf;
    forall a, p | a in ledger
      ensures p in ledger[a].partners <==> a in byPartner && exists l <- bs :: l.account == a && PartnerKey(l.partner) == p {
      assert p in ledger[a].partners <==> exists g <- groups :: g.account == a && PartnerKey(g.partner) == p;
    }
  }

  lemma AbsentAccount(bs: seq<Line>, pl: seq<Line>, a: AccountId, split: bool)
    requires a !in (set l | l in bs + pl :: l.account)
    ensures Opened(NEW_ACCOUNT, a, split, bs, InitialOf(a, bs, pl))
  {
    forall l | l in bs || l in pl ensures l.account != a {
      assert l in bs + pl;
    }
    NoneSelected(OfAccount(a), bs);
    NoneSelected(OfAccount(a), pl);
  }

  // ---------------------------------------------------------------- accounts and partners

  datatype Column = Debit | Credit | Balance

  function Pick(c: Column, b: Bal): int {
    match c
    case Debit => b.debit
    case Credit => b.credit
    case Balance => b.balance
  }

  /** The totals per partner add up to the total of the account. */
  lemma {:induction false} PartnersAddUp(c: Column, a: AccountId, partners: set<PartnerId>, lines: seq<Line>)
    requires forall l <- lines :: l.account == a ==> PartnerKey(l.partner) in partners
    ensures SumOver(partners, p => Pick(c, Total(OfPartner(a, p), lines))) == Pick(c, Total(OfAccount(a), lines))
    decreases |lines|
  {
    var all := (p: PartnerId) => Pick(c, Total(OfPartner(a, p), lines));
    if lines == [] {
      SumOverEqual(partners, all, _ => 0);
      SumOverNone(partners);
    } else {
      var rest, l := lines[..|lines| - 1], lines[|lines| - 1];
      PartnersAddUp(c, a, partners, rest);
      var last := (p: PartnerId) => if Selects(OfPartner(a, p), l) then Pick(c, l.amounts) else 0;
      SumOverSingle(partners, last, PartnerKey(l.partner));
      SumOverPlus(partners, p => Pick(c, Total(OfPartner(a, p), rest)), last, all);
    }
  }

  function FinalOf(c: Column, partners: map<PartnerId, PartnerData>, p: PartnerId): int {
    if p in partners then Pick(c, partners[p].fin) else 0
  }

  /**
   * The final balance of an account split by partner is the sum over its
   * partners, plus exactly the part of its initial balance that was not grouped
   * by partner: profit-and-loss lines and the earnings of earlier years.
   */
  lemma AccountIsItsPartners(c: Column, before: AccountData, after: AccountData, a: AccountId, bs: seq<Line>, init: Bal,
                             lines: seq<Line>)
    requires Opened(before, a, true, bs, init) && AccountFiled(before, after, a, true, lines)
    ensures Pick(c, after.fin) == SumOver(after.partners.Keys, p => FinalOf(c, after.partners, p))
                                + Pick(c, init) - Pick(c, Total(OfAccount(a), bs))
  {
    var keys := after.partners.Keys;
    var early := (p: PartnerId) => Pick(c, Total(OfPartner(a, p), bs));
    var late := (p: PartnerId) => Pick(c, Total(OfPartner(a, p), lines));
    forall p | p in keys ensures FinalOf(c, after.partners, p) == early(p) + late(p) {
      assert PartnerFiled(PartnerAt(before, p), after.partners[p], a, p, lines);
      if p !in before.partners {
        NoneSelected(OfPartner(a, p), bs);
      }
    }
    PartnersAddUp(c, a, keys, bs);
    PartnersAddUp(c, a, keys, lines);
    SumOverPlus(keys, early, late, p => FinalOf(c, after.partners, p));
  }

  /** The same, for each of the three figures. */
  lemma SplitFinal(before: AccountData, after: AccountData, a: AccountId, bs: seq<Line>, init: Bal, lines: seq<Line>)
    requires Opened(before, a, true, bs, init) && AccountFiled(before, after, a, true, lines)
    ensures
      && after.fin.debit == SumOver(after.partners.Keys, p => if p in after.partners then after.partners[p].fin.debit else 0)
                         + init.debit - Total(OfAccount(a), bs).debit
      && after.fin.credit == SumOver(after.partners.Keys, p => if p in after.partners then after.partners[p].fin.credit else 0)
                         + init.credit - Total(OfAccount(a), bs).credit
      && after.fin.balance == SumOver(after.partners.Keys, p => if p in after.partners then after.partners[p].fin.balance else 0)
                         + init.balance - Total(OfAccount(a), bs).balance
  {
    hide SumOver, Total, Opened, AccountFiled;
    AccountIsItsPartners(Debit, before, after, a, bs, init, lines);
    SumOverEqual(after.partners.Keys, p => FinalOf(Debit, after.partners, p),
                 p => if p in after.partners then after.partners[p].fin.debit else 0);
    AccountIsItsPartners(Credit, before, after, a, bs, init, lines);
    SumOverEqual(after.partners.Keys, p => FinalOf(Credit, after.partners, p),
                 p => if p in after.partners then after.partners[p].fin.credit else 0);
    AccountIsItsPartners(Balance, before, after, a, bs, init, lines);
    SumOverEqual(after.partners.Keys, p => FinalOf(Balance, after.partners, p),
                 p => if p in after.partners then after.partners[p].fin.balance else 0);
  }

  // ---------------------------------------------------------------- running balances

  /** Each balance becomes the running balance from a starting one. */
  function Running(lines: seq<Line>, start: int): (run: seq<Line>)
    ensures |run| == |lines|
  {
    if lines == [] then []
    else
      var l := lines[0];
      var balance := l.amounts.balance + start;
      [l.(amounts := l.amounts.(balance := balance))] + Running(lines[1..], balance)
  }

  /** Each listed balance is the starting one plus all balances up to its line, and nothing else of the line changes. */
  lemma {:induction false} RunningAt(lines: seq<Line>, start: int, k: nat)
    requires k < |lines|
    ensures Running(lines, start)[k]
         == lines[k].(amounts := lines[k].amounts.(balance := start + Total(Everything, lines[..k + 1]).balance))
    decreases |lines|
  {
    var balance := lines[0].amounts.balance + start;
    TotalFront(lines[..k + 1]);
    if k > 0 {
      RunningAt(lines[1..], balance, k - 1);
      assert lines[..k + 1][1..] == lines[1..][..k];
    } else {
      assert lines[..1][1..] == [];
    }
  }

  method RecalculateCumulBalance(lines: array<Line>, start: int)
    modifies lines
    ensures lines[..] == Running(old(lines[..]), start)
  {
    ghost var was := lines[..];
    var last := start;
    for i := 0 to lines.Length
      invariant lines[i..] == was[i..]
      invariant lines[..i] + Running(was[i..], last) == Running(was, start)
    {
      assert was[i..] == [lines[i]] + was[i + 1..];
      var balance := lines[i].amounts.balance + last;
      ghost var done := lines[..i];
      lines[i] := lines[i].(amounts := lines[i].amounts.(balance := balance));
      last := lines[i].amounts.balance;
      assert lines[..i + 1] == done + [lines[i]];
    }
    assert lines[..] == lines[..lines.Length];
  }

  /** The last running balance is the start plus all the balances. */
  lemma {:induction false} LastRunning(lines: seq<Line>, start: int)
    requires lines != []
    ensures Running(lines, start)[|lines| - 1].amounts.balance == start + Total(Everything, lines).balance
    decreases |lines|
  {
    var balance := lines[0].amounts.balance + start;
    if |lines| > 1 {
      LastRunning(lines[1..], balance);
      TotalFront(lines);
    }
  }

  lemma {:induction false} TotalFront(lines: seq<Line>)
    requires lines != []
    ensures Total(Everything, lines) == Plus(lines[0].amounts, Total(Everything, lines[1..]))
    decreases |lines|
  {
    if |lines| > 1 {
      var front := lines[..|lines| - 1];
      TotalFront(front);
      assert front[1..] == lines[1..][..|lines| - 2];
    }
  }

  lemma MultisetWithout<T>(s: seq<T>, k: nat)
    requires k < |s|
    ensures multiset(s[..k] + s[k + 1..]) == multiset(s) - multiset{s[k]}
  {
    assert s == s[..k] + [s[k]] + s[k + 1..];
  }

  /** The place of the first line in a permutation, and what is left without it. */
  lemma TakeFirst<T>(s: seq<T>, permuted: seq<T>) returns (k: nat)
    requires s != [] && multiset(s) == multiset(permuted)
    ensures k < |permuted| && permuted[k] == s[0]
    ensures multiset(s[1..]) == multiset(permuted[..k] + permuted[k + 1..])
  {
    k := PlaceOf(permuted, s);
    MultisetWithout(permuted, k);
    MultisetWithout(s, 0);
    assert s[..0] + s[1..] == s[1..];
  }

  lemma PlaceOf<T>(permuted: seq<T>, s: seq<T>) returns (k: nat)
    requires s != [] && multiset(s) == multiset(permuted)
    ensures k < |permuted| && permuted[k] == s[0]
  {
    assert s[0] in multiset(s);
    k :| 0 <= k < |permuted| && permuted[k] == s[0];
  }

  /** Totals do not depend on the order of the lines. */
  lemma {:induction false} TotalOfPermutation(lines: seq<Line>, sorted: seq<Line>)
    requires multiset(lines) == multiset(sorted)
    ensures Total(Everything, lines) == Total(Everything, sorted)
    decreases |lines|
  {
    if lines == [] {
      assert |multiset(sorted)| == 0;
    } else {
      hide Total;
      var k := TakeFirst(lines, sorted);
      TotalOfPermutation(lines[1..], sorted[..k] + sorted[k + 1..]);
      TotalFront(lines);
      TotalWithout(sorted, k);
    }
  }

  lemma {:induction false} TotalWithout(lines: seq<Line>, k: nat)
    requires k < |lines|
    ensures Total(Everything, lines) == Plus(lines[k].amounts, Total(Everything, lines[..k] + lines[k + 1..]))
    decreases |lines|
  {
    var without := lines[..k] + lines[k + 1..];
    if k == 0 {
      TotalFront(lines);
      assert without == lines[1..];
    } else {
      TotalFront(lines);
      TotalWithout(lines[1..], k - 1);
      TotalFront(without);
      assert lines[1..][..k - 1] + lines[1..][k..] == without[1..];
    }
  }

  // ---------------------------------------------------------------- the accounts as they are listed

  predicate Dated(lines: seq<Line>) {
    forall i, j :: 0 <= i < j < |lines| ==> lines[i].date <= lines[j].date
  }

  /** A line goes after those of the same date or an earlier one. */
  function InsertByDate(sorted: seq<Line>, l: Line): (r: seq<Line>)
    requires Dated(sorted)
    ensures multiset(r) == multiset(sorted) + multiset{l}
    ensures Dated(r) && |r| > 0 && r[|r| - 1].date >= l.date
    ensures sorted != [] ==> r[|r| - 1].date >= sorted[|sorted| - 1].date
    ensures sorted != [] && sorted[|sorted| - 1].date >= l.date ==> r[|r| - 1].date == sorted[|sorted| - 1].date
  {
    if sorted == [] || sorted[|sorted| - 1].date <= l.date then sorted + [l]
    else
      assert sorted == sorted[..|sorted| - 1] + [sorted[|sorted| - 1]];
      InsertByDate(sorted[..|sorted| - 1], l) + [sorted[|sorted| - 1]]
  }

  /** The lines by date, in the given order on each date. */
  function SortByDate(lines: seq<Line>): (sorted: seq<Line>)
    ensures multiset(sorted) == multiset(lines) && Dated(sorted)
  {
    if lines == [] then []
    else
      assert lines == lines[..|lines| - 1] + [lines[|lines| - 1]];
      InsertByDate(SortByDate(lines[..|lines| - 1]), lines[|lines| - 1])
  }

  /** The lines of one date, in order. */
  ghost function OnDate(lines: seq<Line>, date: int): seq<Line> {
    if lines == [] then []
    else OnDate(lines[..|lines| - 1], date) + if lines[|lines| - 1].date == date then [lines[|lines| - 1]] else []
  }

  lemma OnDateSnoc(lines: seq<Line>, l: Line, date: int)
    ensures OnDate(lines + [l], date) == OnDate(lines, date) + if l.date == date then [l] else []
  {
    assert (lines + [l])[..|lines|] == lines;
  }

  lemma {:induction false} InsertKeepsOrder(sorted: seq<Line>, l: Line, date: int)
    requires Dated(sorted)
    ensures OnDate(InsertByDate(sorted, l), date) == OnDate(sorted, date) + if l.date == date then [l] else []
    decreases |sorted|
  {
    hide OnDate;
    if sorted == [] || sorted[|sorted| - 1].date <= l.date {
      OnDateSnoc(sorted, l, date);
    } else {
      var front, last := sorted[..|sorted| - 1], sorted[|sorted| - 1];
      assert sorted == front + [last];
      InsertKeepsOrder(front, l, date);
      OnDateSnoc(front, last, date);
      OnDateSnoc(InsertByDate(front, l), last, date);
    }
  }

  /** Lines of the same date stay in the order they came in. */
  lemma {:induction false} SortIsStable(lines: seq<Line>, date: int)
    ensures OnDate(SortByDate(lines), date) == OnDate(lines, date)
    decreases |lines|
  {
    if lines != [] {
      var front := lines[..|lines| - 1];
      SortIsStable(front, date);
      InsertKeepsOrder(SortByDate(front), lines[|lines| - 1], date);
    }
  }

  datatype ShownPartner = ShownPartner(id: PartnerId, init: Bal, fin: Bal, lines: seq<Line>)

  datatype Shown = Shown(init: Bal, fin: Bal, split: bool, lines: seq<Line>, partners: seq<ShownPartner>)

  /** The keys of the partners, each once: the order of the dictionary. */
  ghost predicate Lists<T(!new)>(order: seq<T>, keys: set<T>) {
    && (forall i, j :: 0 <= i < j < |order| ==> order[i] != order[j])
    && (forall k :: 0 <= k < |order| ==> order[k] in keys)
    && forall x :: x in keys ==> x in order
  }

  function RunningByDate(lines: seq<Line>, init: Bal): seq<Line> {
    Running(SortByDate(lines), init.balance)
  }

  function Listed(id: PartnerId, p: PartnerData): ShownPartner {
    ShownPartner(id, p.init, p.fin, RunningByDate(p.lines, p.init))
  }

  function ShownPartners(account: AccountData, order: seq<PartnerId>): seq<ShownPartner>
    requires forall k :: 0 <= k < |order| ==> order[k] in account.partners
  {
    seq(|order|, k requires 0 <= k < |order| => Listed(order[k], account.partners[order[k]]))
  }

  function ShownOf(account: AccountData, order: seq<PartnerId>): Shown
    requires Lists(order, account.partners.Keys)
  {
    if account.partners == map[]
    then Shown(account.init, account.fin, false, RunningByDate(account.lines, account.init), [])
    else Shown(account.init, account.fin, true, [], ShownPartners(account, order))
  }

  /** The lines by date with their running balances, computed in place. */
  method RunByDate(lines: seq<Line>, init: Bal) returns (run: seq<Line>)
    ensures run == RunningByDate(lines, init)
  {
    var sorted := SortByDate(lines);
    var moves := new Line[|sorted|](i requires 0 <= i < |sorted| => sorted[i]);
    assert moves[..] == sorted;
    RecalculateCumulBalance(moves, init.balance);
    run := moves[..];
  }

  /** Lists the lines of one account: its own, or those of each partner. */
  method ShowAccount(account: AccountData, order: seq<PartnerId>) returns (shown: Shown)
    requires Lists(order, account.partners.Keys)
    ensures shown == ShownOf(account, order)
  {
    if account.partners == map[] {
      var lines := RunByDate(account.lines, account.init);
      return Shown(account.init, account.fin, false, lines, []);
    }
    var partners: seq<ShownPartner> := [];
    for k := 0 to |order|
      invariant partners == ShownPartners(account, order[..k])
    {
      var p := account.partners[order[k]];
      var lines := RunByDate(p.lines, p.init);
      partners := partners + [ShownPartner(order[k], p.init, p.fin, lines)];
    }
    assert order[..|order|] == order;
    shown := Shown(account.init, account.fin, true, [], partners);
  }

  /**
   * Lines as they are listed: the given ones by date, in the given order on each
   * date, with the balance of each line replaced by the starting balance plus all
   * balances up to it.
   */
  ghost predicate IsRun(run: seq<Line>, lines: seq<Line>, start: int) {
    exists sorted: seq<Line> :: multiset(sorted) == multiset(lines) && InOrder(sorted, lines) && RunsOver(run, sorted, start)
  }

  ghost predicate InOrder(sorted: seq<Line>, lines: seq<Line>) {
    && (forall i, j :: 0 <= i < j < |sorted| ==> sorted[i].date <= sorted[j].date)
    && forall date :: OnDate(sorted, date) == OnDate(lines, date)
  }

  ghost predicate RunsOver(run: seq<Line>, sorted: seq<Line>, start: int) {
    && |run| == |sorted|
    && forall k :: 0 <= k < |run| ==>
         var balance := start + LineSum(sorted[..k + 1], (l: Line) => l.amounts.balance);
         run[k] == sorted[k].(amounts := sorted[k].amounts.(balance := balance))
  }

  lemma RunByDateIsRun(lines: seq<Line>, init: Bal)
    ensures IsRun(RunningByDate(lines, init), lines, init.balance)
  {
    var sorted := SortByDate(lines);
    forall date ensures OnDate(sorted, date) == OnDate(lines, date) {
      SortIsStable(lines, date);
    }
    forall k | 0 <= k < |sorted|
      ensures var balance := init.balance + LineSum(sorted[..k + 1], (l: Line) => l.amounts.balance);
        Running(sorted, init.balance)[k] == sorted[k].(amounts := sorted[k].amounts.(balance := balance)) {
      RunningAt(sorted, init.balance, k);
      AccountTotal(0, sorted[..k + 1]);
    }
    assert InOrder(sorted, lines) && RunsOver(RunningByDate(lines, init), sorted, init.balance);
  }

  /** What is listed of an account: its own lines, or those of each of its partners with their balances. */
  lemma ListedInFields(account: AccountData, order: seq<PartnerId>)
    requires Lists(order, account.partners.Keys)
    ensures var shown := ShownOf(account, order);
      && shown.init == account.init && shown.fin == account.fin
      && (account.partners == map[] ==>
            !shown.split && shown.partners == [] && IsRun(shown.lines, account.lines, account.init.balance))
      && (account.partners != map[] ==> shown.split && shown.lines == [] && |shown.partners| == |order|)
      && forall k :: 0 <= k < |shown.partners| ==>
           var p := account.partners[order[k]];
           && shown.partners[k].id == order[k]
           && shown.partners[k].init == p.init
           && shown.partners[k].fin == p.fin
           && IsRun(shown.partners[k].lines, p.lines, p.init.balance)
  {
    hide IsRun, RunningByDate;
    RunByDateIsRun(account.lines, account.init);
    forall k | 0 <= k < |order| && order[k] in account.partners
      ensures var p := account.partners[order[k]]; IsRun(RunningByDate(p.lines, p.init), p.lines, p.init.balance) {
      RunByDateIsRun(account.partners[order[k]].lines, account.partners[order[k]].init);
    }
  }

  /** Running balances that end at a given one. */
  predicate EndsAt(run: seq<Line>, balance: int) {
    run != [] ==> run[|run| - 1].amounts.balance == balance
  }

  lemma RunsBy(lines: seq<Line>, init: Bal)
    ensures EndsAt(RunningByDate(lines, init), init.balance + Total(Everything, lines).balance)
  {
    var sorted := SortByDate(lines);
    if sorted != [] {
      LastRunning(sorted, init.balance);
      TotalOfPermutation(lines, sorted);
    }
  }

  /** An account of the report: opened with its initial balance, then filled with the lines of the period. */
  ghost predicate Reported(account: AccountData, a: AccountId, split: bool, bs: seq<Line>, init: Bal, lines: seq<Line>) {
    exists before: AccountData :: Opened(before, a, split, bs, init) && AccountFiled(before, account, a, split, lines)
  }

  /**
   * In the report the lines of an account, and those of each of its partners, run
   * from the initial balance to the final one, which is the initial one plus all
   * lines of the period.
   */
  lemma RunsToFinal(account: AccountData, a: AccountId, split: bool, bs: seq<Line>, init: Bal, lines: seq<Line>,
                    order: seq<PartnerId>)
    requires Reported(account, a, split, bs, init, lines) && Lists(order, account.partners.Keys)
    ensures account.init == init && account.fin == Plus(init, Total(OfAccount(a), lines))
    ensures var shown := ShownOf(account, order);
      && shown.init == account.init && shown.fin == account.fin
      && (shown.split <==> account.partners != map[])
      && (shown.split ==> |shown.partners| == |order| && forall k :: 0 <= k < |order| ==> shown.partners[k].id == order[k])
      && EndsAt(shown.lines, account.fin.balance)
      && forall k :: 0 <= k < |shown.partners| ==>
           && shown.partners[k].init == Total(OfPartner(a, shown.partners[k].id), bs)
           && shown.partners[k].fin == Plus(shown.partners[k].init, Total(OfPartner(a, shown.partners[k].id), lines))
           && EndsAt(shown.partners[k].lines, shown.partners[k].fin.balance)
  {
    hide Total, RunningByDate, Opened, AccountFiled, EndsAt;
    var before: AccountData :| Opened(before, a, split, bs, init) && AccountFiled(before, account, a, split, lines);
    AccountRuns(before, account, a, split, bs, init, lines);
    forall k | 0 <= k < |order| ensures var p := account.partners[order[k]];
        && p.init == Total(OfPartner(a, order[k]), bs) && p.fin == Plus(p.init, Total(OfPartner(a, order[k]), lines))
        && EndsAt(RunningByDate(p.lines, p.init), p.fin.balance) {
      PartnerRuns(before, account, a, bs, init, lines, order[k]);
    }
    NothingEnds(account.fin.balance);
  }

  lemma NothingEnds(balance: int)
    ensures EndsAt([], balance)
  {
  }

  lemma AccountRuns(before: AccountData, account: AccountData, a: AccountId, split: bool, bs: seq<Line>, init: Bal,
                    lines: seq<Line>)
    requires Opened(before, a, split, bs, init) && AccountFiled(before, account, a, split, lines)
    ensures account.init == init && account.fin == Plus(init, Total(OfAccount(a), lines))
    ensures EndsAt(RunningByDate(account.lines, account.init), account.fin.balance)
  {
    hide Total, Select, Running;
    if split {
      assert account.lines == [];
    } else {
      assert account.lines == Select(OfAccount(a), lines);
      RunsBy(account.lines, account.init);
      TotalOfSelect(OfAccount(a), lines);
    }
  }

  lemma PartnerRuns(before: AccountData, account: AccountData, a: AccountId, bs: seq<Line>, init: Bal, lines: seq<Line>,
                    p: PartnerId)
    requires p in account.partners
    requires exists split :: Opened(before, a, split, bs, init) && AccountFiled(before, account, a, split, lines)
    ensures var partner := account.partners[p];
      && partner.init == Total(OfPartner(a, p), bs)
      && partner.fin == Plus(partner.init, Total(OfPartner(a, p), lines))
      && partner.lines == Select(OfPartner(a, p), lines)
      && EndsAt(RunningByDate(partner.lines, partner.init), partner.fin.balance)
  {
    hide RunningByDate, Total, Select;
    var split :| Opened(before, a, split, bs, init) && AccountFiled(before, account, a, split, lines);
    assert split;
    assert PartnerFiled(PartnerAt(before, p), account.partners[p], a, p, lines);
    PartnerOpened(before, a, bs, init, p);
    hide Opened, AccountFiled;
    RunsBy(account.partners[p].lines, account.partners[p].init);
    TotalOfSelect(OfPartner(a, p), lines);
  }

  lemma PartnerOpened(before: AccountData, a: AccountId, bs: seq<Line>, init: Bal, p: PartnerId)
    requires Opened(before, a, true, bs, init)
    ensures var early := Total(OfPartner(a, p), bs); PartnerAt(before, p) == PartnerData(early, early, [])
  {
    if p !in before.partners { NoneSelected(OfPartner(a, p), bs); }
  }

  // ---------------------------------------------------------------- centralisation

  datatype Slot = Slot(journal: JournalId, month: int)

  function SlotOf(l: Line): Slot {
    Slot(l.journal, l.month)
  }

  /** The centralised line of a journal and a month, so far. */
  function Centralize(central: map<Slot, Bal>, l: Line): map<Slot, Bal> {
    var slot := SlotOf(l);
    var was := if slot in central then central[slot] else ZERO;
    var b := l.amounts;
    central[slot := Bal(was.debit + b.debit, was.credit + b.credit, was.balance + (b.debit - b.credit))]
  }

  function BalanceOf(b: Bal): Bal {
    b.(balance := b.debit - b.credit)
  }

  function Slots(lines: seq<Line>): set<Slot> {
    set l | l in lines :: Slot(l.journal, l.month)
  }

  /** One line per journal and month, with the totals of the lines it stands for. */
  ghost predicate Centralized(central: map<Slot, Bal>, lines: seq<Line>) {
    && central.Keys == Slots(lines)
    && forall s :: s in central ==> central[s] == BalanceOf(Total(OfMonth(s.journal, s.month), lines))
  }

  lemma SlotTotal(j: JournalId, m: int, lines: seq<Line>, l: Line)
    ensures var t := Total(OfMonth(j, m), lines);
      Total(OfMonth(j, m), lines + [l]) == if Slot(l.journal, l.month) == Slot(j, m) then Plus(t, l.amounts) else t
    ensures Slot(j, m) !in Slots(lines) ==> Total(OfMonth(j, m), lines) == ZERO
  {
    assert (lines + [l])[..|lines|] == lines;
    if Slot(j, m) !in Slots(lines) {
      NoneSelected(OfMonth(j, m), lines);
    }
  }

  lemma SlotsSnoc(lines: seq<Line>, l: Line)
    ensures Slots(lines + [l]) == Slots(lines) + {Slot(l.journal, l.month)}
  {
  }

  lemma CentralizeStep(central: map<Slot, Bal>, lines: seq<Line>, l: Line)
    requires Centralized(central, lines)
    ensures Centralized(Centralize(central, l), lines + [l])
  {
    hide Total, Slots;
    SlotsSnoc(lines, l);
    var central' := Centralize(central, l);
    forall s | s in central' ensures central'[s] == BalanceOf(Total(OfMonth(s.journal, s.month), lines + [l])) {
      SlotTotal(s.journal, s.month, lines, l);
    }
  }

  function PartnerLines(partners: seq<ShownPartner>): seq<Line> {
    if partners == [] then [] else PartnerLines(partners[..|partners| - 1]) + partners[|partners| - 1].lines
  }

  /** The listed lines of an account, whose balances are running ones. */
  function ShownLines(shown: Shown): seq<Line> {
    if shown.split then PartnerLines(shown.partners) else shown.lines
  }

  /** Adds some lines to the centralised ones. */
  method CentralizeLines(central: map<Slot, Bal>, ghost before: seq<Line>, lines: seq<Line>) returns (central': map<Slot, Bal>)
    requires Centralized(central, before)
    ensures Centralized(central', before + lines)
  {
    hide Centralized;
    central' := central;
    assert before + lines[..0] == before;
    for k := 0 to |lines|
      invariant Centralized(central', before + lines[..k])
    {
      CentralizeStep(central', before + lines[..k], lines[k]);
      assert before + lines[..k + 1] == (before + lines[..k]) + [lines[k]];
      central' := Centralize(central', lines[k]);
    }
    assert lines[..|lines|] == lines;
  }

  /** Centralises the listed lines of an account, partner by partner when it is split. */
  method CentralizedMl(shown: Shown) returns (central: map<Slot, Bal>)
    ensures Centralized(central, ShownLines(shown))
  {
    hide Centralized;
    central := map[];
    CentralizedNone();
    if shown.split {
      for k := 0 to |shown.partners|
        invariant Centralized(central, PartnerLines(shown.partners[..k]))
      {
        assert shown.partners[..k + 1][..k] == shown.partners[..k];
        central := CentralizeLines(central, PartnerLines(shown.partners[..k]), shown.partners[k].lines);
      }
      assert shown.partners[..|shown.partners|] == shown.partners;
    } else {
      central := CentralizeLines(central, [], shown.lines);
      assert [] + shown.lines == shown.lines;
    }
  }

  lemma CentralizedNone()
    ensures Centralized(map[], [])
  {
  }

  /** A centralised line has the debits and credits of its journal and month, and their difference as balance. */
  lemma CentralizedInFields(central: map<Slot, Bal>, lines: seq<Line>, s: Slot)
    requires Centralized(central, lines)
    ensures s in central <==> exists l <- lines :: l.journal == s.journal && l.month == s.month
    ensures s in central ==>
      && central[s].debit == LineSum(lines, (l: Line) => if l.journal == s.journal && l.month == s.month then l.amounts.debit else 0)
      && central[s].credit == LineSum(lines, (l: Line) => if l.journal == s.journal && l.month == s.month then l.amounts.credit else 0)
      && central[s].balance == central[s].debit - central[s].credit
  {
    hide LineSum, Total;
    MonthTotal(s.journal, s.month, lines);
    if s in central {
      var l :| l in lines && Slot(l.journal, l.month) == s;
    }
    if l :| l in lines && l.journal == s.journal && l.month == s.month {
      assert Slot(l.journal, l.month) == s;
    }
  }

  function SlotAmount(c: Column, central: map<Slot, Bal>, s: Slot): int {
    if s in central then Pick(c, central[s]) else 0
  }

  /** Centralising conserves debit and credit, and its balances add up to debit less credit. */
  lemma {:induction false} CentralizationConserves(c: Column, lines: seq<Line>, central: map<Slot, Bal>)
    requires Centralized(central, lines)
    ensures SumOver(central.Keys, s => SlotAmount(c, central, s)) == Pick(c, BalanceOf(Total(Everything, lines)))
  {
    SlotsAddUp(c, central.Keys, lines);
    SumOverEqual(central.Keys, s => SlotAmount(c, central, s),
                 (s: Slot) => Pick(c, BalanceOf(Total(OfMonth(s.journal, s.month), lines))));
  }

  lemma {:induction false} SlotsAddUp(c: Column, slots: set<Slot>, lines: seq<Line>)
    requires forall l <- lines :: Slot(l.journal, l.month) in slots
    ensures SumOver(slots, (s: Slot) => Pick(c, BalanceOf(Total(OfMonth(s.journal, s.month), lines))))
         == Pick(c, BalanceOf(Total(Everything, lines)))
    decreases |lines|
  {
    var all := (s: Slot) => Pick(c, BalanceOf(Total(OfMonth(s.journal, s.month), lines)));
    if lines == [] {
      SumOverEqual(slots, all, _ => 0);
      SumOverNone(slots);
    } else {
      var rest, l := lines[..|lines| - 1], lines[|lines| - 1];
      SlotsAddUp(c, slots, rest);
      var last := (s: Slot) => if s == Slot(l.journal, l.month) then Pick(c, BalanceOf(l.amounts)) else 0;
      SumOverSingle(slots, last, Slot(l.journal, l.month));
      SumOverPlus(slots, (s: Slot) => Pick(c, BalanceOf(Total(OfMonth(s.journal, s.month), rest))), last, all);
    }
  }

  /** The lines of an account, listed partner by partner. */
  function ByPartner(a: AccountId, partners: seq<PartnerId>, lines: seq<Line>): seq<Line> {
    if partners == [] then []
    else ByPartner(a, partners[..|partners| - 1], lines) + Select(OfPartner(a, partners[|partners| - 1]), lines)
  }

  function One(b: bool, l: Line): multiset<Line> {
    if b then multiset{l} else multiset{}
  }

  lemma OneOfTwo(first: multiset<Line>, others: multiset<Line>, l: Line, inFirst: bool, inOthers: bool)
    requires !(inFirst && inOthers)
    ensures (first + One(inFirst, l)) + (others + One(inOthers, l)) == (first + others) + One(inFirst || inOthers, l)
  {
  }

  lemma SelectSnoc(s: Selection, lines: seq<Line>, l: Line)
    ensures multiset(Select(s, lines + [l])) == multiset(Select(s, lines)) + One(Selects(s, l), l)
  {
    assert (lines + [l])[..|lines|] == lines;
  }

  lemma {:induction false} ByPartnerSnoc(a: AccountId, partners: seq<PartnerId>, lines: seq<Line>, l: Line)
    requires forall i, j :: 0 <= i < j < |partners| ==> partners[i] != partners[j]
    ensures multiset(ByPartner(a, partners, lines + [l])) == multiset(ByPartner(a, partners, lines))
          + One(l.account == a && PartnerKey(l.partner) in partners, l)
    decreases |partners|
  {
    if partners != [] {
      var n := |partners| - 1;
      var p, rest, key := partners[n], partners[..n], PartnerKey(l.partner);
      assert partners == rest + [p];
      assert p !in rest && (key in partners <==> key == p || key in rest);
      ByPartnerSnoc(a, rest, lines, l);
      SelectSnoc(OfPartner(a, p), lines, l);
      ByPartnerParts(a, partners, lines);
      ByPartnerParts(a, partners, lines + [l]);
      OneOfTwo(multiset(Select(OfPartner(a, p), lines)), multiset(ByPartner(a, rest, lines)), l,
               Selects(OfPartner(a, p), l), l.account == a && key in rest);
      hide Select, ByPartner, One;
    }
  }

  lemma ByPartnerParts(a: AccountId, partners: seq<PartnerId>, lines: seq<Line>)
    requires partners != []
    ensures multiset(ByPartner(a, partners, lines))
         == multiset(Select(OfPartner(a, partners[|partners| - 1]), lines))
          + multiset(ByPartner(a, partners[..|partners| - 1], lines))
  {
  }

  /** Listing by partner neither loses nor repeats a line. */
  lemma {:induction false} ByPartnerIsAccount(a: AccountId, partners: seq<PartnerId>, lines: seq<Line>)
    requires forall i, j :: 0 <= i < j < |partners| ==> partners[i] != partners[j]
    requires forall l <- lines :: l.account == a ==> PartnerKey(l.partner) in partners
    ensures multiset(ByPartner(a, partners, lines)) == multiset(Select(OfAccount(a), lines))
    decreases |lines|
  {
    if lines == [] {
      ByPartnerNone(a, partners);
    } else {
      var rest, l := lines[..|lines| - 1], lines[|lines| - 1];
      ByPartnerIsAccount(a, partners, rest);
      assert lines == rest + [l];
      ByPartnerSnoc(a, partners, rest, l);
    }
  }

  lemma {:induction false} ByPartnerNone(a: AccountId, partners: seq<PartnerId>)
    ensures ByPartner(a, partners, []) == []
    decreases |partners|
  {
    if partners != [] { ByPartnerNone(a, partners[..|partners| - 1]); }
  }

  // ---------------------------------------------------------------- running through the centralised lines

  lemma {:induction false} TotalConcat(x: seq<Line>, y: seq<Line>)
    ensures Total(Everything, x + y) == Plus(Total(Everything, x), Total(Everything, y))
    decreases |y|
  {
    if y == [] {
      assert x + y == x;
    } else {
      var front := y[..|y| - 1];
      TotalConcat(x, front);
      assert (x + y)[..|x + y| - 1] == x + front;
    }
  }

  /** Running balances leave debits and credits as they are. */
  lemma {:induction false} RunningKeeps(lines: seq<Line>, start: int)
    ensures BalanceOf(Total(Everything, Running(lines, start))) == BalanceOf(Total(Everything, lines))
    decreases |lines|
  {
    if lines != [] {
      var balance := lines[0].amounts.balance + start;
      RunningKeeps(lines[1..], balance);
      TotalFront(lines);
      TotalFront(Running(lines, start));
    }
  }

  lemma RunningByDateKeeps(lines: seq<Line>, init: Bal)
    ensures BalanceOf(Total(Everything, RunningByDate(lines, init))) == BalanceOf(Total(Everything, lines))
  {
    RunningKeeps(SortByDate(lines), init.balance);
    TotalOfPermutation(lines, SortByDate(lines));
  }

  /** The listed lines of the partners have the debits and credits of the lines that were filed. */
  lemma {:induction false} PartnersKeep(account: AccountData, a: AccountId, order: seq<PartnerId>, lines: seq<Line>)
    requires forall k :: 0 <= k < |order| ==>
      order[k] in account.partners && account.partners[order[k]].lines == Select(OfPartner(a, order[k]), lines)
    ensures BalanceOf(Total(Everything, PartnerLines(ShownPartners(account, order))))
         == BalanceOf(Total(Everything, ByPartner(a, order, lines)))
    decreases |order|
  {
    hide Total, Select, RunningByDate;
    if order != [] {
      var n := |order| - 1;
      PartnersKeep(account, a, order[..n], lines);
      var p := account.partners[order[n]];
      var shown := ShownPartners(account, order);
      assert shown[..n] == ShownPartners(account, order[..n]);
      TotalConcat(PartnerLines(shown[..n]), RunningByDate(p.lines, p.init));
      RunningByDateKeeps(p.lines, p.init);
      TotalConcat(ByPartner(a, order[..n], lines), Select(OfPartner(a, order[n]), lines));
    }
  }

  /** The listed lines of an account have the debits and credits of its lines of the period. */
  lemma ShownKeeps(account: AccountData, a: AccountId, split: bool, bs: seq<Line>, init: Bal, lines: seq<Line>,
                   order: seq<PartnerId>)
    requires Reported(account, a, split, bs, init, lines) && Lists(order, account.partners.Keys)
    ensures BalanceOf(Total(Everything, ShownLines(ShownOf(account, order)))) == BalanceOf(Total(OfAccount(a), lines))
  {
    hide Total, Select, RunningByDate;
    var before: AccountData :| Opened(before, a, split, bs, init) && AccountFiled(before, account, a, split, lines);
    assert account.lines == if split then [] else Select(OfAccount(a), lines);
    if account.partners != map[] {
      forall k | 0 <= k < |order| ensures account.partners[order[k]].lines == Select(OfPartner(a, order[k]), lines) {
        PartnerRuns(before, account, a, bs, init, lines, order[k]);
      }
      PartnersKeep(account, a, order, lines);
      forall l | l in lines && l.account == a ensures PartnerKey(l.partner) in order {
        assert PartnerKey(l.partner) in Keys(a, lines);
      }
      ByPartnerIsAccount(a, order, lines);
      TotalOfPermutation(ByPartner(a, order, lines), Select(OfAccount(a), lines));
      TotalOfSelect(OfAccount(a), lines);
    } else {
      RunningByDateKeeps(account.lines, account.init);
      if split {
        NoneOfAccount(a, lines);
      } else {
        TotalOfSelect(OfAccount(a), lines);
      }
    }
  }

  lemma NoneOfAccount(a: AccountId, lines: seq<Line>)
    requires Keys(a, lines) == {}
    ensures Total(OfAccount(a), lines) == Total(Everything, []) == ZERO
  {
    forall l | l in lines ensures l.account != a {
      assert l.account == a ==> PartnerKey(l.partner) in Keys(a, lines);
    }
    NoneSelected(OfAccount(a), lines);
  }

  /** The centralised lines, listed in some order. */
  ghost predicate IsListing(listing: seq<Line>, central: map<Slot, Bal>) {
    && (forall i, j :: 0 <= i < j < |listing| ==> SlotOf(listing[i]) != SlotOf(listing[j]))
    && (forall k :: 0 <= k < |listing| ==> SlotOf(listing[k]) in central && listing[k].amounts == central[SlotOf(listing[k])])
    && forall s :: s in central ==> exists k :: 0 <= k < |listing| && SlotOf(listing[k]) == s
  }

  lemma ListingFront(listing: seq<Line>, central: map<Slot, Bal>)
    requires listing != [] && IsListing(listing, central)
    ensures IsListing(listing[..|listing| - 1], central - {SlotOf(listing[|listing| - 1])})
  {
    var n := |listing| - 1;
    var fewer := central - {SlotOf(listing[n])};
    forall s | s in fewer ensures exists k :: 0 <= k < n && SlotOf(listing[..n][k]) == s {
      var k :| 0 <= k < |listing| && SlotOf(listing[k]) == s;
      assert SlotOf(listing[..n][k]) == s;
    }
  }

  lemma {:induction false} ListingTotal(c: Column, listing: seq<Line>, central: map<Slot, Bal>)
    requires IsListing(listing, central)
    ensures Pick(c, Total(Everything, listing)) == SumOver(central.Keys, s => SlotAmount(c, central, s))
    decreases |listing|
  {
    var all := (s: Slot) => SlotAmount(c, central, s);
    if listing == [] {
      assert central.Keys == {};
    } else {
      var n := |listing| - 1;
      var last := SlotOf(listing[n]);
      var fewer := central - {last};
      assert last in central && all(last) == Pick(c, listing[n].amounts);
      ListingFront(listing, central);
      hide IsListing;
      ListingTotal(c, listing[..n], fewer);
      SumOverRemove(central.Keys, all, last);
      assert fewer.Keys == central.Keys - {last};
      SumOverEqual(fewer.Keys, all, s => SlotAmount(c, fewer, s));
    }
  }

  /**
   * Centralising the listed lines of an account, whose balances are running ones
   * by then, conserves its debits and credits; and running through the centralised
   * lines, in whatever order they are listed, ends at the final balance exactly
   * when the balance of the lines of the period is their debit less their credit.
   */
  lemma CentralRunsToFinal(account: AccountData, a: AccountId, split: bool, bs: seq<Line>, init: Bal, lines: seq<Line>,
                           order: seq<PartnerId>, central: map<Slot, Bal>, listing: seq<Line>)
    requires Reported(account, a, split, bs, init, lines) && Lists(order, account.partners.Keys)
    requires Centralized(central, ShownLines(ShownOf(account, order))) && IsListing(listing, central)
    ensures Total(Everything, listing) == BalanceOf(Total(OfAccount(a), lines))
    ensures listing != [] ==>
      (EndsAt(Running(listing, account.init.balance), account.fin.balance)
       <==> Total(OfAccount(a), lines) == BalanceOf(Total(OfAccount(a), lines)))
  {
    hide Total, IsListing, Centralized, ShownOf;
    ShownKeeps(account, a, split, bs, init, lines, order);
    RunsToFinal(account, a, split, bs, init, lines, order);
    forall c: Column ensures Pick(c, Total(Everything, listing)) == Pick(c, BalanceOf(Total(OfAccount(a), lines))) {
      ListingTotal(c, listing, central);
      CentralizationConserves(c, ShownLines(ShownOf(account, order)), central);
    }
    var t, u := Total(Everything, listing), BalanceOf(Total(OfAccount(a), lines));
    assert Pick(Debit, t) == Pick(Debit, u) && Pick(Credit, t) == Pick(Credit, u) && Pick(Balance, t) == Pick(Balance, u);
    if listing != [] { LastRunning(listing, account.init.balance); }
  }

  /** Lines whose own balance is their debit less their credit have such a total, so that the exact condition holds. */
  lemma {:induction false} TotalBalanced(s: Selection, lines: seq<Line>)
    requires forall l <- lines :: Selects(s, l) ==> l.amounts == BalanceOf(l.amounts)
    ensures Total(s, lines) == BalanceOf(Total(s, lines))
  {
    if lines != [] { TotalBalanced(s, lines[..|lines| - 1]); }
  }

  // ---------------------------------------------------------------- the report

  /** The initial balance of an account, with the earnings of earlier years on one of them. */
  ghost function InitialBalance(a: AccountId, bs: seq<Line>, pl: seq<Line>, prior: seq<Line>, unaffected: AccountId): Bal {
    if a == unaffected then Plus(InitialOf(a, bs, pl), Total(Everything, prior)) else InitialOf(a, bs, pl)
  }

  /**
   * An account opens with the sums of its initial lines; the unaffected-earnings
   * account also with those of all profit-and-loss lines of earlier years.
   */
  lemma InitialInFields(a: AccountId, bs: seq<Line>, pl: seq<Line>, prior: seq<Line>, unaffected: AccountId)
    ensures var init := InitialBalance(a, bs, pl, prior, unaffected);
      && init.debit == LineSum(bs, (l: Line) => if l.account == a then l.amounts.debit else 0)
                   + LineSum(pl, (l: Line) => if l.account == a then l.amounts.debit else 0)
                   + (if a == unaffected then LineSum(prior, (l: Line) => l.amounts.debit) else 0)
      && init.credit == LineSum(bs, (l: Line) => if l.account == a then l.amounts.credit else 0)
                   + LineSum(pl, (l: Line) => if l.account == a then l.amounts.credit else 0)
                   + (if a == unaffected then LineSum(prior, (l: Line) => l.amounts.credit) else 0)
      && init.balance == LineSum(bs, (l: Line) => if l.account == a then l.amounts.balance else 0)
                   + LineSum(pl, (l: Line) => if l.account == a then l.amounts.balance else 0)
                   + (if a == unaffected then LineSum(prior, (l: Line) => l.amounts.balance) else 0)
  {
    hide LineSum, Total;
    AccountTotal(a, bs);
    AccountTotal(a, pl);
    AccountTotal(a, prior);
  }

  /** From the grouped initial balances to the ledger with the lines of the period: every account is as reported. */
  method ReportedLedger(ghost bs: seq<Line>, ghost pl: seq<Line>, ghost prior: seq<Line>, byPartner: set<AccountId>,
                        bsGroups: seq<AccountGroup>, plGroups: seq<AccountGroup>, partnerGroups: seq<PartnerGroup>,
                        earnings: Bal, unaffected: AccountId, lines: seq<Line>)
    returns (ledger: Ledger)
    requires GroupedByAccount(bs, bsGroups) && GroupedByAccount(pl, plGroups)
    requires GroupedByPartner(bs, byPartner, partnerGroups)
    requires forall l <- bs, m <- pl :: l.account != m.account
    requires earnings == Total(Everything, prior)
    ensures ledger.Keys == (set l | l in bs + pl + lines :: l.account) + {unaffected}
    ensures forall a :: a in ledger ==>
      Reported(ledger[a], a, a in byPartner, bs, InitialBalance(a, bs, pl, prior, unaffected), lines)
  {
    hide Total, InitialOf, Opened, AccountFiled, GroupedByAccount, GroupedByPartner;
    var start := InitialBalanceData(bs, pl, prior, byPartner, bsGroups, plGroups, partnerGroups, earnings, unaffected);
    ledger := PeriodMlData(start, byPartner, lines);
    assert (set l | l in bs + pl + lines :: l.account) == (set l | l in bs + pl :: l.account) + (set l | l in lines :: l.account);
    forall a | a in ledger
      ensures Reported(ledger[a], a, a in byPartner, bs, InitialBalance(a, bs, pl, prior, unaffected), lines) {
      if a !in start { AbsentAccount(bs, pl, a, a in byPartner); }
      assert Opened(AccountAt(start, a), a, a in byPartner, bs, InitialBalance(a, bs, pl, prior, unaffected));
      assert AccountFiled(AccountAt(start, a), ledger[a], a, a in byPartner, lines);
    }
  }
}
