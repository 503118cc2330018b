/** One card, with the two things a card leaves to the planner open: the kind of its donor and what its third category holds. */
module CardWitness {
  import opened CheckedMoney
  import opened Rows
  import opened Text
  import opened Action
  import opened Ordered
  import opened Sorting
  import opened Sums
  import opened Cart
  import opened Outflow
  import opened Dispatch
  import opened Donors
  import opened Funding
  import opened Envelopes
  import opened Planner
  import opened PlanAction
  import opened CardPlan
  import opened CardCart
  import opened CardAction
  import Witness

  const MONTH := "2024-01"
  const GIVER := Slot("c", MONTH)
  const BUYER := Slot("d", MONTH)
  const CREDIT := Slot("e", MONTH)

  function Usd(units: i64): Money {
    Money(units, "USD")
  }

  function ThreeFacts(held: i64): Facts {
    Facts(MONTH, [NamedMoney(GIVER, Usd(10), CategoryFactInfo(Ordinary, Current)),
                  NamedMoney(BUYER, Usd(0), CategoryFactInfo(Ordinary, Current)),
                  NamedMoney(CREDIT, Usd(held), CategoryFactInfo(CreditPayment, Current))])
  }

  /** Ten to spare in one category, five lacking in the next, and three to pay from a credit-payment category. */
  function ThreeCategories(kind: string, held: i64): Card {
    Card(ThreeFacts(held), map["c" := Policy(kind, true, Usd(0), Usd(0))],
         map[GIVER := Totals(10, 0, 0), BUYER := Totals(0, 0, 0), CREDIT := Totals(held, 0, 0)], map[BUYER := 5, CREDIT := 3])
  }

  function Idle(units: i64, safe: i64, policyKind: Option<string>): CategoryState {
    CategoryState(Usd(units), Usd(units), Usd(0), Usd(0), Usd(safe), policyKind)
  }

  function OneLedger(): Capture {
    Capture([NamedMoney("a", Usd(100), AccountInfo("a", true, false, "USD"))], [NamedMoney(GIVER, Usd(0), NoInfo), NamedMoney(BUYER, Usd(0), NoInfo)],
            [], [], [], [NamedMoney("a", Usd(100), AccountFactInfo(true, false, "USD", Witness.Known()))], [])
  }

  function ThreeBudget(kind: string, held: i64): Budget {
    Budget({"c", "d", "e"}, ThreeFacts(held).categories, map[GIVER := Idle(10, 10, Some(kind)), BUYER := Idle(0, 0, None), CREDIT := Idle(held, 0, None)],
           ThreeCategories(kind, held).policies, map["d" := Usd(5), "e" := Usd(3)])
  }

  function ThreeRequest(kind: string, held: i64): Request {
    Request(OneLedger(), ThreeBudget(kind, held), true, "safe_with_reallocation", Usd(8), map["a" := Usd(8)], map[],
            ApprovedLines(OnePath()), Witness.DAY, _ => true, (_, _) => Ok("event"))
  }

  /** The cart: eight from the one account, split over both categories. */
  function Bought(): Transaction {
    Transaction("t", "k", "a", Usd(-8), Witness.DAY, None, None, None, [Split("d", Usd(-5)), Split("e", Usd(-3))])
  }

  function OnePath(): seq<Path> {
    [Path(GIVER, BUYER, 5, "USD")]
  }

  lemma {:induction false} FactsAt(held: i64)
    ensures KeysOf(ThreeFacts(held).categories) == [GIVER, BUYER, CREDIT] && Distinct([GIVER, BUYER, CREDIT])
    ensures forall slot :: FactAt(ThreeFacts(held), slot).Some? <==> slot == GIVER || slot == BUYER || slot == CREDIT
    ensures FactAt(ThreeFacts(held), GIVER) == Some(ThreeFacts(held).categories[0])
    ensures FactAt(ThreeFacts(held), BUYER) == Some(ThreeFacts(held).categories[1])
    ensures FactAt(ThreeFacts(held), CREDIT) == Some(ThreeFacts(held).categories[2])
  {
    var keys := KeysOf(ThreeFacts(held).categories);
    assert keys == [GIVER, BUYER, CREDIT];
    assert keys[0] == GIVER && keys[1] == BUYER && keys[2] == CREDIT;
  }

  lemma {:induction false} Currencies(held: i64)
    ensures CurrencyAt(ThreeFacts(held), GIVER) == CurrencyAt(ThreeFacts(held), BUYER) == CurrencyAt(ThreeFacts(held), CREDIT) == "USD"
  {
    FactsAt(held);
    hide FactAt;
  }

  lemma {:induction false} Amounts(kind: string, held: i64)
    ensures ValidCard(ThreeCategories(kind, held))
    ensures forall slot :: Usable(ThreeCategories(kind, held), slot) <==> slot == GIVER || slot == BUYER
    ensures forall slot :: Shortfall(ThreeCategories(kind, held), slot) == if slot == BUYER then 5 else 0
    ensures forall slot :: Spendable(ThreeCategories(kind, held), slot) == if slot == GIVER then 10 else 0
  {
    FactsAt(held);
    hide FactAt;
  }

  // What the card proposes.

  lemma {:induction false} Items(kind: string, held: i64)
    ensures NeedList(ThreeCategories(kind, held), [BUYER, CREDIT]) == [Need(BUYER, "USD", 5)]
    ensures DonorList(ThreeCategories(kind, held), [GIVER, BUYER, CREDIT]) == [Donor(GIVER, "USD", 10), Donor(BUYER, "USD", 0)]
  {
    var c := ThreeCategories(kind, held);
    Amounts(kind, held);
    Currencies(held);
    hide Shortfall, Spendable, FactAt, CurrentOrdinary, CurrencyAt;
    assert [BUYER, CREDIT][..1] == [BUYER] && [BUYER][..0] == [];
    assert [GIVER, BUYER, CREDIT][..2] == [GIVER, BUYER] && [GIVER, BUYER][..1] == [GIVER] && [GIVER][..0] == [];
    assert NeedList(c, []) == [] && DonorList(c, []) == [];
    assert Usable(c, GIVER) && Usable(c, BUYER) && !Usable(c, CREDIT);
    assert NeedList(c, [BUYER]) == NeedItem(c, BUYER);
    assert NeedList(c, [BUYER, CREDIT]) == NeedList(c, [BUYER]) + NeedItem(c, CREDIT);
    assert DonorList(c, [GIVER]) == DonorItem(c, GIVER);
    assert DonorList(c, [GIVER, BUYER]) == DonorItem(c, GIVER) + DonorItem(c, BUYER);
    assert DonorList(c, [GIVER, BUYER, CREDIT]) == DonorList(c, [GIVER, BUYER]) + DonorItem(c, CREDIT);
  }

  lemma {:induction false} InOrder()
    ensures StrictOrder(SlotLt)
    ensures Listing(SlotLt, {BUYER, CREDIT}) == [BUYER, CREDIT] && Listing(SlotLt, {GIVER, BUYER, CREDIT}) == [GIVER, BUYER, CREDIT]
  {
    SlotsOrdered();
    assert SlotLt(GIVER, BUYER) && SlotLt(BUYER, CREDIT) && SlotLt(GIVER, CREDIT);
    hide SlotLt, Listing, StrictOrder;
    AscendingUnique(SlotLt, Listing(SlotLt, {BUYER, CREDIT}), [BUYER, CREDIT]);
    AscendingUnique(SlotLt, Listing(SlotLt, {GIVER, BUYER, CREDIT}), [GIVER, BUYER, CREDIT]);
  }

  lemma {:induction false} Lists(kind: string, held: i64)
    ensures Needs(ThreeCategories(kind, held)) == [Need(BUYER, "USD", 5)]
    ensures Surpluses(ThreeCategories(kind, held)) == [Donor(GIVER, "USD", 10), Donor(BUYER, "USD", 0)]
  {
    assert ThreeCategories(kind, held).purchases.Keys == {BUYER, CREDIT};
    assert ThreeCategories(kind, held).totals.Keys == {GIVER, BUYER, CREDIT};
    hide Listing, NeedList, DonorList, ThreeCategories, SlotLt;
    InOrder();
    Items(kind, held);
  }

  lemma {:induction false} Matched()
    ensures var donors := [Donor(GIVER, "USD", 10), Donor(BUYER, "USD", 0)];
            ValidDonors(donors) && Match([Need(BUYER, "USD", 5)], donors) == Some(OnePath())
  {
    var needs, donors := [Need(BUYER, "USD", 5)], [Donor(GIVER, "USD", 10), Donor(BUYER, "USD", 0)];
    assert donors[1..] == [donors[1]] && donors[1..][1..] == [] && needs[1..] == [];
    assert Draw(0, BUYER, "USD", []) == Drawn([], [], 0);
    var second := Draw(0, BUYER, "USD", donors[1..]);
    assert second == Drawn([], [donors[1]], 0);
    assert Draw(5, BUYER, "USD", donors) == Drawn(OnePath(), [Donor(GIVER, "USD", 5), donors[1]], 0);
    DrawKeeps(5, BUYER, "USD", donors);
    assert Match([], [Donor(GIVER, "USD", 5), donors[1]]) == Some([]);
  }

  lemma {:induction false} Sound(kind: string, held: i64)
    requires held >= 0
    ensures Backed(ThreeCategories(kind, held)) && Headroom(ThreeCategories(kind, held))
  {
    Amounts(kind, held);
    FactsAt(held);
    hide Shortfall, Usable, FactAt;
  }

  lemma {:induction false} Allocates(kind: string, held: i64)
    ensures Allocation(ThreeCategories(kind, held), OnePath())
  {
    Amounts(kind, held);
    hide *;
    Lists(kind, held);
    Matched();
    MatchAllocates(ThreeCategories(kind, held));
  }

  lemma {:induction false} Proposes(kind: string, held: i64)
    ensures Proposed(ThreeCategories(kind, held), OnePath()) && !Proposed(ThreeCategories(kind, held), [])
  {
    Amounts(kind, held);
    assert Into([], BUYER) == 0 && Shortfall(ThreeCategories(kind, held), BUYER) == 5;
    hide Shortfall, Spendable, Match, Needs, Surpluses, Usable, ThreeCategories, PathSound, OutOf, Into;
    Allocates(kind, held);
    Lists(kind, held);
    Matched();
    MatchAllocates(ThreeCategories(kind, held));
  }

  // The ledger and the budget it is planned on.

  lemma {:induction false} MonthGood()
    ensures ValidMonth(MONTH)
  {
    assert MONTH[5..] == "01" && MONTH[..4] == "2024" && "01"[..1] == "0" && "0"[..0] == "";
    assert Decimal("0") == 0 && Decimal("01") == 1;
  }

  lemma {:induction false} CellsHeld(slot: Slot)
    requires slot == GIVER || slot == BUYER
    ensures AssignmentIn(OneLedger(), slot, "USD") && AssignedAfter(OneLedger(), [], slot) == 0
  {
    var keys := KeysOf(OneLedger().assignments);
    assert keys == [GIVER, BUYER];
    assert keys[0] == GIVER && keys[1] == BUYER;
  }

  lemma {:induction false} BudgetRead(kind: string, held: i64)
    requires held >= 0
    ensures CardBudget(ThreeCategories(kind, held), ThreeBudget(kind, held))
  {
    Amounts(kind, held);
    FactsAt(held);
    Currencies(held);
    hide FactAt, Shortfall, Spendable, Usable;
  }

  lemma {:induction false} ReadyAt(kind: string, held: i64, slot: Slot)
    requires slot == GIVER || slot == BUYER
    ensures var c := ThreeCategories(kind, held);
            slot.month == c.facts.asOfMonth && slot.categoryId in ThreeBudget(kind, held).categories
            && AssignmentIn(OneLedger(), slot, CurrencyAt(c.facts, slot))
            && Fits(AssignedAfter(OneLedger(), [], slot) + Shortfall(c, slot))
            && Fits(AssignedAfter(OneLedger(), [], slot) - Spendable(c, slot))
  {
    Amounts(kind, held);
    Currencies(held);
    CellsHeld(slot);
    hide Shortfall, Spendable, Usable, AssignmentIn, AssignedAfter, CurrencyAt, OneLedger;
  }

  lemma {:induction false} Ready(kind: string, held: i64)
    requires held >= 0
    ensures LedgerReady(ThreeRequest(kind, held), ThreeCategories(kind, held))
  {
    Amounts(kind, held);
    hide Shortfall, Spendable, Usable, ValidMonth, CardBudget, AssignmentIn, AssignedAfter, CurrencyAt, ThreeBudget, OneLedger, ApprovedLines;
    assert ThreeCategories(kind, held).facts.asOfMonth == MONTH;
    hide ThreeCategories;
    MonthGood();
    BudgetRead(kind, held);
    ReadyAt(kind, held, GIVER);
    ReadyAt(kind, held, BUYER);
  }

  lemma {:induction false} OpenByKind(kind: string, held: i64)
    ensures DonorsOpen(ThreeCategories(kind, held), OnePath()) <==> !IsKind(kind, "protected") && !IsKind(kind, "goal")
  {
    hide IsKind;
    assert OnePath()[0] in OnePath();
  }

  lemma {:induction false} CoveredByHeld(kind: string, held: i64)
    requires held >= 0
    ensures CartCovered(ThreeCategories(kind, held)) <==> 3 <= held
  {
    var c := ThreeCategories(kind, held);
    Amounts(kind, held);
    hide Usable;
    assert CREDIT in c.purchases && BUYER in c.purchases;
  }

  /**
   * The card proposes the move whatever the policy's kind; the planner accepts it exactly when the kind is
   * neither "protected" nor "goal".
   */
  lemma {:induction false} GoalRefused(kind: string, held: i64)
    requires held >= 0
    ensures Proposed(ThreeCategories(kind, held), OnePath()) && !Proposed(ThreeCategories(kind, held), [])
    ensures MovesAccepted(ThreeRequest(kind, held), [], Movements(OnePath())) <==> !IsKind(kind, "protected") && !IsKind(kind, "goal")
  {
    Amounts(kind, held);
    hide *;
    Sound(kind, held);
    Allocates(kind, held);
    Ready(kind, held);
    Proposes(kind, held);
    OpenByKind(kind, held);
    CardMovesAccepted(ThreeRequest(kind, held), ThreeCategories(kind, held), OnePath(), OnePath());
  }

  // The purchase.

  lemma {:induction false} TwoDeltas()
    ensures MonthDeltas(Bought()) == [(BUYER, -5), (CREDIT, -3)] && ValidDate(Witness.DAY)
  {
    Witness.DayValid();
    hide ValidDate;
  }

  lemma {:induction false} BothEffects(kind: string, held: i64)
    ensures WithinEffects(ThreeCategories(kind, held), ThreeBudget(kind, held), Bought())
  {
    TwoDeltas();
    Currencies(held);
    hide MonthDeltas, CurrencyAt;
  }

  lemma {:induction false} SumOfBoth(slot: Slot)
    ensures SumFor([(BUYER, -5 as i64), (CREDIT, -3 as i64)], slot) == if slot == BUYER then -5 else if slot == CREDIT then -3 else 0
  {
    var lines: Lines := [(BUYER, -5 as i64), (CREDIT, -3 as i64)];
    assert lines[1..] == [(CREDIT, -3 as i64)] && |lines[1..][1..]| == 0;
    assert SumFor(lines[1..][1..], slot) == 0;
  }

  lemma {:induction false} BothFlow(slot: Slot)
    ensures Flow(PostSteps([Bought()]), slot) == if slot == BUYER then -5 else if slot == CREDIT then -3 else 0
  {
    TwoDeltas();
    SumOfBoth(slot);
    assert PostSteps([Bought()]) == [] + [Post(Bought())];
    assert Flow([], slot) == 0;
    hide MonthDeltas, SumFor, Flow;
    FlowThen([], Post(Bought()));
  }

  lemma {:induction false} BuysIt(kind: string, held: i64)
    ensures WholeCart(ThreeCategories(kind, held), ThreeBudget(kind, held), [Bought()])
  {
    BothEffects(kind, held);
    hide WithinEffects, Flow, PostSteps;
    forall slot
      ensures -Flow(PostSteps([Bought()]), slot) == Left(ThreeCategories(kind, held).purchases, slot)
    {
      BothFlow(slot);
    }
  }

  lemma {:induction false} OneValue(m: map<string, i64>, id: string)
    requires m.Keys == {id}
    ensures SumMap(m) == m[id]
  {
    SumMapRemove(m, id);
    assert m - {id} == map[];
  }

  lemma {:induction false} TwoValues(m: map<string, i64>, x: string, y: string)
    requires m.Keys == {x, y} && x != y
    ensures SumMap(m) == (m[x] as int) + m[y]
  {
    SumMapRemove(m, x);
    OneValue(m - {x}, y);
  }

  lemma {:induction false} TwoLines()
    ensures Tallies(map["d" := 5 as i64, "e" := 3 as i64], ByCategory([(BUYER, 5 as i64), (CREDIT, 3 as i64)]))
  {
    var lines: seq<(string, i64)> := [("d", 5 as i64), ("e", 3 as i64)];
    assert ByCategory([(BUYER, 5 as i64), (CREDIT, 3 as i64)]) == lines;
    TwoValues(map["d" := 5 as i64, "e" := 3 as i64], "d", "e");
    hide SumMap, ByCategory;
    assert lines[0] in lines && lines[1] in lines && lines[1..] == [lines[1]] && |lines[1..][1..]| == 0;
    assert Total(lines[1..]) == 3 && forall id :: SumFor(lines[1..], id) == if id == "e" then 3 else 0;
  }

  lemma {:induction false} TwoCharges(kind: string, held: i64)
    ensures ChargesAggregated(ThreeCategories(kind, held), ThreeBudget(kind, held))
  {
    TwoLines();
    hide Tallies, Listing, ByCategory, StrictOrder, SlotLt;
    InOrder();
    assert ThreeCategories(kind, held).purchases.Keys == {BUYER, CREDIT};
    assert CategoryLines(ThreeCategories(kind, held).purchases) == [(BUYER, 5 as i64), (CREDIT, 3 as i64)];
    assert Units(ThreeBudget(kind, held).charges) == map["d" := 5 as i64, "e" := 3 as i64];
  }

  lemma {:induction false} AccountsMet()
    ensures ChargesAddUp(map["a" := Usd(8)], Usd(8))
  {
    Witness.OneLetter("a");
    OneValue(Units(map["a" := Usd(8)]), "a");
    hide Blank, SumMap;
  }

  lemma {:induction false} CategoriesMet()
    ensures ChargesAddUp(map["d" := Usd(5), "e" := Usd(3)], Usd(8))
  {
    Witness.OneLetter("d");
    Witness.OneLetter("e");
    TwoValues(Units(map["d" := Usd(5), "e" := Usd(3)]), "d", "e");
    hide Blank, SumMap;
  }

  lemma {:induction false} ChargesMet(kind: string, held: i64)
    ensures ChargesSound(ThreeRequest(kind, held))
  {
    AccountsMet();
    CategoriesMet();
    hide ChargesAddUp, ApprovedLines;
  }

  lemma {:induction false} OneLive()
    ensures Live(OneLedger(), "a") && CurrencyOf(OneLedger(), "a") == "USD" && AccountIn(OneLedger(), "a", "USD")
    ensures BalanceAfter(OneLedger(), [], "a") == 100 && KeysOf(OneLedger().accounts) == ["a"]
  {
    assert KeysOf(OneLedger().accounts) == ["a"] && KeysOf(OneLedger().accountFacts) == ["a"];
    assert KeysOf(OneLedger().accounts)[0] == "a" && KeysOf(OneLedger().accountFacts)[0] == "a";
  }

  lemma {:induction false} AddsUp()
    ensures PurchaseShape(Bought())
  {
    Witness.OneLetter("d");
    Witness.OneLetter("e");
    hide Blank;
    var amounts: seq<(string, i64)> := Planner.Amounts(Bought().splits);
    assert amounts == [("d", -5 as i64), ("e", -3 as i64)];
    assert amounts[1..] == [("e", -3 as i64)] && |amounts[1..][1..]| == 0;
    assert Total(amounts[1..][1..]) == 0;
  }

  lemma {:induction false} WellPut(kind: string, held: i64)
    ensures ManualShape(ThreeRequest(kind, held), Bought())
  {
    TwoDeltas();
    OneLive();
    AddsUp();
    Witness.OneLetter("t");
    Witness.OneLetter("k");
    hide Blank, ValidDate, Live, CurrencyOf, ApprovedLines, OneLedger, PurchaseShape, ThreeBudget;
  }

  lemma {:induction false} PayerReady(kind: string, held: i64)
    ensures AccountReady(ThreeRequest(kind, held), [], Bought())
  {
    OneLive();
    WellPut(kind, held);
    NothingSeen();
    assert Spent([], "a") == 0 && Sent([], "a") == 0;
    hide ManualShape, Live, CurrencyOf, AccountIn, BalanceAfter, ApprovedLines, OneLedger, ThreeBudget, SeenAfter;
  }

  lemma {:induction false} NothingSeen()
    ensures Fresh(SeenAfter(OneLedger(), []), Post(Bought()))
  {
    assert RowIds(OneLedger().transactions) == [] && OneLedger().transfers == [];
  }

  lemma {:induction false} Paid(kind: string, held: i64)
    ensures AccountsReady(ThreeRequest(kind, held), [Bought()])
  {
    PayerReady(kind, held);
    hide AccountReady, ApprovedLines, ThreeBudget;
    var steps := PostSteps([Bought()]);
    assert steps == [Post(Bought())] && steps[..0] == [];
    assert SpentInAll(steps) == 8;
    forall a
      ensures Spent(steps, a) == if a == "a" then 8 else 0
    {
      assert Spent([], a) == 0;
    }
  }

  lemma {:induction false} Posed(kind: string, held: i64)
    requires ValidCard(ThreeCategories(kind, held)) && Backed(ThreeCategories(kind, held)) && Headroom(ThreeCategories(kind, held))
    requires LedgerReady(ThreeRequest(kind, held), ThreeCategories(kind, held)) && Allocation(ThreeCategories(kind, held), OnePath())
    requires ChargesSound(ThreeRequest(kind, held)) && ChargesAggregated(ThreeCategories(kind, held), ThreeBudget(kind, held))
    ensures CardRequest(ThreeRequest(kind, held), ThreeCategories(kind, held), OnePath())
    ensures ThreeRequest(kind, held).budget == ThreeBudget(kind, held)
  {
    hide ValidCard, Backed, Headroom, LedgerReady, Allocation, ChargesSound, ChargesAggregated, ApprovedLines, ThreeBudget;
  }

  /**
   * Nothing else stands in the way: the whole action plans exactly when the donor's kind is neither "protected" nor
   * "goal" and the credit-payment category holds the three it has to pay.
   */
  lemma {:induction false} PlanRefused(kind: string, held: i64)
    requires held >= 0
    ensures Plannable(ThreeRequest(kind, held), CardAtoms(OnePath(), [Bought()]))
            <==> !IsKind(kind, "protected") && !IsKind(kind, "goal") && 3 <= held
  {
    Amounts(kind, held);
    hide *;
    Sound(kind, held);
    Allocates(kind, held);
    Ready(kind, held);
    TwoCharges(kind, held);
    ChargesMet(kind, held);
    BuysIt(kind, held);
    Paid(kind, held);
    OpenByKind(kind, held);
    CoveredByHeld(kind, held);
    Posed(kind, held);
    CardPlans(ThreeRequest(kind, held), ThreeCategories(kind, held), OnePath(), OnePath(), [Bought()]);
  }

  /** A plan, a goal donor, and a purchase that is not covered. */
  lemma {:induction false} ThreeCards()
    ensures Plannable(ThreeRequest("spending", 3), CardAtoms(OnePath(), [Bought()]))
    ensures !Plannable(ThreeRequest("Goal", 3), CardAtoms(OnePath(), [Bought()]))
    ensures !Plannable(ThreeRequest("spending", 2), CardAtoms(OnePath(), [Bought()]))
  {
    assert IsKind("Goal", "goal") && !IsKind("spending", "protected") && !IsKind("spending", "goal");
    hide *;
    PlanRefused("spending", 3);
    PlanRefused("Goal", 3);
    PlanRefused("spending", 2);
  }
}
