/**
 * The USSD menu walker. A gateway sends, on every key press, the whole text
 * dialled so far in the session ("2*1*1500"); the walker splits it on `*`,
 * dispatches on the first choice and then on the path's length and later
 * choices, and answers with a reply that either continues the session (CON)
 * or ends it (END).
 *
 * A reply is modelled as its leading word, an abstract screen (with the
 * numbers the screen computes) and its separate "action" field; the
 * multi-line texts themselves are not modelled.
 */
module Ussd {
  import opened Wrappers
  import opened JsText

  /** The first word of a reply's text: CON keeps the session open, END closes it. */
  datatype Kind = Con | End

  /** The reply's "action" field: "continue" or "end". */
  datatype Action = Continue | EndSession

  /** The three prompts of the PIN change dialogue. */
  datatype PinStep = CurrentPin | NewPin | ConfirmPin

  datatype Screen =
    // top level
    | MainMenu | Goodbye | UnknownService
    // error screens shared by the sub-menus
    | InvalidOption | InvalidAmount | InvalidInput
    // 1. Check Balance
    | BalanceSummary(balance: int, monthlyEarnings: int, savings: int, expenses: int)
    | DetailedBreakdown | WeeklySummary | SummarySent(phoneNumber: string)
    // 2. Add Income
    | IncomeMenu | IncomeAmountPrompt(incomeType: string)
    | IncomeAdded(recordedType: Option<string>, amount: int, newBalance: int)
    // 3. View Expenses
    | ExpensesSummary | ExpenseTypeMenu | ExpenseAmountPrompt(expenseType: string)
    | ExpenseAdded(expense: int, remainingBudget: int)
    | ExpenseCategories | WeeklyExpenses
    // 4. AI Insights
    | InsightsMenu | IncomeForecast | OptimizationTips | RiskAlerts | GoalProgress
    // 5. Set Goals
    | GoalsMenu | CurrentGoals | NewGoalMenu | GoalAmountPrompt(goalType: string)
    | GoalMonthsPrompt(goalAmount: int) | InvalidTimeframe
    | GoalCreated(target: Option<int>, months: int, monthlyTarget: Option<int>)
    | ProgressUpdate | GoalInsights
    // 6. Security
    | SecurityMenu | AccountStatus | RecentActivity
    | PinPrompt(step: PinStep) | InvalidPinFormat | PinMismatch | PinChanged
    | BlockConfirm | AccountBlocked | SecurityTips
    // 7. Help
    | HelpMenu | HowToUse | FeaturesGuide | Troubleshooting | ContactSupport | PricingInfo | TermsPrivacy

  datatype Response = Response(kind: Kind, screen: Screen, action: Action)

  /** A reply is well formed when a CON text travels with "continue" and an END text with "end". */
  predicate Consistent(r: Response) {
    (r.kind == Con) == (r.action == Continue)
  }

  /** What the income dialogue remembers between key presses. */
  datatype UserData = UserData(incomeType: string)

  datatype Session = Session(
    sessionId: string,
    phoneNumber: string,
    currentMenu: string,
    userData: Option<UserData>,
    step: int)

  /** A reply together with the session as the handler left it. */
  datatype Outcome = Outcome(response: Response, session: Session)

  // The fixed figures the menus show and compute with.
  const MockBalance: int := 45280
  const MockMonthlyEarnings: int := 45280
  const MockSavings: int := 8500
  const MockExpenses: int := 36780
  const MonthlyBudget: int := 60000

  const IncomeTypes: map<string, string> :=
    map["1" := "Uber/Bolt Ride", "2" := "Delivery Service", "3" := "Other Transport", "4" := "Manual Entry"]
  const ExpenseTypes: map<string, string> :=
    map["1" := "Fuel", "2" := "Food", "3" := "Maintenance", "4" := "Phone/Data", "5" := "Other"]
  const GoalTypes: map<string, string> :=
    map["1" := "Savings Goal", "2" := "Income Target", "3" := "Expense Limit", "4" := "Investment Goal"]

  /**
   * The menu-table lookup as the code writes it, `table[key]` on a plain object,
   * tested for truthiness: besides the table's own keys it also finds the
   * names every object inherits.
   */
  const ObjectPrototypeKeys: set<string> := {
    "constructor", "__proto__", "hasOwnProperty", "isPrototypeOf", "propertyIsEnumerable",
    "toString", "toLocaleString", "valueOf",
    "__defineGetter__", "__defineSetter__", "__lookupGetter__", "__lookupSetter__"
  }

  predicate FoundAsWritten(table: map<string, string>, key: string) {
    (key in table && table[key] != "") || key in ObjectPrototypeKeys
  }

  /** `Number.parseInt(segment)` when it is a number above zero; None for NaN or <= 0. */
  function PositiveAmount(segment: string): (r: Option<int>)
    ensures r.Some? <==> ParseInt(segment).Some? && ParseInt(segment).value > 0
    ensures r.Some? ==> r.value == ParseInt(segment).value
  {
    var n := ParseInt(segment);
    if n.Some? && n.value > 0 then n else None
  }

  /** Math.ceil(a / m) for a positive m. */
  function CeilDiv(a: int, m: int): (r: int)
    requires m > 0
    ensures m * (r - 1) < a <= m * r
  {
    (a + m - 1) / m
  }

  /** A PIN entry passes the format check when it has four characters and parseInt reads a number from it. */
  predicate PinFormatOk(pin: string) {
    |pin| == 4 && ParseInt(pin).Some?
  }

  // ---------------------------------------------------------------------------
  // The handlers, one per top-level choice
  // ---------------------------------------------------------------------------

  function HandleBalanceMenu(session: Session, path: seq<string>): (r: Response)
    requires |path| >= 1
    ensures Consistent(r)
  {
    if |path| == 1 then
      Response(Con, BalanceSummary(MockBalance, MockMonthlyEarnings, MockSavings, MockExpenses), Continue)
    else if path[1] == "1" then Response(End, DetailedBreakdown, EndSession)
    else if path[1] == "2" then Response(End, WeeklySummary, EndSession)
    else if path[1] == "3" then Response(End, SummarySent(session.phoneNumber), EndSession)
    else if path[1] == "0" then Response(Con, MainMenu, Continue)
    else Response(End, InvalidOption, EndSession)
  }

  /** The income type the session remembers, if any (`session.userData?.incomeType`). */
  function RecordedIncomeType(session: Session): Option<string> {
    if session.userData.Some? then Some(session.userData.value.incomeType) else None
  }

  function HandleIncomeMenu(session: Session, path: seq<string>): (o: Outcome)
    requires |path| >= 1
    ensures Consistent(o.response)
    ensures o.session.(userData := session.userData) == session
  {
    if |path| == 1 then
      Outcome(Response(Con, IncomeMenu, Continue), session)
    else if |path| == 2 && Lookup(IncomeTypes, path[1]).Some? then
      var selected := Lookup(IncomeTypes, path[1]).value;
      Outcome(Response(Con, IncomeAmountPrompt(selected), Continue),
              session.(userData := Some(UserData(selected))))
    else if |path| == 3 then
      var amount := PositiveAmount(path[2]);
      if amount.None? then
        Outcome(Response(End, InvalidAmount, EndSession), session)
      else
        Outcome(Response(End, IncomeAdded(RecordedIncomeType(session), amount.value, MockBalance + amount.value), EndSession),
                session)
    else
      Outcome(Response(End, InvalidInput, EndSession), session)
  }

  function HandleExpensesMenu(path: seq<string>): (r: Response)
    requires |path| >= 1
    ensures Consistent(r)
  {
    if |path| == 1 then Response(Con, ExpensesSummary, Continue)
    else if path[1] == "1" then
      if |path| == 2 then Response(Con, ExpenseTypeMenu, Continue)
      else if |path| == 3 && Lookup(ExpenseTypes, path[2]).Some? then
        Response(Con, ExpenseAmountPrompt(Lookup(ExpenseTypes, path[2]).value), Continue)
      else if |path| == 4 then
        var amount := PositiveAmount(path[3]);
        if amount.None? then Response(End, InvalidAmount, EndSession)
        else Response(End, ExpenseAdded(amount.value, MonthlyBudget - MockExpenses - amount.value), EndSession)
      else Response(End, InvalidOption, EndSession)
    else if path[1] == "2" then Response(End, ExpenseCategories, EndSession)
    else if path[1] == "3" then Response(End, WeeklyExpenses, EndSession)
    else Response(End, InvalidOption, EndSession)
  }

  function HandleAIInsightsMenu(path: seq<string>): (r: Response)
    requires |path| >= 1
    ensures Consistent(r)
  {
    if |path| == 1 then Response(Con, InsightsMenu, Continue)
    else if path[1] == "1" then Response(End, IncomeForecast, EndSession)
    else if path[1] == "2" then Response(End, OptimizationTips, EndSession)
    else if path[1] == "3" then Response(End, RiskAlerts, EndSession)
    else if path[1] == "4" then Response(End, GoalProgress, EndSession)
    else Response(End, InvalidOption, EndSession)
  }

  function HandleGoalsMenu(path: seq<string>): (r: Response)
    requires |path| >= 1
    ensures Consistent(r)
  {
    if |path| == 1 then Response(Con, GoalsMenu, Continue)
    else if path[1] == "1" then Response(End, CurrentGoals, EndSession)
    else if path[1] == "2" then
      if |path| == 2 then Response(Con, NewGoalMenu, Continue)
      else if |path| == 3 && Lookup(GoalTypes, path[2]).Some? then
        Response(Con, GoalAmountPrompt(Lookup(GoalTypes, path[2]).value), Continue)
      else if |path| == 4 then
        var amount := PositiveAmount(path[3]);
        if amount.None? then Response(End, InvalidAmount, EndSession)
        else Response(Con, GoalMonthsPrompt(amount.value), Continue)
      else if |path| == 5 then
        var months := ParseInt(path[4]);
        var amount := ParseInt(path[3]);
        if months.None? || months.value <= 0 then Response(End, InvalidTimeframe, EndSession)
        else
          var monthly := if amount.Some? then Some(CeilDiv(amount.value, months.value)) else None;
          Response(End, GoalCreated(amount, months.value, monthly), EndSession)
      else Response(End, InvalidOption, EndSession)
    else if path[1] == "3" then Response(End, ProgressUpdate, EndSession)
    else if path[1] == "4" then Response(End, GoalInsights, EndSession)
    else Response(End, InvalidOption, EndSession)
  }

  function HandleSecurityMenu(path: seq<string>): (r: Response)
    requires |path| >= 1
    ensures Consistent(r)
  {
    if |path| == 1 then Response(Con, SecurityMenu, Continue)
    else if path[1] == "1" then Response(End, AccountStatus, EndSession)
    else if path[1] == "2" then Response(End, RecentActivity, EndSession)
    else if path[1] == "3" then
      if |path| == 2 then Response(Con, PinPrompt(CurrentPin), Continue)
      else if |path| == 3 then
        if !PinFormatOk(path[2]) then Response(End, InvalidPinFormat, EndSession)
        else Response(Con, PinPrompt(NewPin), Continue)
      else if |path| == 4 then
        if !PinFormatOk(path[3]) then Response(End, InvalidPinFormat, EndSession)
        else Response(Con, PinPrompt(ConfirmPin), Continue)
      else if |path| == 5 then
        if path[3] != path[4] then Response(End, PinMismatch, EndSession)
        else Response(End, PinChanged, EndSession)
      else Response(End, InvalidOption, EndSession)
    else if path[1] == "4" then
      if |path| == 2 then Response(Con, BlockConfirm, Continue)
      else if path[2] == "1" then Response(End, AccountBlocked, EndSession)
      else Response(End, InvalidOption, EndSession)
    else if path[1] == "5" then Response(End, SecurityTips, EndSession)
    else Response(End, InvalidOption, EndSession)
  }

  function HandleHelpMenu(path: seq<string>): (r: Response)
    requires |path| >= 1
    ensures Consistent(r)
  {
    if |path| == 1 then Response(Con, HelpMenu, Continue)
    else if path[1] == "1" then Response(End, HowToUse, EndSession)
    else if path[1] == "2" then Response(End, FeaturesGuide, EndSession)
    else if path[1] == "3" then Response(End, Troubleshooting, EndSession)
    else if path[1] == "4" then Response(End, ContactSupport, EndSession)
    else if path[1] == "5" then Response(End, PricingInfo, EndSession)
    else if path[1] == "6" then Response(End, TermsPrivacy, EndSession)
    else Response(End, InvalidOption, EndSession)
  }

  /** The dispatch on the first menu choice. */
  function Route(session: Session, path: seq<string>): (o: Outcome)
    requires |path| >= 1
    ensures Consistent(o.response)
    ensures o.session.(userData := session.userData) == session
  {
    var choice := path[0];
    if choice == "1" then Outcome(HandleBalanceMenu(session, path), session)
    else if choice == "2" then HandleIncomeMenu(session, path)
    else if choice == "3" then Outcome(HandleExpensesMenu(path), session)
    else if choice == "4" then Outcome(HandleAIInsightsMenu(path), session)
    else if choice == "5" then Outcome(HandleGoalsMenu(path), session)
    else if choice == "6" then Outcome(HandleSecurityMenu(path), session)
    else if choice == "7" then Outcome(HandleHelpMenu(path), session)
    else if choice == "0" then Outcome(Response(End, Goodbye, EndSession), session)
    else Outcome(Response(End, UnknownService, EndSession), session)
  }

  /**
   * One request: empty text shows the main menu; otherwise the text is split
   * on `*` and routed. Every reply is consistent, and a handler touches no
   * session field other than userData.
   */
  function HandleRequest(session: Session, text: string): (o: Outcome)
    ensures Consistent(o.response)
    ensures o.session.(userData := session.userData) == session
    ensures text == "" ==> o == Outcome(Response(Con, MainMenu, Continue), session)
  {
    if text == "" then Outcome(Response(Con, MainMenu, Continue), session)
    else Route(session, Split(text))
  }

  // ---------------------------------------------------------------------------
  // The dialled text and the menu path
  // ---------------------------------------------------------------------------

  predicate StarFree(path: seq<string>) {
    forall i :: 0 <= i < |path| ==> Star !in path[i]
  }

  /** Dialling the star-joined path reaches the route for exactly that path. */
  lemma HandleJoin(session: Session, path: seq<string>)
    requires |path| >= 1 && StarFree(path) && (|path| >= 2 || path[0] != "")
    ensures HandleRequest(session, Join(path)) == Route(session, path)
  {
    SplitJoin(path);
    if |path| >= 2 {
      assert Join(path) == path[0] + [Star] + Join(path[1..]);
      assert Join(path)[|path[0]|] == Star;
    }
  }

  /** A first choice of "2" is answered by the income menu alone. */
  lemma RouteIncome(session: Session, path: seq<string>)
    requires |path| >= 1 && path[0] == "2"
    ensures Route(session, path) == HandleIncomeMenu(session, path)
  {
  }

  lemma RouteExpenses(session: Session, path: seq<string>)
    requires |path| >= 1 && path[0] == "3"
    ensures Route(session, path) == Outcome(HandleExpensesMenu(path), session)
  {
  }

  lemma RouteGoals(session: Session, path: seq<string>)
    requires |path| >= 1 && path[0] == "5"
    ensures Route(session, path) == Outcome(HandleGoalsMenu(path), session)
  {
  }

  lemma RouteSecurity(session: Session, path: seq<string>)
    requires |path| >= 1 && path[0] == "6"
    ensures Route(session, path) == Outcome(HandleSecurityMenu(path), session)
  {
  }

  /** Dialling a path that starts with "2" reaches the income menu with that path. */
  lemma DialIncome(session: Session, path: seq<string>)
    requires |path| >= 1 && StarFree(path) && path[0] == "2"
    ensures HandleRequest(session, Join(path)) == HandleIncomeMenu(session, path)
  {
    HandleJoin(session, path);
    RouteIncome(session, path);
  }

  lemma DialExpenses(session: Session, path: seq<string>)
    requires |path| >= 1 && StarFree(path) && path[0] == "3"
    ensures HandleRequest(session, Join(path)) == Outcome(HandleExpensesMenu(path), session)
  {
    HandleJoin(session, path);
    RouteExpenses(session, path);
  }

  lemma DialGoals(session: Session, path: seq<string>)
    requires |path| >= 1 && StarFree(path) && path[0] == "5"
    ensures HandleRequest(session, Join(path)) == Outcome(HandleGoalsMenu(path), session)
  {
    HandleJoin(session, path);
    RouteGoals(session, path);
  }

  lemma DialSecurity(session: Session, path: seq<string>)
    requires |path| >= 1 && StarFree(path) && path[0] == "6"
    ensures HandleRequest(session, Join(path)) == Outcome(HandleSecurityMenu(path), session)
  {
    HandleJoin(session, path);
    RouteSecurity(session, path);
  }

  /**
   * Choice "0" says goodbye; a first choice outside "0" to "7", including an
   * empty one in front of a star (`*5`), is refused. Both end the session.
   */
  lemma TopLevelExitAndInvalid(session: Session, path: seq<string>)
    requires |path| >= 1 && StarFree(path) && (|path| >= 2 || path[0] != "")
    requires path[0] !in {"1", "2", "3", "4", "5", "6", "7"}
    ensures var o := HandleRequest(session, Join(path));
      && o.session == session
      && o.response == (if path[0] == "0" then Response(End, Goodbye, EndSession)
                        else Response(End, UnknownService, EndSession))
  {
    HandleJoin(session, path);
  }

  /**
   * "2*t": a known income type prompts for the amount and becomes the
   * session's income type; anything else ends with "Invalid input" and
   * leaves the session alone.
   */
  lemma IncomeTypeChosen(session: Session, t: string)
    requires Star !in t
    ensures var o := HandleRequest(session, Join(["2", t]));
      if t in IncomeTypes then
        && o.response == Response(Con, IncomeAmountPrompt(IncomeTypes[t]), Continue)
        && o.session == session.(userData := Some(UserData(IncomeTypes[t])))
      else
        o == Outcome(Response(End, InvalidInput, EndSession), session)
  {
    DialIncome(session, ["2", t]);
  }

  /**
   * "2*t*a": an amount that parses to NaN or to at most 0 is refused;
   * otherwise the new balance is 45280 plus the amount. The income type
   * segment is not looked at on this step: the type shown is the one
   * the session remembers.
   */
  lemma IncomeAmountEntered(session: Session, t: string, a: string)
    requires Star !in t && Star !in a
    ensures var o := HandleRequest(session, Join(["2", t, a]));
      var n := ParseInt(a);
      && o.session == session
      && (n.None? || n.value <= 0 ==> o.response == Response(End, InvalidAmount, EndSession))
      && (n.Some? && n.value > 0 ==>
            o.response == Response(End, IncomeAdded(RecordedIncomeType(session), n.value, 45280 + n.value), EndSession))
  {
    DialIncome(session, ["2", t, a]);
  }

  /** "3*1*t*a": a positive amount leaves 60000 - 36780 - amount of the month's budget. */
  lemma ExpenseAmountEntered(session: Session, t: string, a: string)
    requires Star !in t && Star !in a
    ensures var o := HandleRequest(session, Join(["3", "1", t, a]));
      var n := ParseInt(a);
      && o.session == session
      && (n.None? || n.value <= 0 ==> o.response == Response(End, InvalidAmount, EndSession))
      && (n.Some? && n.value > 0 ==>
            o.response == Response(End, ExpenseAdded(n.value, 60000 - 36780 - n.value), EndSession))
  {
    var path := ["3", "1", t, a];
    DialExpenses(session, path);
    ExpensesMenuAmount(path);
  }

  /** The amount step of the add-expense dialogue, on the expenses menu itself. */
  lemma ExpensesMenuAmount(path: seq<string>)
    requires |path| == 4 && path[1] == "1"
    ensures var amount := PositiveAmount(path[3]);
      HandleExpensesMenu(path) ==
        if amount.None? then Response(End, InvalidAmount, EndSession)
        else Response(End, ExpenseAdded(amount.value, MonthlyBudget - MockExpenses - amount.value), EndSession)
  {
  }

  /**
   * "5*2*g*a*m": months that parse to NaN or to at most 0 are refused;
   * otherwise the goal is created with the target parseInt(a) and the monthly
   * target ceil(amount / months) (no monthly target when the amount is NaN).
   * The amount is parsed again but not checked again.
   */
  lemma GoalTimeframeEntered(session: Session, g: string, a: string, m: string)
    requires Star !in g && Star !in a && Star !in m
    ensures var o := HandleRequest(session, Join(["5", "2", g, a, m]));
      var months := ParseInt(m);
      var amount := ParseInt(a);
      && o.session == session
      && (months.None? || months.value <= 0 ==> o.response == Response(End, InvalidTimeframe, EndSession))
      && (months.Some? && months.value > 0 ==>
            && o.response.kind == End && o.response.action == EndSession
            && o.response.screen.GoalCreated?
            && o.response.screen.target == amount
            && o.response.screen.months == months.value
            && o.response.screen.monthlyTarget ==
                 (if amount.Some? then Some(CeilDiv(amount.value, months.value)) else None))
  {
    var path := ["5", "2", g, a, m];
    DialGoals(session, path);
    GoalsMenuTimeframe(path);
  }

  /** The last step of the new-goal dialogue, on the goals menu itself. */
  lemma GoalsMenuTimeframe(path: seq<string>)
    requires |path| == 5 && path[1] == "2"
    ensures var months := ParseInt(path[4]);
      var amount := ParseInt(path[3]);
      HandleGoalsMenu(path) ==
        if months.None? || months.value <= 0 then Response(End, InvalidTimeframe, EndSession)
        else Response(End, GoalCreated(amount, months.value,
                                       if amount.Some? then Some(CeilDiv(amount.value, months.value)) else None),
                      EndSession)
  {
  }

  /** "6*3*c": the current PIN must have four characters and start (after blanks and a sign) with a digit. */
  lemma PinCurrentEntered(session: Session, c: string)
    requires Star !in c
    ensures HandleRequest(session, Join(["6", "3", c])).response ==
      if |c| == 4 && ParseInt(c).Some? then Response(Con, PinPrompt(NewPin), Continue)
      else Response(End, InvalidPinFormat, EndSession)
  {
    DialSecurity(session, ["6", "3", c]);
  }

  /** "6*3*c*p": only the new PIN is checked on this step, by the same format rule. */
  lemma PinNewEntered(session: Session, c: string, p: string)
    requires Star !in c && Star !in p
    ensures HandleRequest(session, Join(["6", "3", c, p])).response ==
      if |p| == 4 && ParseInt(p).Some? then Response(Con, PinPrompt(ConfirmPin), Continue)
      else Response(End, InvalidPinFormat, EndSession)
  {
    DialSecurity(session, ["6", "3", c, p]);
  }

  /** "6*3*c*p*q": the change succeeds exactly when the confirmation equals the new PIN. */
  lemma PinConfirmed(session: Session, c: string, p: string, q: string)
    requires Star !in c && Star !in p && Star !in q
    ensures HandleRequest(session, Join(["6", "3", c, p, q])).response ==
      if p == q then Response(End, PinChanged, EndSession) else Response(End, PinMismatch, EndSession)
  {
    DialSecurity(session, ["6", "3", c, p, q]);
  }

  /** "6*4*1" followed by anything at all blocks the account. */
  lemma BlockAccount(session: Session, rest: seq<string>)
    requires StarFree(rest)
    ensures HandleRequest(session, Join(["6", "4", "1"] + rest)).response == Response(End, AccountBlocked, EndSession)
  {
    DialSecurity(session, ["6", "4", "1"] + rest);
  }

  /**
   * The amount is not checked again on the last goal step: an amount with no
   * digit at all (say "5*2*1*abc*6") still creates the goal, with a NaN target
   * and a NaN monthly target.
   */
  lemma GoalAmountNotRechecked(session: Session, g: string, a: string, m: string)
    requires Star !in g && Star !in a && Star !in m
    requires forall i :: 0 <= i < |a| ==> !IsDigit(a[i])
    requires ParseInt(m).Some? && ParseInt(m).value > 0
    ensures HandleRequest(session, Join(["5", "2", g, a, m])).response ==
      Response(End, GoalCreated(None, ParseInt(m).value, None), EndSession)
  {
    ParseIntWithoutDigits(a);
    GoalTimeframeEntered(session, g, a, m);
  }

  /**
   * The PIN format check accepts any four characters that begin with a digit,
   * or with a sign and a digit: parseInt only needs a leading number, so
   * "12ab" and "-123" pass.
   */
  lemma PinFormatAcceptsLeadingNumber(pin: string)
    requires |pin| == 4
    requires IsDigit(pin[0]) || ((pin[0] == '-' || pin[0] == '+') && IsDigit(pin[1]))
    ensures PinFormatOk(pin)
  {
    assert !IsJsSpace(pin[0]);
    assert TrimStart(pin) == pin;
    var u := Unsigned(pin);
    assert u != [] && IsDigit(u[0]);
    assert LeadingDigits(u) != [];
  }

  /** The PIN format check refuses an entry of any other length, and one with no digit at all. */
  lemma PinFormatRejects(pin: string)
    requires |pin| != 4 || forall i :: 0 <= i < |pin| ==> !IsDigit(pin[i])
    ensures !PinFormatOk(pin)
  {
    if |pin| == 4 {
      ParseIntWithoutDigits(pin);
    }
  }

  /** The table lookup the model uses accepts exactly the menu's own keys. */
  lemma TypeTablesOwnKeys(key: string)
    ensures Lookup(IncomeTypes, key).Some? <==> key in {"1", "2", "3", "4"}
    ensures Lookup(ExpenseTypes, key).Some? <==> key in {"1", "2", "3", "4", "5"}
    ensures Lookup(GoalTypes, key).Some? <==> key in {"1", "2", "3", "4"}
  {
  }

  /** As written, "constructor" also passes the income, expense and goal type checks. */
  lemma InheritedKeyFoundAsWritten()
    ensures FoundAsWritten(IncomeTypes, "constructor") && Lookup(IncomeTypes, "constructor").None?
    ensures FoundAsWritten(ExpenseTypes, "constructor") && Lookup(ExpenseTypes, "constructor").None?
    ensures FoundAsWritten(GoalTypes, "constructor") && Lookup(GoalTypes, "constructor").None?
  {
  }

  // ---------------------------------------------------------------------------
  // The session map kept between requests
  // ---------------------------------------------------------------------------

  function NewSession(sessionId: string, phoneNumber: string): Session {
    Session(sessionId, phoneNumber, "main", None, 0)
  }

  /** `sessions.get(sessionId) || { sessionId, phoneNumber, currentMenu: "main", step: 0 }`. */
  function GetOrCreate(sessions: map<string, Session>, sessionId: string, phoneNumber: string): (s: Session)
    ensures sessionId in sessions ==> s == sessions[sessionId]
    ensures sessionId !in sessions ==>
      s.sessionId == sessionId && s.phoneNumber == phoneNumber && s.currentMenu == "main"
      && s.userData.None? && s.step == 0
  {
    if sessionId in sessions then sessions[sessionId] else NewSession(sessionId, phoneNumber)
  }

  class SessionStore {
    var sessions: map<string, Session>

    /** Every stored session is filed under its own id. */
    ghost predicate Valid()
      reads this
    {
      forall id :: id in sessions ==> sessions[id].sessionId == id
    }

    constructor ()
      ensures Valid() && sessions == map[]
    {
      sessions := map[];
    }

    /**
     * The POST handler: fetch or create the session, answer the text, and
     * store the session back under its id. Nothing else in the map changes,
     * and a stored session keeps its phone number, menu and step.
     */
    method Post(sessionId: string, phoneNumber: string, text: string) returns (response: Response)
      requires Valid()
      modifies this
      ensures Valid()
      ensures var o := HandleRequest(GetOrCreate(old(sessions), sessionId, phoneNumber), text);
        response == o.response && sessions == old(sessions)[sessionId := o.session]
      ensures Consistent(response)
      ensures sessionId in old(sessions) ==>
        sessions[sessionId].(userData := old(sessions)[sessionId].userData) == old(sessions)[sessionId]
    {
      var session := GetOrCreate(sessions, sessionId, phoneNumber);
      var outcome := HandleRequest(session, text);
      sessions := sessions[sessionId := outcome.session];
      response := outcome.response;
    }
  }
}
