/**
 * The four-step wizard of the web client that creates a bot: strategy,
 * configuration, risk management and review. The step counter and the
 * form are state; the validation and the payload are functions of the
 * form. `Number(...)` on a text field is the oracle `number`.
 */
module BotWizardView {
  import opened Common

  const MarketBuy := "strategy-market-buy"
  const Grid := "strategy-grid"
  const Dca := "strategy-dca"

  const FirstStep := 1
  const LastStep := 4

  /** The wizard's form fields; numeric inputs of the grid and DCA strategies are kept as text. */
  datatype WizardForm = WizardForm(
    coin: string,
    strategy: string,
    amount: real,
    interval: string,
    takeProfit: string,
    stopLoss: string,
    trailingEnabled: bool,
    trailingDistance: string,
    gridLowerPrice: string,
    gridUpperPrice: string,
    gridCount: string,
    dcaCount: string,
    dcaDeviation: string,
    dcaScale: string)

  /** The form as the wizard opens. */
  function InitialForm(): (f: WizardForm)
    ensures f.coin == "BTC/USDT" && f.strategy == "" && f.amount == 100.0 && f.interval == "1h"
    ensures !f.trailingEnabled && f.trailingDistance == "2.5"
  {
    WizardForm("BTC/USDT", "", 100.0, "1h", "", "", false, "2.5", "", "", "10", "5", "2", "2")
  }

  // ------------------------------------------------------------ validation

  predicate Step1Valid(f: WizardForm)
  {
    f.coin != "" && f.strategy != ""
  }

  /** Without a wallet the balance is not checked. */
  predicate InsufficientBalance(f: WizardForm, available: Option<real>)
  {
    available.Some? && f.amount > available.value
  }

  predicate GridValid(f: WizardForm)
  {
    f.strategy != Grid || (f.gridLowerPrice != "" && f.gridUpperPrice != "" && f.gridCount != "")
  }

  predicate DcaValid(f: WizardForm)
  {
    f.strategy != Dca || (f.dcaCount != "" && f.dcaDeviation != "" && f.dcaScale != "")
  }

  predicate Step2Valid(f: WizardForm, available: Option<real>)
  {
    f.amount > 0.0 && (f.strategy != MarketBuy || !InsufficientBalance(f, available)) && GridValid(f) && DcaValid(f)
  }

  /**
   * The second step accepts the form exactly when the amount is positive, a
   * market buy fits the balance, and the selected grid or DCA strategy has
   * all its fields filled.
   */
  lemma Step2ValidIff(f: WizardForm, available: Option<real>)
    ensures Step2Valid(f, available) <==>
      f.amount > 0.0 &&
      (f.strategy == MarketBuy && available.Some? ==> f.amount <= available.value) &&
      (f.strategy == Grid ==> f.gridLowerPrice != "" && f.gridUpperPrice != "" && f.gridCount != "") &&
      (f.strategy == Dca ==> f.dcaCount != "" && f.dcaDeviation != "" && f.dcaScale != "")
  {
  }

  /**
   * Whether the Next button can be pressed: the footer is shown before the
   * last step, and the button checks the first step's validation on step 1
   * and the second step's on every later step.
   */
  predicate NextEnabled(step: int, f: WizardForm, available: Option<real>)
  {
    step < LastStep && (if step == FirstStep then Step1Valid(f) else Step2Valid(f, available))
  }

  /** The Back button is shown between the first and the last step. */
  predicate BackShown(step: int)
  {
    FirstStep < step < LastStep
  }

  // ------------------------------------------------------------ defaults

  /** The first strategy is picked when none is chosen and the list is not empty. */
  function DefaultStrategy(strategies: seq<string>, selected: string): (r: string)
    ensures selected != "" ==> r == selected
    ensures selected == "" && |strategies| > 0 ==> r == strategies[0]
    ensures r == "" ==> selected == "" && (|strategies| == 0 || strategies[0] == "")
  {
    if |strategies| > 0 && selected == "" then strategies[0] else selected
  }

  /** The interval a strategy starts with; other strategies keep the current one. */
  function IntervalFor(strategy: string, current: string): string
  {
    if strategy == MarketBuy then "1m"
    else if strategy == "strategy-golden-rose" then "1h"
    else if strategy == "strategy-golden-cross" then "4h"
    else if strategy == "strategy-sma-crossover" then "15m"
    else current
  }

  /**
   * For the four strategies with a default the interval no longer depends
   * on what was chosen before; for the others nothing changes; applying the
   * default twice is applying it once.
   */
  lemma IntervalForFacts(strategy: string, current: string, other: string)
    ensures strategy !in {MarketBuy, "strategy-golden-rose", "strategy-golden-cross", "strategy-sma-crossover"} ==>
              IntervalFor(strategy, current) == current
    ensures strategy in {MarketBuy, "strategy-golden-rose", "strategy-golden-cross", "strategy-sma-crossover"} ==>
              IntervalFor(strategy, current) == IntervalFor(strategy, other)
    ensures IntervalFor(strategy, IntervalFor(strategy, current)) == IntervalFor(strategy, current)
  {
  }

  // ------------------------------------------------------------ payload

  /** The body `handleStart` hands to the caller. */
  datatype BotPayload = BotPayload(
    symbol: string,
    strategyId: string,
    amount: real,
    interval: string,
    takeProfit: Option<real>,
    stopLoss: Option<real>,
    isTrailingStop: bool,
    trailingStopDistance: Option<real>,
    strategyParameters: Option<map<string, string>>)

  /** The strategy parameters: the grid's or the DCA's fields as text, none for any other strategy. */
  function StrategyParameters(f: WizardForm): Option<map<string, string>>
  {
    if f.strategy == Grid then
      Some(map["lowerPrice" := f.gridLowerPrice, "upperPrice" := f.gridUpperPrice, "gridCount" := f.gridCount])
    else if f.strategy == Dca then
      Some(map["dcaCount" := f.dcaCount, "priceDeviation" := f.dcaDeviation, "amountScale" := f.dcaScale])
    else None
  }

  /** `handleStart`'s payload. */
  function Payload(f: WizardForm, number: string -> real): BotPayload
  {
    BotPayload(f.coin, f.strategy, f.amount, f.interval,
               if f.takeProfit != "" then Some(number(f.takeProfit)) else None,
               if f.stopLoss != "" then Some(number(f.stopLoss)) else None,
               f.trailingEnabled,
               if f.trailingEnabled then Some(number(f.trailingDistance)) else None,
               StrategyParameters(f))
  }

  /**
   * An empty take-profit or stop-loss is sent as null, the trailing
   * distance only with a trailing stop, and strategy parameters only for
   * the grid and DCA strategies, with their three fields.
   */
  lemma PayloadFacts(f: WizardForm, number: string -> real)
    ensures var p := Payload(f, number);
      p.symbol == f.coin && p.strategyId == f.strategy && p.amount == f.amount && p.interval == f.interval &&
      (p.takeProfit.None? <==> f.takeProfit == "") && (p.stopLoss.None? <==> f.stopLoss == "") &&
      (p.trailingStopDistance.Some? <==> p.isTrailingStop) && p.isTrailingStop == f.trailingEnabled &&
      (p.strategyParameters.Some? <==> f.strategy == Grid || f.strategy == Dca) &&
      (f.strategy == Grid ==> p.strategyParameters.value.Keys == {"lowerPrice", "upperPrice", "gridCount"} &&
                              p.strategyParameters.value["lowerPrice"] == f.gridLowerPrice &&
                              p.strategyParameters.value["upperPrice"] == f.gridUpperPrice &&
                              p.strategyParameters.value["gridCount"] == f.gridCount) &&
      (f.strategy == Dca ==> p.strategyParameters.value.Keys == {"dcaCount", "priceDeviation", "amountScale"} &&
                             p.strategyParameters.value["dcaCount"] == f.dcaCount &&
                             p.strategyParameters.value["priceDeviation"] == f.dcaDeviation &&
                             p.strategyParameters.value["amountScale"] == f.dcaScale)
  {
  }

  // ------------------------------------------------------------ the wizard state

  class BotWizard {
    var step: int
    var form: WizardForm

    /** The step stays between the first and the last. */
    predicate Valid()
      reads this
    {
      FirstStep <= step <= LastStep
    }

    constructor ()
      ensures step == FirstStep && form == InitialForm()
      ensures Valid()
    {
      step := FirstStep;
      form := InitialForm();
    }

    /** The strategy list arrived: the first strategy is selected when none is. */
    method OnStrategies(strategies: seq<string>)
      modifies this
      ensures form == old(form).(strategy := DefaultStrategy(strategies, old(form).strategy))
      ensures step == old(step)
    {
      form := form.(strategy := DefaultStrategy(strategies, form.strategy));
    }

    /** A strategy was chosen: its default interval is applied. */
    method SelectStrategy(strategy: string)
      modifies this
      ensures form == old(form).(strategy := strategy, interval := IntervalFor(strategy, old(form).interval))
      ensures step == old(step)
    {
      form := form.(strategy := strategy, interval := IntervalFor(strategy, form.interval));
    }

    /** A click on Next: one step forward when the button is enabled, nothing otherwise. */
    method Next(available: Option<real>)
      requires Valid()
      modifies this
      ensures Valid() && form == old(form)
      ensures NextEnabled(old(step), form, available) ==> step == old(step) + 1
      ensures !NextEnabled(old(step), form, available) ==> step == old(step)
      ensures step > old(step) && old(step) == FirstStep ==> Step1Valid(form)
      ensures step > old(step) && old(step) > FirstStep ==> Step2Valid(form, available)
    {
      if NextEnabled(step, form, available) {
        step := step + 1;
      }
    }

    /** A click on Back: one step back when the button is shown, nothing otherwise. */
    method Back()
      requires Valid()
      modifies this
      ensures Valid() && form == old(form)
      ensures BackShown(old(step)) ==> step == old(step) - 1
      ensures !BackShown(old(step)) ==> step == old(step)
    {
      if BackShown(step) {
        step := step - 1;
      }
    }
  }

  /** After a step forward short of the review, Back is offered again. */
  lemma NextThenBack(step: int, f: WizardForm, available: Option<real>)
    requires FirstStep <= step && NextEnabled(step, f, available) && step + 1 < LastStep
    ensures BackShown(step + 1)
  {
  }

  /** The wizard reaches the review step only through a form the second step accepts. */
  lemma ReviewNeedsValidForm(step: int, f: WizardForm, available: Option<real>)
    requires NextEnabled(step, f, available) && step + 1 == LastStep
    ensures Step2Valid(f, available) && f.amount > 0.0
  {
  }
}
