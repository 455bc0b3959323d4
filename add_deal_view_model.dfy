/**
 * `AddDealViewModel`: the add-deal form. Each edit event overwrites one text
 * field and refreshes the analysis; `buildDeal` turns the text fields into a
 * `Deal`; Save builds the deal and hands it to the deal store. Coroutine
 * launches run here as synchronous steps. The text parsers, the random id
 * draw and the clock are parameters.
 */
module AddDeal {
  import opened Wrappers
  import opened Domain
  import opened Text
  import opened Analyzer
  import AreaStatsRepository
  import opened DealRepository

  datatype AddDealState = AddDealState(
    dealId: string,
    title: string,
    area: string,
    bedrooms: string,
    sizeSqft: string,
    askingPrice: string,
    expectedRent: string,
    serviceCharge: string,
    additionalCosts: string,
    areaStats: seq<AreaStats>,
    assumptions: Option<Assumptions>,
    analysis: Option<DealAnalysis>,
    isSaving: bool,
    saveSuccess: bool
  )

  /** `AddDealState()` with every default argument. */
  const InitialState: AddDealState :=
    AddDealState("", "", "", "", "", "", "", "", "", [], None, None, false, false)

  datatype AddDealEvent =
    | TitleChanged(value: string)
    | AreaChanged(value: string)
    | BedroomsChanged(value: string)
    | SizeChanged(value: string)
    | AskingPriceChanged(value: string)
    | ExpectedRentChanged(value: string)
    | ServiceChargeChanged(value: string)
    | AdditionalCostsChanged(value: string)
    | Save

  /** The text fields of the form. */
  datatype FormField =
    DealId | Title | Area | Bedrooms | Size | AskingPrice | ExpectedRent | ServiceCharge | AdditionalCosts

  function FieldText(s: AddDealState, f: FormField): string {
    match f
    case DealId => s.dealId
    case Title => s.title
    case Area => s.area
    case Bedrooms => s.bedrooms
    case Size => s.sizeSqft
    case AskingPrice => s.askingPrice
    case ExpectedRent => s.expectedRent
    case ServiceCharge => s.serviceCharge
    case AdditionalCosts => s.additionalCosts
  }

  /** The field an edit event names. */
  function EditedField(e: AddDealEvent): FormField
    requires !e.Save?
  {
    match e
    case TitleChanged(_) => Title
    case AreaChanged(_) => Area
    case BedroomsChanged(_) => Bedrooms
    case SizeChanged(_) => Size
    case AskingPriceChanged(_) => AskingPrice
    case ExpectedRentChanged(_) => ExpectedRent
    case ServiceChargeChanged(_) => ServiceCharge
    case AdditionalCostsChanged(_) => AdditionalCosts
  }

  /** The `copy(...)` each edit event makes of the state. */
  function WithEdit(s: AddDealState, e: AddDealEvent): AddDealState
    requires !e.Save?
  {
    match e
    case TitleChanged(v) => s.(title := v)
    case AreaChanged(v) => s.(area := v)
    case BedroomsChanged(v) => s.(bedrooms := v)
    case SizeChanged(v) => s.(sizeSqft := v)
    case AskingPriceChanged(v) => s.(askingPrice := v)
    case ExpectedRentChanged(v) => s.(expectedRent := v)
    case ServiceChargeChanged(v) => s.(serviceCharge := v)
    case AdditionalCostsChanged(v) => s.(additionalCosts := v)
  }

  /** An edit sets the field it names to its value and leaves every other field and flag as it was. */
  lemma EditSetsOnlyItsField(s: AddDealState, e: AddDealEvent)
    requires !e.Save?
    ensures var s' := WithEdit(s, e);
            && FieldText(s', EditedField(e)) == e.value
            && (forall f :: f != EditedField(e) ==> FieldText(s', f) == FieldText(s, f))
            && s'.areaStats == s.areaStats && s'.assumptions == s.assumptions
            && s'.analysis == s.analysis && s'.isSaving == s.isSaving && s'.saveSuccess == s.saveSuccess
  {
  }

  /** The form starts with every text field empty, no reference data, no analysis and both flags down. */
  lemma InitialStateIsBlank()
    ensures forall f :: FieldText(InitialState, f) == ""
    ensures InitialState.areaStats == [] && InitialState.assumptions == None && InitialState.analysis == None
    ensures !InitialState.isSaving && !InitialState.saveSuccess
  {
  }

  /** `String.toDoubleOrNull` and `String.toIntOrNull`. */
  datatype Parsers = Parsers(toDoubleOrNull: string -> Option<real>, toIntOrNull: string -> Option<int>)

  /**
   * `buildDeal`: no deal iff size, price or rent fails to parse; otherwise
   * bedrooms default to 0, unparsable costs become absent, an empty title
   * becomes "New Deal" and an empty id the six-digit text of `draw`.
   */
  function BuildDeal(s: AddDealState, parse: Parsers, draw: nat, now: int): (r: Option<Deal>)
    requires IsIdDraw(draw)
    ensures r.None? <==>
      || parse.toDoubleOrNull(s.sizeSqft).None?
      || parse.toDoubleOrNull(s.askingPrice).None?
      || parse.toDoubleOrNull(s.expectedRent).None?
    ensures r.Some? ==>
      && Some(r.value.sizeSqft) == parse.toDoubleOrNull(s.sizeSqft)
      && Some(r.value.askingPrice) == parse.toDoubleOrNull(s.askingPrice)
      && Some(r.value.expectedRentPerYear) == parse.toDoubleOrNull(s.expectedRent)
      && (parse.toIntOrNull(s.bedrooms).None? ==> r.value.bedrooms == 0)
      && (parse.toIntOrNull(s.bedrooms).Some? ==> r.value.bedrooms == parse.toIntOrNull(s.bedrooms).value)
      && r.value.serviceChargePerYear == parse.toDoubleOrNull(s.serviceCharge)
      && r.value.additionalCostsPerYear == parse.toDoubleOrNull(s.additionalCosts)
      && r.value.title == (if s.title == "" then "New Deal" else s.title)
      && r.value.id != ""
      && (s.dealId != "" ==> r.value.id == s.dealId)
      && (s.dealId == "" ==> |r.value.id| == 6 && IsDigits(r.value.id) && DecimalValue(r.value.id) == draw)
      && r.value.area == s.area
      && r.value.createdAtMillis == now
  {
    var bedrooms := parse.toIntOrNull(s.bedrooms).GetOr(0);
    var size := parse.toDoubleOrNull(s.sizeSqft);
    var price := parse.toDoubleOrNull(s.askingPrice);
    var rent := parse.toDoubleOrNull(s.expectedRent);
    if size.None? || price.None? || rent.None? then None
    else
      Some(Deal(
        if s.dealId == "" then GenerateId(draw) else s.dealId,
        if s.title == "" then "New Deal" else s.title,
        s.area,
        bedrooms,
        size.value,
        price.value,
        rent.value,
        parse.toDoubleOrNull(s.serviceCharge),
        parse.toDoubleOrNull(s.additionalCosts),
        now))
  }

  /** The benchmark `updateAnalysis` picks: the first loaded entry whose area equals the form's ignoring case. */
  function Benchmark(s: AddDealState): Option<AreaStats> {
    AreaStatsRepository.FirstForArea(s.areaStats, s.area)
  }

  /** The analysis `updateAnalysis` computes, if any. */
  function AnalysisFor(s: AddDealState, parse: Parsers, draw: nat, now: int): Option<DealAnalysis>
    requires IsIdDraw(draw)
  {
    match BuildDeal(s, parse, draw, now)
    case None => None
    case Some(deal) =>
      match s.assumptions
      case None => None
      case Some(a) => Some(Analyze(deal, Benchmark(s), a))
  }

  /**
   * An analysis is produced iff the deal builds and assumptions are loaded;
   * it does not depend on the id draw or the clock.
   */
  lemma AnalysisForSpec(s: AddDealState, parse: Parsers, draw1: nat, now1: int, draw2: nat, now2: int)
    requires IsIdDraw(draw1) && IsIdDraw(draw2)
    ensures AnalysisFor(s, parse, draw1, now1).Some? <==>
      BuildDeal(s, parse, draw1, now1).Some? && s.assumptions.Some?
    ensures AnalysisFor(s, parse, draw1, now1).Some? ==>
      AnalysisFor(s, parse, draw1, now1).value
        == Analyze(BuildDeal(s, parse, draw1, now1).value, Benchmark(s), s.assumptions.value)
    ensures AnalysisFor(s, parse, draw1, now1) == AnalysisFor(s, parse, draw2, now2)
  {
    var d1 := BuildDeal(s, parse, draw1, now1);
    var d2 := BuildDeal(s, parse, draw2, now2);
    if d1.Some? && s.assumptions.Some? {
      AnalysisInputsUsed(d1.value, d2.value, Benchmark(s), Benchmark(s), s.assumptions.value, s.assumptions.value);
    }
  }

  /** The state after `updateAnalysis`: the new analysis if there is one, else the state as it was. */
  function Refreshed(s: AddDealState, parse: Parsers, draw: nat, now: int): AddDealState
    requires IsIdDraw(draw)
  {
    match AnalysisFor(s, parse, draw, now)
    case None => s
    case Some(a) => s.(analysis := Some(a))
  }

  /** The form's view model, holding the store that Save writes to. */
  class AddDealViewModel {
    var state: AddDealState
    const store: DealStore

    ghost predicate Valid()
      reads this, store
    {
      store.Valid()
    }

    constructor (store: DealStore)
      requires store.Valid()
      ensures Valid() && this.store == store
      ensures state == InitialState
    {
      this.store := store;
      state := InitialState;
    }

    /** The `init` block: store the loaded areas and assumptions, then refresh the analysis. */
    method Load(areas: seq<AreaStats>, assumptions: Assumptions, parse: Parsers, draw: nat, now: int)
      requires IsIdDraw(draw)
      modifies this
      ensures state == Refreshed(old(state).(areaStats := areas, assumptions := Some(assumptions)), parse, draw, now)
    {
      state := state.(areaStats := areas, assumptions := Some(assumptions));
      UpdateAnalysis(parse, draw, now);
    }

    method UpdateAnalysis(parse: Parsers, draw: nat, now: int)
      requires IsIdDraw(draw)
      modifies this
      ensures state == Refreshed(old(state), parse, draw, now)
    {
      var deal := BuildDeal(state, parse, draw, now);
      if deal.None? {
        return;
      }
      var areaStat := Benchmark(state);
      if state.assumptions.None? {
        return;
      }
      var analysis := Analyze(deal.value, areaStat, state.assumptions.value);
      state := state.(analysis := Some(analysis));
    }

    /**
     * `save`: when the deal does not build, nothing changes; otherwise
     * isSaving is raised, the deal is saved, and the flags end as
     * isSaving = false, saveSuccess = true, the saved deal being what its
     * id now finds.
     */
    method SaveForm(parse: Parsers, draw: nat, now: int)
      requires Valid() && IsIdDraw(draw)
      modifies this, store
      ensures Valid()
      ensures BuildDeal(old(state), parse, draw, now).None? ==>
        state == old(state) && store.deals == old(store.deals)
      ensures BuildDeal(old(state), parse, draw, now).Some? ==>
        var deal := BuildDeal(old(state), parse, draw, now).value;
        && state == old(state).(isSaving := false, saveSuccess := true)
        && store.deals == Upsert(old(store.deals), deal, GenerateId(draw))
        && FindById(store.deals, deal.id) == Some(deal)
    {
      var deal := BuildDeal(state, parse, draw, now);
      if deal.Some? {
        state := state.(isSaving := true);
        store.SaveDeal(deal.value, draw);
        SaveThenFind(old(store.deals), deal.value, GenerateId(draw));
        state := state.(isSaving := false, saveSuccess := true);
      }
    }

    /** `onEvent`: an edit overwrites its field and refreshes the analysis; Save saves and does not refresh. */
    method OnEvent(e: AddDealEvent, parse: Parsers, draw: nat, now: int)
      requires Valid() && IsIdDraw(draw)
      modifies this, store
      ensures Valid()
      ensures !e.Save? ==>
        state == Refreshed(WithEdit(old(state), e), parse, draw, now) && store.deals == old(store.deals)
      ensures e.Save? && BuildDeal(old(state), parse, draw, now).None? ==>
        state == old(state) && store.deals == old(store.deals)
      ensures e.Save? && BuildDeal(old(state), parse, draw, now).Some? ==>
        && state == old(state).(isSaving := false, saveSuccess := true)
        && store.deals == Upsert(old(store.deals), BuildDeal(old(state), parse, draw, now).value, GenerateId(draw))
    {
      if e.Save? {
        SaveForm(parse, draw, now);
      } else {
        state := WithEdit(state, e);
        UpdateAnalysis(parse, draw, now);
      }
    }
  }
}
