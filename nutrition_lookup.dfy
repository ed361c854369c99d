/** `fetchNutritionFromLabel(label)`: a text search of the food database,
    then a detail request for the first food found, folded into one result
    value with a closed set of failures. The two HTTP exchanges are
    scripted inputs; the detail exchange is a function of the food id
    asked for, so the model shows which id the request carries. */
module NutritionLookup {
  import opened Wrappers
  import opened NutritionTypes
  import opened Http

  datatype FoodRecord = FoodRecord(fdcId: int)
  /** The search response: `{ foods?: [...] }`. */
  datatype SearchJson = SearchJson(foods: Option<seq<FoodRecord>>)
  /** `{ name?, unitName? }` nested under a nutrient. */
  datatype NestedNutrient = NestedNutrient(name: Option<string>, unitName: Option<string>)
  /** An element of `foodNutrients`: names and units may sit under
      `nutrient` or flat on the element. */
  datatype FoodNutrient = FoodNutrient(nutrient: Option<NestedNutrient>, name: Option<string>, amount: Amount, unitName: Option<string>)
  /** The detail response: `{ description?, foodNutrients?: [...] }`. */
  datatype DetailJson = DetailJson(description: Option<string>, foodNutrients: Option<seq<FoodNutrient>>)

  /** The two requests the lookup can make, in the order made. */
  datatype Request = SearchFoods(query: string) | FoodDetail(fdcId: int)

  datatype LookupError = SearchApiError | FoodNotFound | NutrientApiError | NoNutritionData | NetworkError

  /** `{ success: true, description, nutrients }` or `{ success: false, error, message }`. */
  datatype LookupResult =
    | Found(description: Option<string>, nutrients: seq<Nutrient>)
    | Failed(error: LookupError, message: string)

  datatype Lookup = Lookup(result: LookupResult, requests: seq<Request>)

  function ErrorCode(e: LookupError): string {
    match e
    case SearchApiError => "SEARCH_API_ERROR"
    case FoodNotFound => "FOOD_NOT_FOUND"
    case NutrientApiError => "NUTRIENT_API_ERROR"
    case NoNutritionData => "NO_NUTRITION_DATA"
    case NetworkError => "NETWORK_ERROR"
  }

  /** Each error kind has its own code. */
  lemma ErrorCodesDistinct(a: LookupError, b: LookupError)
    ensures ErrorCode(a) == ErrorCode(b) ==> a == b
  {
  }

  const SearchErrorMessage := "Unable to search for nutrition data. Please try again."
  const DetailErrorMessage := "Unable to get nutrition details. Please try again."
  const NetworkErrorMessage := "Network error while fetching nutrition data. Please check your connection."

  function NotFoundMessage(foodLabel: string): string {
    "Does not seem like food!, No nutrition data found for \"" + foodLabel + "\". Try taking a new photo."
  }

  function NoDataMessage(foodLabel: string): string {
    "No nutrition information available for \"" + foodLabel + "\"."
  }

  /** `part` occurs in `s`. */
  predicate Contains(s: string, part: string) {
    exists i :: 0 <= i <= |s| && part <= s[i..]
  }

  lemma NotFoundMessageMentions(foodLabel: string)
    ensures Contains(NotFoundMessage(foodLabel), "Does not seem like food")
    ensures Contains(NotFoundMessage(foodLabel), foodLabel)
  {
    var m := NotFoundMessage(foodLabel);
    var before := "Does not seem like food!, No nutrition data found for \"";
    assert m[0..] == m;
    assert "Does not seem like food" <= m;
    assert m[|before|..] == foodLabel + "\". Try taking a new photo.";
    assert foodLabel <= m[|before|..];
  }

  /** `searchJson.foods?.[0]`. */
  function FirstFood(j: SearchJson): Option<FoodRecord> {
    if j.foods.Some? && |j.foods.value| > 0 then Some(j.foods.value[0]) else None
  }

  /** The first food of a search that replied `ok` with a parsable body. */
  function SearchHit(search: Response<SearchJson>): Option<FoodRecord> {
    if OkJson(search) then FirstFood(search.body.json) else None
  }

  /** `n.nutrient?.name || n.name`, `n.amount`, `n.nutrient?.unitName || n.unitName`. */
  function ToNutrient(n: FoodNutrient): (r: Nutrient)
    ensures n.nutrient.Some? && Truthy(n.nutrient.value.name) ==> r.name == n.nutrient.value.name
    ensures !(n.nutrient.Some? && Truthy(n.nutrient.value.name)) ==> r.name == n.name
    ensures n.nutrient.Some? && Truthy(n.nutrient.value.unitName) ==> r.unit == n.nutrient.value.unitName
    ensures !(n.nutrient.Some? && Truthy(n.nutrient.value.unitName)) ==> r.unit == n.unitName
    ensures r.amount == n.amount
  {
    var nestedName := if n.nutrient.Some? then n.nutrient.value.name else None;
    var nestedUnit := if n.nutrient.Some? then n.nutrient.value.unitName else None;
    Nutrient(OrElse(nestedName, n.name), n.amount, OrElse(nestedUnit, n.unitName))
  }

  /** `foodNutrients.map(...)`: one nutrient per element, in order. */
  function ToNutrients(ns: seq<FoodNutrient>): (r: seq<Nutrient>)
    ensures |r| == |ns|
    ensures forall i :: 0 <= i < |ns| ==> r[i] == ToNutrient(ns[i])
  {
    seq(|ns|, i requires 0 <= i < |ns| => ToNutrient(ns[i]))
  }

  /** The nutrient list of a detail body: missing and empty are both "none". */
  predicate HasNutrients(d: DetailJson) {
    d.foodNutrients.Some? && |d.foodNutrients.value| > 0
  }

  /** The lookup. Failures are checked in the order `fetchNutritionFromLabel`
      tests them and the first that applies decides; a rejected fetch or an unparsable body anywhere
      is `NETWORK_ERROR`. The function is total: nothing escapes it. */
  function FetchNutritionFromLabel(foodLabel: string, search: Response<SearchJson>, detail: int -> Response<DetailJson>): (l: Lookup)
    // the search is always requested first; the detail request is made exactly when the search found a food, with its id
    ensures |l.requests| >= 1 && l.requests[0] == SearchFoods(foodLabel)
    ensures SearchHit(search).None? ==> l.requests == [SearchFoods(foodLabel)]
    ensures SearchHit(search).Some? ==> l.requests == [SearchFoods(foodLabel), FoodDetail(SearchHit(search).value.fdcId)]
    // the search's failures
    ensures search.Threw? ==> l.result == Failed(NetworkError, NetworkErrorMessage)
    ensures search.Replied? && !search.ok ==> l.result == Failed(SearchApiError, SearchErrorMessage)
    ensures search.Replied? && search.ok && search.body.Unparsable? ==> l.result == Failed(NetworkError, NetworkErrorMessage)
    ensures OkJson(search) && SearchHit(search).None? ==> l.result == Failed(FoodNotFound, NotFoundMessage(foodLabel))
    // the detail's failures
    ensures SearchHit(search).Some? ==>
      var d := detail(SearchHit(search).value.fdcId);
      && (d.Threw? ==> l.result == Failed(NetworkError, NetworkErrorMessage))
      && (d.Replied? && !d.ok ==> l.result == Failed(NutrientApiError, DetailErrorMessage))
      && (d.Replied? && d.ok && d.body.Unparsable? ==> l.result == Failed(NetworkError, NetworkErrorMessage))
      && (OkJson(d) && !HasNutrients(d.body.json) ==> l.result == Failed(NoNutritionData, NoDataMessage(foodLabel)))
    // success, exactly when both exchanges went through and the list is non-empty
    ensures l.result.Found? <==>
      SearchHit(search).Some? && OkJson(detail(SearchHit(search).value.fdcId))
      && HasNutrients(detail(SearchHit(search).value.fdcId).body.json)
    ensures l.result.Found? ==>
      var d := detail(SearchHit(search).value.fdcId).body.json;
      && l.result.description == d.description
      && l.result.nutrients == ToNutrients(d.foodNutrients.value)
      && |l.result.nutrients| > 0
  {
    var searched := [SearchFoods(foodLabel)];
    match search
    case Threw(_) => Lookup(Failed(NetworkError, NetworkErrorMessage), searched)
    case Replied(ok, body) =>
      if !ok then Lookup(Failed(SearchApiError, SearchErrorMessage), searched)
      else
        match body
        case Unparsable(_) => Lookup(Failed(NetworkError, NetworkErrorMessage), searched)
        case Json(j) =>
          match FirstFood(j)
          case None => Lookup(Failed(FoodNotFound, NotFoundMessage(foodLabel)), searched)
          case Some(food) =>
            var both := searched + [FoodDetail(food.fdcId)];
            match detail(food.fdcId)
            case Threw(_) => Lookup(Failed(NetworkError, NetworkErrorMessage), both)
            case Replied(detailOk, detailBody) =>
              if !detailOk then Lookup(Failed(NutrientApiError, DetailErrorMessage), both)
              else
                match detailBody
                case Unparsable(_) => Lookup(Failed(NetworkError, NetworkErrorMessage), both)
                case Json(d) =>
                  if !HasNutrients(d) then Lookup(Failed(NoNutritionData, NoDataMessage(foodLabel)), both)
                  else Lookup(Found(d.description, ToNutrients(d.foodNutrients.value)), both)
  }
}
