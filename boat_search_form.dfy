/** The boat-type filter: options built from the BoatType list, and the search event on selection. */
module SearchForm {
  import opened Common

  const ALL_TYPES_LABEL := "All Types"

  datatype BoatType = BoatType(Id: string, Name: string)

  /** A lightning-combobox option: the `label` and `value` properties of the option object. */
  datatype SearchOption = SearchOption(Label: string, Value: string)

  /** The error object the getBoatTypes wire adapter delivers. */
  datatype LoadError = LoadError(message: string)

  /** The `{error, data}` object handed to the wired method. */
  datatype TypesResult = TypesResult(error: Option<LoadError>, data: Option<seq<BoatType>>)

  /** A dispatched 'search' CustomEvent, by its detail. */
  datatype SearchEvent = SearchEvent(boatTypeId: string)

  /** `data.map(...)`: one option per boat type, labelled by its name and valued by its id, in input order. */
  function TypeOptions(types: seq<BoatType>): (r: seq<SearchOption>)
    ensures |r| == |types|
    ensures forall i :: 0 <= i < |types| ==> r[i].Label == types[i].Name && r[i].Value == types[i].Id
  {
    if types == [] then [] else [SearchOption(types[0].Name, types[0].Id)] + TypeOptions(types[1..])
  }

  /** The option list after the synthetic "All Types" option (empty value) is unshifted. */
  function SearchOptions(types: seq<BoatType>): (r: seq<SearchOption>)
    ensures |r| == |types| + 1
    ensures r[0] == SearchOption(ALL_TYPES_LABEL, "")
    ensures forall i :: 0 <= i < |types| ==> r[i + 1] == SearchOption(types[i].Name, types[i].Id)
  {
    [SearchOption(ALL_TYPES_LABEL, "")] + TypeOptions(types)
  }

  /** Reads the boat types back from their options. */
  function TypesOf(options: seq<SearchOption>): seq<BoatType> {
    if options == [] then [] else [BoatType(options[0].Value, options[0].Label)] + TypesOf(options[1..])
  }

  /** No boat type is lost or reordered: the options after "All Types" give back the input list. */
  lemma {:induction false} OptionsRoundTrip(types: seq<BoatType>)
    ensures TypesOf(SearchOptions(types)[1..]) == types
  {
    assert SearchOptions(types)[1..] == TypeOptions(types);
    TypeOptionsRoundTrip(types);
  }

  lemma {:induction false} TypeOptionsRoundTrip(types: seq<BoatType>)
    ensures TypesOf(TypeOptions(types)) == types
  {
    if types != [] {
      assert TypeOptions(types)[1..] == TypeOptions(types[1..]);
      TypeOptionsRoundTrip(types[1..]);
    }
  }

  /** The BoatSearchForm component. */
  class BoatSearchForm {
    var selectedBoatTypeId: string
    var error: Option<LoadError>
    var searchOptions: Option<seq<SearchOption>>
    /** 'search' events dispatched so far. */
    ghost var searchEvents: seq<SearchEvent>

    /** The option list, once loaded, starts with "All Types"; the last search event carries the current selection. */
    ghost predicate Valid()
      reads this
    {
      && (searchOptions.Some? ==> |searchOptions.value| >= 1 && searchOptions.value[0] == SearchOption(ALL_TYPES_LABEL, ""))
      && (searchEvents != [] ==> searchEvents[|searchEvents| - 1].boatTypeId == selectedBoatTypeId)
    }

    constructor ()
      ensures Valid()
      ensures selectedBoatTypeId == "" && error == None && searchOptions == None && searchEvents == []
    {
      selectedBoatTypeId := "";
      error := None;
      searchOptions := None;
      searchEvents := [];
    }

    /** The wired method for getBoatTypes: data wins over error; with neither, nothing changes. */
    method BoatTypes(result: TypesResult)
      requires Valid()
      modifies this`searchOptions, this`error
      ensures Valid()
      ensures searchOptions ==
        if result.data.Some? then Some(SearchOptions(result.data.value))
        else if result.error.Some? then None
        else old(searchOptions)
      ensures error == if result.data.None? && result.error.Some? then result.error else old(error)
    {
      if result.data.Some? {
        searchOptions := Some(TypeOptions(result.data.value));
        searchOptions := Some([SearchOption(ALL_TYPES_LABEL, "")] + searchOptions.value);
      } else if result.error.Some? {
        searchOptions := None;
        error := result.error;
      }
    }

    /** Records the chosen type and dispatches one 'search' event carrying it. */
    method HandleSearchOptionChange(value: string)
      requires Valid()
      modifies this`selectedBoatTypeId, this`searchEvents
      ensures Valid()
      ensures selectedBoatTypeId == value
      ensures searchEvents == old(searchEvents) + [SearchEvent(value)]
    {
      selectedBoatTypeId := value;
      searchEvents := searchEvents + [SearchEvent(selectedBoatTypeId)];
    }
  }

  /** Loading the types and then choosing one: the list offers "All Types" first and the selection is the chosen id. */
  method LoadThenChoose(types: seq<BoatType>, k: nat) returns (options: Option<seq<SearchOption>>, selected: string)
    requires k < |types|
    ensures options == Some(SearchOptions(types))
    ensures selected == types[k].Id
  {
    var form := new BoatSearchForm();
    form.BoatTypes(TypesResult(None, Some(types)));
    form.HandleSearchOptionChange(form.searchOptions.value[k + 1].Value);
    options, selected := form.searchOptions, form.selectedBoatTypeId;
  }
}
