/** The search-results dropdown: a trailing-edge debounced place lookup for
    the current query, the `places`/`isLoading`/`error` state that the
    lookup's outcome updates, and the choice of what the dropdown shows.

    Time is a counter advanced by explicit `Elapse` events; the debounce
    timer is the pending lookup with the time it falls due; the network is
    the outcome handed to `LookupSettled`. Lookups already sent are never
    cancelled and their outcomes are applied in whatever order they arrive. */
module SearchResultsDropdown {
  import opened Js

  const DebounceMs: nat := 300
  const FetchFailedMessage := "Failed to fetch places"
  const SearchFailedMessage := "Failed to search places"

  // ---------------------------------------------------------------------
  // Places and their labels

  /** Coordinates are floating point in the source; here they are carried, never computed with. */
  datatype LatLng = LatLng(lat: real, lng: real)

  datatype Place = Place(
    id: string,
    name: string,
    address: string,
    location: LatLng,
    rating: Option<real>,
    priceLevel: Option<nat>,
    types: seq<string>)

  /** `formatPriceLevel`: nothing for no level, otherwise one `$` per level. */
  function FormatPriceLevel(level: Option<nat>): (r: string)
    ensures level.None? ==> r == ""
    ensures level.Some? ==> |r| == level.value && forall i :: 0 <= i < |r| ==> r[i] == '$'
  {
    match level
    case None => ""
    case Some(n) => Repeat('$', n)
  }

  const GenericTypes: seq<string> := ["establishment", "point_of_interest", "geocode"]

  /** `types.filter(type => !GenericTypes.includes(type))`: exactly the
      non-generic types are kept. */
  function RelevantTypes(types: seq<string>): (r: seq<string>)
    ensures forall i :: 0 <= i < |r| ==> r[i] in types && r[i] !in GenericTypes
    ensures forall t :: t in types && t !in GenericTypes ==> t in r
  {
    if types == [] then []
    else if types[0] in GenericTypes then RelevantTypes(types[1..])
    else [types[0]] + RelevantTypes(types[1..])
  }

  /** The filter keeps the order: its first element is the first
      non-generic type. */
  lemma {:induction false} RelevantTypesHead(types: seq<string>, k: nat)
    requires k < |types| && types[k] !in GenericTypes
    requires forall j :: 0 <= j < k ==> types[j] in GenericTypes
    ensures RelevantTypes(types) != [] && RelevantTypes(types)[0] == types[k]
    decreases k
  {
    if k > 0 {
      assert types[0] in GenericTypes;
      forall j | 0 <= j < k - 1 ensures types[1..][j] in GenericTypes {
        assert types[1..][j] == types[j + 1];
      }
      RelevantTypesHead(types[1..], k - 1);
    }
  }

  /** `getPlaceType`: the first non-generic type, else the first type, else
      "location", where each step also skips an empty string. */
  function GetPlaceType(types: seq<string>): (kind: string)
    ensures kind != ""
    ensures kind == "location" || kind in types
  {
    var relevant := RelevantTypes(types);
    if relevant != [] && relevant[0] != "" then relevant[0]
    else if types != [] && types[0] != "" then types[0]
    else "location"
  }

  /** The label is the first non-generic type when that one is not empty. */
  lemma GetPlaceTypeChoice(types: seq<string>, k: nat)
    requires k < |types| && types[k] !in GenericTypes && types[k] != ""
    requires forall j :: 0 <= j < k ==> types[j] in GenericTypes
    ensures GetPlaceType(types) == types[k]
  {
    RelevantTypesHead(types, k);
  }

  /** No usable type gives "location": `[]` and `[""]` alike. */
  lemma GetPlaceTypeWithoutUsableType()
    ensures GetPlaceType([]) == "location"
    ensures GetPlaceType([""]) == "location"
  {
    assert "" !in GenericTypes;
    assert RelevantTypes([""]) == [""];
  }

  /** Types that are all generic give the first type as the label. */
  lemma GetPlaceTypeOnlyGeneric(types: seq<string>)
    requires types != [] && types[0] != ""
    requires forall i :: 0 <= i < |types| ==> types[i] in GenericTypes
    ensures GetPlaceType(types) == types[0]
  {
  }

  /** The price next to a place's name, as the source renders it:
      `place.priceLevel && formatPriceLevel(place.priceLevel)`. A level of 0
      is falsy, so the expression is the number 0 and the text "0" appears. */
  function PriceTextAsWritten(level: Option<nat>): Option<string> {
    match level
    case None => None
    case Some(0) => Some("0")
    case Some(n) => Some(FormatPriceLevel(level))
  }

  /** A price level of 0 (free) puts "0" next to the name instead of nothing
      or dollar signs. */
  lemma PriceLevelZeroShowsDigit()
    ensures PriceTextAsWritten(Some(0)) == Some("0")
    ensures PriceTextAsWritten(Some(0)).value != FormatPriceLevel(Some(0))
  {
  }

  /** The price text as evidently intended: dollar signs when there is a
      positive level, nothing otherwise. */
  function PriceText(level: Option<nat>): (r: Option<string>)
    ensures r.Some? <==> level.Some? && level.value > 0
    ensures r.Some? ==> r.value == FormatPriceLevel(level) && r.value != ""
                        && forall i :: 0 <= i < |r.value| ==> r.value[i] == '$'
  {
    if level.Some? && level.value > 0 then Some(FormatPriceLevel(level)) else None
  }

  /** The two agree on every level except 0. */
  lemma PriceTextDiffersOnlyAtZero(level: Option<nat>)
    ensures PriceText(level) == PriceTextAsWritten(level) <==> level != Some(0)
  {
  }

  // ---------------------------------------------------------------------
  // Lookup outcomes

  /** A value thrown by `fetch` or `response.json()`. */
  datatype Thrown = ErrorInstance(message: string) | NonError

  /** The body of an ok response: the `places` field (absent or null is
      `None`), or a body that is not JSON. */
  datatype Body = Json(places: Option<seq<Place>>) | NotJson(thrown: Thrown)

  datatype FetchOutcome = Responded(ok: bool, body: Body) | Rejected(thrown: Thrown)

  datatype LookupResult = Loaded(places: seq<Place>) | LookupFailed(message: string)

  /** The message the catch block records. */
  function MessageOf(t: Thrown): string {
    match t
    case ErrorInstance(m) => m
    case NonError => SearchFailedMessage
  }

  /** The try/catch of the lookup: an ok JSON response yields its places (or
      none); a response that is not ok throws "Failed to fetch places"; any
      other failure records the thrown error's message. */
  function Interpret(o: FetchOutcome): (r: LookupResult)
    ensures r.Loaded? <==> o.Responded? && o.ok && o.body.Json?
    ensures r.Loaded? ==> r.places == o.body.places.GetOr([])
    ensures o.Responded? && !o.ok ==> r == LookupFailed(FetchFailedMessage)
    ensures o.Responded? && o.ok && o.body.NotJson? ==> r == LookupFailed(MessageOf(o.body.thrown))
    ensures o.Rejected? ==> r == LookupFailed(MessageOf(o.thrown))
  {
    match o
    case Responded(ok, body) =>
      if !ok then LookupFailed(MessageOf(ErrorInstance(FetchFailedMessage)))
      else (match body
            case Json(ps) => Loaded(ps.GetOr([]))
            case NotJson(t) => LookupFailed(MessageOf(t)))
    case Rejected(t) => LookupFailed(MessageOf(t))
  }

  // ---------------------------------------------------------------------
  // State and events

  datatype PendingLookup = PendingLookup(query: string, due: nat)

  datatype DropdownState = DropdownState(
    query: string,                   // prop
    isVisible: bool,                 // prop
    places: seq<Place>,
    isLoading: bool,
    error: Option<string>,
    now: nat,                        // milliseconds since mount
    pending: Option<PendingLookup>,  // the scheduled debounce timer
    lookups: seq<string>,            // queries sent to the places endpoint, in order
    inFlight: nat)                   // lookups sent and not yet settled

  datatype Event =
    | Change(query: string, isVisible: bool)
    | Elapse(ms: nat)
    | TimerFired
    | LookupSettled(outcome: FetchOutcome)

  /** The debounced-search effect: its cleanup clears the previous timer;
      then a blank query (one whose `trim()` is empty, see
      `IsBlankIff`) or a hidden dropdown empties the list, and anything
      else schedules a lookup for this query 300 ms from now. */
  function RunEffect(s: DropdownState): DropdownState {
    var cleared := s.(pending := None);
    if IsBlank(s.query) || !s.isVisible then cleared.(places := [])
    else cleared.(pending := Some(PendingLookup(s.query, s.now + DebounceMs)))
  }

  /** The state right after mounting, when the effect has run once. */
  function Mount(query: string, isVisible: bool): DropdownState {
    RunEffect(DropdownState(query, isVisible, [], false, None, 0, None, [], 0))
  }

  predicate Due(s: DropdownState) {
    s.pending.Some? && s.pending.value.due <= s.now
  }

  /** The timer callback up to its `await`: loading on, error cleared, the
      lookup sent for the query captured when the timer was scheduled. */
  function Fire(s: DropdownState): DropdownState
    requires s.pending.Some?
  {
    s.(isLoading := true, error := None, lookups := s.lookups + [s.pending.value.query],
       inFlight := s.inFlight + 1, pending := None)
  }

  /** The rest of the callback once the lookup settles, with `finally`
      turning loading off. */
  function Settle(s: DropdownState, o: FetchOutcome): DropdownState
    requires s.inFlight > 0
  {
    var t := match Interpret(o)
      case Loaded(ps) => s.(places := ps)
      case LookupFailed(m) => s.(error := Some(m), places := []);
    t.(isLoading := false, inFlight := s.inFlight - 1)
  }

  /** The state after one event. The effect runs only when a prop actually
      changed; a timer that is not due, or a settlement with nothing in
      flight, cannot happen and changes nothing. */
  function Step(s: DropdownState, e: Event): DropdownState {
    match e
    case Change(q, v) =>
      if q == s.query && v == s.isVisible then s else RunEffect(s.(query := q, isVisible := v))
    case Elapse(ms) => s.(now := s.now + ms)
    case TimerFired => if Due(s) then Fire(s) else s
    case LookupSettled(o) => if s.inFlight == 0 then s else Settle(s, o)
  }

  /** A scheduled lookup is always for the current query, which is not
      blank, of a visible dropdown, and falls due within 300 ms; loading
      means some lookup is still in flight. */
  predicate Valid(s: DropdownState) {
    && (s.pending.Some? ==>
          && s.pending.value.query == s.query && !IsBlank(s.query) && s.isVisible
          && s.pending.value.due <= s.now + DebounceMs)
    && (s.isLoading ==> s.inFlight > 0)
  }

  lemma MountIsValid(query: string, isVisible: bool)
    ensures Valid(Mount(query, isVisible))
  {
  }

  lemma StepKeepsValid(s: DropdownState, e: Event)
    requires Valid(s)
    ensures Valid(Step(s, e))
  {
    match e
    case Change(q, v) =>
    case Elapse(ms) =>
    case TimerFired =>
      if Due(s) {
        FireIsStep(s);
      }
    case LookupSettled(o) =>
      if s.inFlight > 0 {
        assert Step(s, e) == Settle(s, o);
      }
  }

  /** A blank query or a hidden dropdown empties the list and leaves nothing
      scheduled, while the loading flag and the error stay as they were and
      the dropdown shows nothing. */
  lemma BlankOrHiddenClears(s: DropdownState, q: string, v: bool)
    requires q != s.query || v != s.isVisible
    requires IsBlank(q) || !v
    ensures var t := Step(s, Change(q, v));
      t.places == [] && t.pending.None? && t.isLoading == s.isLoading && t.error == s.error
      && t.lookups == s.lookups && Render(t) == Hidden
  {
  }

  /** A due timer of a valid state fires, sends the current query and
      keeps the state valid. */
  lemma FireIsStep(s: DropdownState)
    requires Valid(s) && Due(s)
    ensures Step(s, TimerFired) == Fire(s)
    ensures Valid(Fire(s)) && Fire(s).lookups == s.lookups + [s.query]
  {
  }

  /** A lookup starts only when its timer is due, and it is for the current
      query; it turns loading on and clears the error. That the timer falls
      due 300 ms after the last change is shown for a burst of typing by
      `BurstSendsNoLookup` and `QuietPeriodSendsOneLookup`. */
  lemma FiredLookupIsForCurrentQuery(s: DropdownState)
    requires Valid(s) && Due(s)
    ensures var t := Step(s, TimerFired);
      t.lookups == s.lookups + [s.query] && t.isLoading && t.error == None
      && t.pending.None? && t.query == s.query
  {
  }

  /** A settled lookup turns loading off; success sets the places from the
      response, failure empties them and records the message. */
  lemma SettleOutcome(s: DropdownState, o: FetchOutcome)
    requires s.inFlight > 0
    ensures var t := Step(s, LookupSettled(o));
      !t.isLoading && t.inFlight == s.inFlight - 1
      && (o.Responded? && o.ok && o.body.Json? ==> t.places == o.body.places.GetOr([]) && t.error == s.error)
      && (o.Responded? && !o.ok ==> t.places == [] && t.error == Some(FetchFailedMessage))
      && (o.Responded? && o.ok && o.body.NotJson? ==> t.places == [] && t.error == Some(MessageOf(o.body.thrown)))
      && (o.Rejected? ==> t.places == [] && t.error == Some(MessageOf(o.thrown)))
  {
  }

  /** There is no guard against out-of-order responses: of two lookups in
      flight, whichever settles last decides the list, even when it is the
      older one. */
  lemma LastSettledLookupWins(s: DropdownState, older: seq<Place>, newer: seq<Place>)
    requires s.inFlight >= 2
    ensures var t := Step(Step(s, LookupSettled(Responded(true, Json(Some(newer))))),
                          LookupSettled(Responded(true, Json(Some(older)))));
      t.places == older && !t.isLoading
  {
  }

  // ---------------------------------------------------------------------
  // Debounce

  /** Typing: for each query in turn, the query changes, `gaps[i]` ms pass,
      and the timer gets its chance to fire. */
  function Typing(s: DropdownState, qs: seq<string>, gaps: seq<nat>): DropdownState
    requires |gaps| == |qs|
    decreases |qs|
  {
    if qs == [] then s
    else Typing(Step(Step(Step(s, Change(qs[0], true)), Elapse(gaps[0])), TimerFired), qs[1..], gaps[1..])
  }

  /** Where a burst of typing leaves the dropdown: visible, on the last
      query, with a timer for it when it is not blank that is not yet due. */
  predicate Waiting(t: DropdownState, q: string) {
    && t.query == q && t.isVisible
    && (t.pending.Some? <==> !IsBlank(q))
    && (t.pending.Some? ==> t.pending.value.query == q
                            && t.now < t.pending.value.due <= t.now + DebounceMs)
  }

  /** Changes of the query less than 300 ms apart send no lookup at all. */
  lemma {:induction false} BurstSendsNoLookup(s: DropdownState, qs: seq<string>, gaps: seq<nat>)
    requires |gaps| == |qs| && qs != []
    requires qs[0] != s.query || !s.isVisible
    requires forall i :: 0 < i < |qs| ==> qs[i] != qs[i - 1]
    requires forall i :: 0 <= i < |gaps| ==> gaps[i] < DebounceMs
    ensures Typing(s, qs, gaps).lookups == s.lookups
    ensures Waiting(Typing(s, qs, gaps), qs[|qs| - 1])
    decreases |qs|
  {
    var a := Step(s, Change(qs[0], true));
    assert a == RunEffect(s.(query := qs[0], isVisible := true));
    var b := Step(a, Elapse(gaps[0]));
    assert b == a.(now := a.now + gaps[0]);
    assert !Due(b);
    var s1 := Step(b, TimerFired);
    assert s1 == b;
    assert s1.lookups == s.lookups && Waiting(s1, qs[0]);
    if |qs| == 1 {
      assert Typing(s1, qs[1..], gaps[1..]) == s1;
    } else {
      forall i | 0 < i < |qs[1..]| ensures qs[1..][i] != qs[1..][i - 1] {
        assert qs[1..][i] == qs[i + 1] && qs[1..][i - 1] == qs[i];
      }
      forall i | 0 <= i < |gaps[1..]| ensures gaps[1..][i] < DebounceMs {
        assert gaps[1..][i] == gaps[i + 1];
      }
      assert qs[1..][0] == qs[1] != qs[0];
      BurstSendsNoLookup(s1, qs[1..], gaps[1..]);
      assert qs[1..][|qs[1..]| - 1] == qs[|qs| - 1];
    }
  }

  /** After the burst, 300 quiet ms let exactly one lookup go out, for the
      last query — or none when that query is blank. */
  lemma QuietPeriodSendsOneLookup(s: DropdownState, qs: seq<string>, gaps: seq<nat>)
    requires |gaps| == |qs| && qs != []
    requires qs[0] != s.query || !s.isVisible
    requires forall i :: 0 < i < |qs| ==> qs[i] != qs[i - 1]
    requires forall i :: 0 <= i < |gaps| ==> gaps[i] < DebounceMs
    ensures var last := qs[|qs| - 1];
      var t := Step(Step(Typing(s, qs, gaps), Elapse(DebounceMs)), TimerFired);
      t.lookups == s.lookups + (if !IsBlank(last) then [last] else [])
  {
    BurstSendsNoLookup(s, qs, gaps);
    var b := Typing(s, qs, gaps);
    var w := Step(b, Elapse(DebounceMs));
    assert w == b.(now := b.now + DebounceMs);
    if b.pending.Some? {
      assert Due(w);
      assert Step(w, TimerFired) == Fire(w);
    } else {
      assert Step(w, TimerFired) == w;
    }
  }

  // ---------------------------------------------------------------------
  // What the dropdown shows

  datatype PlaceItem = PlaceItem(name: string, address: string, price: Option<string>, typeLabel: string)

  datatype View =
    | Hidden
    | Searching
    | ErrorView(message: string)
    | NoPlacesFound(query: string)
    | PlaceList(items: seq<PlaceItem>)

  /** One entry of the list; its price is the corrected `PriceText`. */
  function Item(p: Place): PlaceItem {
    PlaceItem(p.name, p.address, PriceText(p.priceLevel), GetPlaceType(p.types))
  }

  /** Nothing for a hidden dropdown or a blank query; otherwise loading wins
      over a (non-empty) error, which wins over "No places found" for the
      query, which wins over the list, one item per place in order. */
  function Render(s: DropdownState): (v: View)
    ensures v == Hidden <==> !s.isVisible || IsBlank(s.query)
    ensures v == Searching <==> v != Hidden && s.isLoading
    ensures v.ErrorView? <==> v != Hidden && !s.isLoading && Truthy(s.error)
    ensures v.ErrorView? ==> v.message == s.error.value
    ensures v.NoPlacesFound? <==> v != Hidden && !s.isLoading && !Truthy(s.error) && s.places == []
    ensures v.NoPlacesFound? ==> v.query == s.query
    ensures v.PlaceList? ==> |v.items| == |s.places|
                             && forall i :: 0 <= i < |s.places| ==> v.items[i] == Item(s.places[i])
  {
    if !s.isVisible || IsBlank(s.query) then Hidden
    else if s.isLoading then Searching
    else if Truthy(s.error) then ErrorView(s.error.value)
    else if |s.places| == 0 then NoPlacesFound(s.query)
    else PlaceList(seq(|s.places|, i requires 0 <= i < |s.places| => Item(s.places[i])))
  }

  /** An error with an empty message is falsy: when the last lookup in
      flight fails that way, the dropdown says "No places found" instead of
      showing an error. */
  lemma EmptyErrorMessageShowsNoPlaces(s: DropdownState)
    requires s.inFlight == 1 && s.isVisible && !IsBlank(s.query)
    ensures var t := Step(s, LookupSettled(Rejected(ErrorInstance(""))));
      t.error == Some("") && Render(t) == NoPlacesFound(s.query)
  {
  }

  // ---------------------------------------------------------------------
  // The component

  class Dropdown {
    var query: string
    var isVisible: bool
    var places: seq<Place>
    var isLoading: bool
    var error: Option<string>
    var now: nat
    var pending: Option<PendingLookup>
    var lookups: seq<string>
    var inFlight: nat

    function State(): DropdownState
      reads this
    {
      DropdownState(query, isVisible, places, isLoading, error, now, pending, lookups, inFlight)
    }

    ghost predicate ValidState()
      reads this
    {
      Valid(State())
    }

    /** Mounting with the initial props; the effect runs once. */
    constructor (q: string, v: bool)
      ensures ValidState() && State() == Mount(q, v)
    {
      query, isVisible := q, v;
      places, isLoading, error := [], false, None;
      now, pending, lookups, inFlight := 0, None, [], 0;
      new;
      ScheduleOrClear();
    }

    /** The body of the debounced-search effect. */
    method ScheduleOrClear()
      modifies this
      ensures State() == RunEffect(old(State()))
    {
      pending := None;
      if IsBlank(query) || !isVisible {
        places := [];
        return;
      }
      pending := Some(PendingLookup(query, now + DebounceMs));
    }

    /** New props from the parent; the effect re-runs only if one changed. */
    method SetProps(q: string, v: bool)
      requires ValidState()
      modifies this
      ensures ValidState() && State() == Step(old(State()), Change(q, v))
    {
      if q == query && v == isVisible {
        return;
      }
      query, isVisible := q, v;
      ScheduleOrClear();
    }

    method Elapse(ms: nat)
      requires ValidState()
      modifies this
      ensures ValidState() && State() == Step(old(State()), Event.Elapse(ms))
    {
      now := now + ms;
    }

    /** The debounce timer fires and sends the lookup. */
    method TimerFires()
      requires ValidState() && Due(State())
      modifies this
      ensures ValidState() && State() == Step(old(State()), TimerFired)
      ensures lookups == old(lookups) + [query] && isLoading && error == None
    {
      FireIsStep(State());
      isLoading, error, lookups, inFlight, pending :=
        true, None, lookups + [pending.value.query], inFlight + 1, None;
    }

    /** A lookup sent earlier settles. */
    method LookupSettles(o: FetchOutcome)
      requires ValidState() && inFlight > 0
      modifies this
      ensures ValidState() && State() == Step(old(State()), LookupSettled(o))
      ensures !isLoading
    {
      match Interpret(o) {
        case Loaded(ps) =>
          places := ps;
        case LookupFailed(m) =>
          error := Some(m);
          places := [];
      }
      isLoading := false;
      inFlight := inFlight - 1;
    }
  }
}
