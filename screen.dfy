/**
  The three state cells of the `App` component (App.tsx:24-26) and the fetch
  routine `getCurrentLocation` that updates them (App.tsx:28-58), with its two
  entry points: the mount effect and the retry handler.
 */
module ScreenState {
  import opened Wrappers
  import opened LocationProvider

  /**
    A snapshot of the cells. `location == None` stands for the initial empty
    object `{}`; an absent error message is stored as "" (both are falsy and
    the text of neither is ever shown).
   */
  datatype Cells = Cells(loading: bool, errorMsg: string, location: Option<Sample>)

  /** The cells as `useState` creates them. */
  function Initial(): (c: Cells)
    ensures !c.loading && c.errorMsg == "" && c.location == None
  {
    Cells(false, "", None)
  }

  /** The value `setErrorMsg(error?.message)` stores. */
  function MessageText(m: Option<string>): string {
    match m
    case Some(s) => s
    case None => ""
  }

  /** `setLoading(true)`, the first step of a fetch. */
  function Began(c: Cells): (d: Cells)
    ensures d.loading
    ensures d.errorMsg == c.errorMsg && d.location == c.location
  {
    c.(loading := true)
  }

  /** The rest of a fetch: the provider's replies, the catch block and the finally block. */
  function Settled(c: Cells, r: Replies): (d: Cells)
    ensures !d.loading
    ensures Result(r).Located? ==> d.location == Some(Result(r).sample) && d.errorMsg == c.errorMsg
    ensures Result(r).Failed? ==> d.location == c.location && d.errorMsg == MessageText(Result(r).message)
  {
    match Result(r)
    case Located(sample) => Cells(false, c.errorMsg, Some(sample))
    case Failed(m) => Cells(false, MessageText(m), c.location)
  }

  /** A whole fetch; once settled, the loading flag it raised leaves no trace. */
  function Fetched(c: Cells, r: Replies): (d: Cells)
    ensures d == Settled(c, r)
  {
    Settled(Began(c), r)
  }

  /** Fetches run one after another, each settling before the next begins. */
  function RunFetches(c: Cells, rs: seq<Replies>): Cells
    decreases |rs|
  {
    if rs == [] then c else RunFetches(Fetched(c, rs[0]), rs[1..])
  }

  /** The requests made by fetches run one after another. */
  function SessionCalls(rs: seq<Replies>): seq<Call>
    decreases |rs|
  {
    if rs == [] then [] else Calls(rs[0]) + SessionCalls(rs[1..])
  }

  /** The component's state cells, updated in place through their setters. */
  class Screen {
    var loading: bool
    var errorMsg: string
    var location: Option<Sample>

    function State(): Cells
      reads this
    {
      Cells(loading, errorMsg, location)
    }

    /** The three `useState` calls. */
    constructor ()
      ensures State() == Initial()
    {
      loading := false;
      errorMsg := "";
      location := None;
    }

    /** `setLoading(true)`: the state while a fetch is in flight. */
    method BeginFetch()
      modifies this
      ensures State() == Began(old(State()))
    {
      loading := true;
    }

    /**
      Asks the provider for permission and, only when granted, for the
      position; stores the sample or the caught error's message, then clears
      the loading flag. Returns the requests made, in order.
     */
    method Settle(provider: Replies) returns (calls: seq<Call>)
      modifies this
      ensures State() == Settled(old(State()), provider)
      ensures calls == Calls(provider)
    {
      var caught: Option<Option<string>> := None;
      calls := [RequestPermission];
      match provider.permission {
        case PermissionThrew(m) =>
          caught := Some(m);
        case Status(status) =>
          if status != Granted {
            caught := Some(Some(DeniedMessage));
          } else {
            calls := calls + [GetCurrentPosition];
            match provider.position {
              case PositionThrew(m) =>
                caught := Some(m);
              case Position(sample) =>
                location := Some(sample);
            }
          }
      }
      if caught.Some? {
        errorMsg := MessageText(caught.value);
      }
      loading := false;
    }

    /** `getCurrentLocation`. */
    method GetCurrentLocation(provider: Replies) returns (calls: seq<Call>)
      modifies this
      ensures State() == Fetched(old(State()), provider)
      ensures calls == Calls(provider)
    {
      BeginFetch();
      calls := Settle(provider);
    }

    /** `refreshLocation`, the retry button's handler: nothing but a fetch. */
    method RefreshLocation(provider: Replies) returns (calls: seq<Call>)
      modifies this
      ensures State() == Fetched(old(State()), provider)
      ensures calls == Calls(provider)
    {
      calls := GetCurrentLocation(provider);
    }

    /** The mount effect: one fetch. */
    method Mount(provider: Replies) returns (calls: seq<Call>)
      modifies this
      ensures State() == Fetched(old(State()), provider)
      ensures calls == Calls(provider)
    {
      calls := GetCurrentLocation(provider);
    }
  }

  /**
    Creating the component and running its mount effect: exactly one
    permission request. The effect runs only after a first render has
    committed, which holds with the corrected render `View` and not with the
    render as written.
   */
  method MountScreen(provider: Replies) returns (s: Screen, calls: seq<Call>)
    ensures fresh(s)
    ensures s.State() == Fetched(Initial(), provider)
    ensures multiset(calls)[RequestPermission] == 1
    ensures calls == Calls(provider)
  {
    s := new Screen();
    calls := s.Mount(provider);
  }
}
