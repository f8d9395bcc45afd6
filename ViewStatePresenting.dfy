/**
 * The queries every view-state presenter derives from its state, the one
 * update that replaces the state, and the load pattern a presenter follows:
 * first `Loading` with the current content, then `Idle` with the loaded items
 * or `Error` with the content held before.
 */
module ViewStatePresenting {
  import opened Wrappers
  import opened ViewState

  function IsLoading<T, E>(s: ViewState<T, E>): (r: bool)
    ensures r <==> s.Loading?
    ensures r ==> !HasError(s)
  {
    match s
    case Loading(_) => true
    case _ => false
  }

  function HasError<T, E>(s: ViewState<T, E>): (r: bool)
    ensures r <==> s.Error?
  {
    match s
    case Error(_, _) => true
    case _ => false
  }

  /** The content on display: the loaded content, or the content kept by a load or an error. */
  function CurrentContent<T, E>(s: ViewState<T, E>): (r: Option<T>)
    ensures s.Idle? ==> r == Some(s.content)
    ensures !s.Idle? ==> r == s.previous
    // with no content shown, the state is a load or an error
    ensures r.None? ==> IsLoading(s) || HasError(s)
  {
    match s
    case Idle(content) => Some(content)
    case Loading(previous) => previous
    case Error(_, previous) => previous
  }

  /** No content, or content with no elements. */
  function IsEmpty<T, E>(s: ViewState<seq<T>, E>): (r: bool)
    ensures CurrentContent(s).None? ==> r
    ensures CurrentContent(s).Some? ==> (r <==> |CurrentContent(s).value| == 0)
    ensures s.Idle? ==> (r <==> s.content == [])
  {
    match CurrentContent(s)
    case None => true
    case Some(content) => |content| == 0
  }

  /** The number of elements on display; 0 with no content. */
  function Count<T, E>(s: ViewState<seq<T>, E>): (r: nat)
    ensures CurrentContent(s).None? ==> r == 0
    ensures CurrentContent(s).Some? ==> r == |CurrentContent(s).value|
    ensures r == 0 <==> IsEmpty(s)
  {
    match CurrentContent(s)
    case None => 0
    case Some(content) => |content|
  }

  /** The state a load starts in: the current content is kept. */
  function StartLoad<T, E>(s: ViewState<T, E>): (r: ViewState<T, E>)
    ensures IsLoading(r) && !HasError(r)
    ensures CurrentContent(r) == CurrentContent(s)
  {
    Loading(CurrentContent(s))
  }

  /** The state a load ends in, read from the state while loading. */
  function FinishLoad<T, E>(s: ViewState<T, E>, outcome: Result<T, E>): (r: ViewState<T, E>)
    ensures outcome.Ok? ==> r == Idle(outcome.value) && CurrentContent(r) == Some(outcome.value)
    ensures outcome.Err? ==> HasError(r) && r.error == outcome.error && CurrentContent(r) == CurrentContent(s)
    ensures !IsLoading(r)
  {
    match outcome
    case Ok(items) => Idle(items)
    case Err(e) => Error(e, CurrentContent(s))
  }

  /** A whole load: `Loading`, then the outcome of the fetch. */
  function Load<T, E>(s: ViewState<T, E>, outcome: Result<T, E>): (r: ViewState<T, E>)
    ensures outcome.Ok? ==> r == Idle(outcome.value)
    // a failed load keeps the content shown before it
    ensures outcome.Err? ==> r == Error(outcome.error, CurrentContent(s))
    ensures outcome.Err? ==> CurrentContent(r) == CurrentContent(s)
  {
    FinishLoad(StartLoad(s), outcome)
  }

  /** The items of the last successful load in `outcomes`, if any succeeded. */
  function LastLoaded<T, E>(outcomes: seq<Result<T, E>>): (r: Option<T>)
    ensures r.None? <==> forall i :: 0 <= i < |outcomes| ==> outcomes[i].Err?
    ensures r.Some? ==>
              exists i :: 0 <= i < |outcomes| && outcomes[i] == Ok(r.value) &&
                          forall j :: i < j < |outcomes| ==> outcomes[j].Err?
    decreases |outcomes|
  {
    if outcomes == [] then None
    else
      match outcomes[|outcomes| - 1]
      case Ok(items) => Some(items)
      case Err(_) => LastLoaded(outcomes[..|outcomes| - 1])
  }

  /** The state after one load per element of `outcomes`, in order. */
  function LoadAll<T, E>(s: ViewState<T, E>, outcomes: seq<Result<T, E>>): (r: ViewState<T, E>)
    // the content shown is that of the last successful load, or what was
    // shown before if every load failed
    ensures CurrentContent(r) == if LastLoaded(outcomes).Some? then LastLoaded(outcomes) else CurrentContent(s)
    ensures outcomes != [] ==> !IsLoading(r)
    ensures outcomes != [] ==> (HasError(r) <==> outcomes[|outcomes| - 1].Err?)
    decreases |outcomes|
  {
    if outcomes == [] then s
    else Load(LoadAll(s, outcomes[..|outcomes| - 1]), outcomes[|outcomes| - 1])
  }

  /** An object whose view state is replaced as it loads. */
  class Presenter<T, E> {
    var state: ViewState<T, E>

    constructor (initial: ViewState<T, E>)
      ensures state == initial
    {
      state := initial;
    }

    method UpdateState(newState: ViewState<T, E>)
      modifies this
      ensures state == newState
    {
      state := newState;
    }

    /**
     * The load pattern: enter `Loading` with the current content, then
     * either `Idle` with the fetched items or `Error` with the content read
     * from the loading state. `fetched` is what the fetch returned or threw.
     */
    method LoadData(fetched: Result<T, E>)
      modifies this
      ensures state == Load(old(state), fetched)
    {
      UpdateState(StartLoad(state));
      match fetched
      case Ok(items) =>
        UpdateState(Idle(items));
      case Err(e) =>
        UpdateState(Error(e, CurrentContent(state)));
    }
  }
}
