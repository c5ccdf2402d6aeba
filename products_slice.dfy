/**
 * The `products` Redux slice: the state shown by the product listing pages
 * and the admin product table, and the seven case reducers that replace it.
 *
 * Every case reducer returns a fresh object literal. A key the literal does
 * not mention is simply absent from the new state (modelled by `None` /
 * `Absent`); `clearAdminError` alone spreads the old state and writes
 * `error: null` (modelled by `Null`, which is distinct from an absent key).
 */
module ProductsSlice {
  import opened Wrappers

  /** The `error` key: missing, explicitly `null`, or holding a message. */
  datatype ErrorSlot = Absent | Null | Present(message: string)

  /** The slice's state; `P` is the product record, which no reducer inspects. */
  datatype State<P> = State(
    loading: bool,
    products: Option<seq<P>>,
    productsCount: Option<int>,
    resPerPage: Option<int>,
    error: ErrorSlot)

  /** The payload of a successful listing request; any key may be missing. */
  datatype ProductsPayload<P> = ProductsPayload(
    products: Option<seq<P>>,
    count: Option<int>,
    resPerPage: Option<int>)

  /** The actions this slice answers to, plus any action of another slice. */
  datatype Action<P> =
    | ProductsRequested
    | ProductsReceived(payload: ProductsPayload<P>)
    | ProductsFailed(error: string)
    | AdminProductsRequested
    | AdminProductsReceived(payload: ProductsPayload<P>)
    | AdminProductsFailed(error: string)
    | AdminErrorCleared
    | OtherAction

  /** The state holds no listing data at all. */
  predicate NoData<P>(s: State<P>)
  {
    s.products == None && s.productsCount == None && s.resPerPage == None
  }

  /**
   * The shape every state the slice can reach has: while loading there is
   * neither data nor an error message, and an error message comes without
   * data and without loading.
   */
  predicate Consistent<P>(s: State<P>)
  {
    (s.loading ==> NoData(s) && !s.error.Present?)
    && (s.error.Present? ==> !s.loading && NoData(s))
  }

  /** The initial state: only `loading: false`. */
  function InitialState<P>(): (r: State<P>)
    ensures !r.loading && NoData(r) && r.error == Absent
    ensures Consistent(r)
  {
    State(false, None, None, None, Absent)
  }

  /** `productsRequest`: a loading state, whatever was there before. */
  function ProductsRequest<P>(s: State<P>): (r: State<P>)
    ensures r.loading && NoData(r) && r.error == Absent
    ensures Consistent(r)
  {
    State(true, None, None, None, Absent)
  }

  /** `productsSuccess`: the listing, its total count and its page size. */
  function ProductsSuccess<P>(s: State<P>, payload: ProductsPayload<P>): (r: State<P>)
    ensures !r.loading && r.error == Absent
    ensures r.products == payload.products
    ensures r.productsCount == payload.count
    ensures r.resPerPage == payload.resPerPage
    ensures Consistent(r)
  {
    State(false, payload.products, payload.count, payload.resPerPage, Absent)
  }

  /** `productsFail`: the error message and nothing else. */
  function ProductsFail<P>(s: State<P>, error: string): (r: State<P>)
    ensures !r.loading && NoData(r) && r.error == Present(error)
    ensures Consistent(r)
  {
    State(false, None, None, None, Present(error))
  }

  /** `adminProductsRequest`: written out separately in the slice. */
  function AdminProductsRequest<P>(s: State<P>): (r: State<P>)
    ensures r.loading && NoData(r) && r.error == Absent
    ensures Consistent(r)
  {
    State(true, None, None, None, Absent)
  }

  /** `adminProductsSuccess`: the product list only, no count or page size. */
  function AdminProductsSuccess<P>(s: State<P>, payload: ProductsPayload<P>): (r: State<P>)
    ensures !r.loading && r.error == Absent
    ensures r.products == payload.products
    ensures r.productsCount == None && r.resPerPage == None
    ensures Consistent(r)
  {
    State(false, payload.products, None, None, Absent)
  }

  /** `adminProductsFail`: written out separately in the slice. */
  function AdminProductsFail<P>(s: State<P>, error: string): (r: State<P>)
    ensures !r.loading && NoData(r) && r.error == Present(error)
    ensures Consistent(r)
  {
    State(false, None, None, None, Present(error))
  }

  /** `clearAdminError`: `{...state, error: null}`. */
  function ClearAdminError<P>(s: State<P>): (r: State<P>)
    ensures r.error == Null
    ensures r.loading == s.loading && r.products == s.products
    ensures r.productsCount == s.productsCount && r.resPerPage == s.resPerPage
    ensures Consistent(s) ==> Consistent(r)
  {
    s.(error := Null)
  }

  /**
   * The slice's exported reducer: dispatch on the action; an action of any
   * other slice leaves the state as it was.
   */
  function Reduce<P>(s: State<P>, a: Action<P>): State<P>
  {
    match a
    case ProductsRequested => ProductsRequest(s)
    case ProductsReceived(payload) => ProductsSuccess(s, payload)
    case ProductsFailed(error) => ProductsFail(s, error)
    case AdminProductsRequested => AdminProductsRequest(s)
    case AdminProductsReceived(payload) => AdminProductsSuccess(s, payload)
    case AdminProductsFailed(error) => AdminProductsFail(s, error)
    case AdminErrorCleared => ClearAdminError(s)
    case OtherAction => s
  }

  /** The state after dispatching a log of actions in order. */
  function ReduceAll<P>(s: State<P>, actions: seq<Action<P>>): State<P>
    decreases |actions|
  {
    if actions == [] then s
    else ReduceAll(Reduce(s, actions[0]), actions[1..])
  }

  /** An action whose reducer builds the new state from the payload alone. */
  predicate Resets<P>(a: Action<P>)
  {
    !a.AdminErrorCleared? && !a.OtherAction?
  }

  /** An action that starts a request. */
  predicate IsRequest<P>(a: Action<P>)
  {
    a.ProductsRequested? || a.AdminProductsRequested?
  }

  /** The most recent resetting action of a log, if any. */
  function LastReset<P>(actions: seq<Action<P>>): (r: Option<Action<P>>)
    ensures r.Some? ==> r.value in actions && Resets(r.value)
    ensures r.Some? ==> exists i :: 0 <= i < |actions| && actions[i] == r.value && (forall j :: i < j < |actions| ==> !Resets(actions[j]))
    ensures r.None? ==> forall i :: 0 <= i < |actions| ==> !Resets(actions[i])
    decreases |actions|
  {
    if actions == [] then None
    else if Resets(actions[|actions| - 1]) then Some(actions[|actions| - 1])
    else LastReset(actions[..|actions| - 1])
  }

  /** The most recent action of a log that belongs to this slice, if any. */
  function LastOwnAction<P>(actions: seq<Action<P>>): (r: Option<Action<P>>)
    ensures r.Some? ==> r.value in actions && !r.value.OtherAction?
    ensures r.Some? ==> exists i :: 0 <= i < |actions| && actions[i] == r.value && (forall j :: i < j < |actions| ==> actions[j].OtherAction?)
    ensures r.None? ==> forall i :: 0 <= i < |actions| ==> actions[i].OtherAction?
    decreases |actions|
  {
    if actions == [] then None
    else if !actions[|actions| - 1].OtherAction? then Some(actions[|actions| - 1])
    else LastOwnAction(actions[..|actions| - 1])
  }

  // ---------------------------------------------------------------------
  // Properties of the case reducers
  // ---------------------------------------------------------------------

  /** Every case reducer except `clearAdminError` ignores the old state. */
  lemma ResetIgnoresState<P>(s1: State<P>, s2: State<P>, a: Action<P>)
    requires Resets(a)
    ensures Reduce(s1, a) == Reduce(s2, a)
  {
  }

  /** `adminProductsRequest` and `productsRequest` agree on every state. */
  lemma AdminRequestIsRequest<P>(s: State<P>)
    ensures AdminProductsRequest(s) == ProductsRequest(s)
  {
  }

  /** `adminProductsFail` and `productsFail` agree on every state and message. */
  lemma AdminFailIsFail<P>(s: State<P>, error: string)
    ensures AdminProductsFail(s, error) == ProductsFail(s, error)
  {
  }

  /**
   * `adminProductsSuccess` agrees with `productsSuccess` on the product
   * list, and differs from it exactly when the payload carries a count or a
   * page size.
   */
  lemma AdminSuccessDropsPaging<P>(s: State<P>, payload: ProductsPayload<P>)
    ensures AdminProductsSuccess(s, payload).products == ProductsSuccess(s, payload).products
    ensures AdminProductsSuccess(s, payload) == ProductsSuccess(s, payload)
        <==> payload.count == None && payload.resPerPage == None
  {
  }

  /** Clearing the error twice is clearing it once. */
  lemma ClearAdminErrorIdempotent<P>(s: State<P>)
    ensures ClearAdminError(ClearAdminError(s)) == ClearAdminError(s)
  {
  }

  /** Clearing the error changes the state exactly when the error key was not already `null`. */
  lemma ClearAdminErrorFixedPoints<P>(s: State<P>)
    ensures ClearAdminError(s) == s <==> s.error == Null
  {
  }

  /** Every transition keeps the slice's state consistent. */
  lemma ReducePreservesConsistent<P>(s: State<P>, a: Action<P>)
    requires Consistent(s)
    ensures Consistent(Reduce(s, a))
  {
  }

  // ---------------------------------------------------------------------
  // Properties of action logs
  // ---------------------------------------------------------------------

  /** Dispatching a log then one more action is dispatching the longer log. */
  lemma {:induction false} ReduceAllSnoc<P>(s: State<P>, actions: seq<Action<P>>, a: Action<P>)
    ensures ReduceAll(s, actions + [a]) == Reduce(ReduceAll(s, actions), a)
    decreases |actions|
  {
    if actions == [] {
      assert [] + [a] == [a];
    } else {
      assert (actions + [a])[1..] == actions[1..] + [a];
      ReduceAllSnoc(Reduce(s, actions[0]), actions[1..], a);
    }
  }

  /** Every state reachable from a consistent state is consistent. */
  lemma {:induction false} ReduceAllPreservesConsistent<P>(s: State<P>, actions: seq<Action<P>>)
    requires Consistent(s)
    ensures Consistent(ReduceAll(s, actions))
    decreases |actions|
  {
    if actions != [] {
      ReducePreservesConsistent(s, actions[0]);
      ReduceAllPreservesConsistent(Reduce(s, actions[0]), actions[1..]);
    }
  }

  /** Every state the store can hold, from the initial state on, is consistent. */
  lemma ReachableConsistent<P>(actions: seq<Action<P>>)
    ensures Consistent(ReduceAll(InitialState<P>(), actions))
  {
    ReduceAllPreservesConsistent(InitialState<P>(), actions);
  }

  /**
   * History independence: once a log contains a resetting action, the
   * state it leads to does not depend on the state it started from.
   */
  lemma {:induction false} ResetForgetsHistory<P>(s1: State<P>, s2: State<P>, actions: seq<Action<P>>)
    requires LastReset(actions).Some?
    ensures ReduceAll(s1, actions) == ReduceAll(s2, actions)
    decreases |actions|
  {
    var n := |actions|;
    var init := actions[..n - 1];
    assert actions == init + [actions[n - 1]];
    ReduceAllSnoc(s1, init, actions[n - 1]);
    ReduceAllSnoc(s2, init, actions[n - 1]);
    if !Resets(actions[n - 1]) {
      ResetForgetsHistory(s1, s2, init);
    }
  }

  /**
   * `loading` is true after a log exactly when its most recent resetting
   * action is a request; with no resetting action it keeps its start value.
   */
  lemma {:induction false} LoadingFollowsLastReset<P>(s: State<P>, actions: seq<Action<P>>)
    ensures ReduceAll(s, actions).loading ==
      match LastReset(actions)
      case Some(a) => IsRequest(a)
      case None => s.loading
    decreases |actions|
  {
    if actions != [] {
      var n := |actions|;
      var init := actions[..n - 1];
      assert actions == init + [actions[n - 1]];
      ReduceAllSnoc(s, init, actions[n - 1]);
      LoadingFollowsLastReset(s, init);
    }
  }

  /**
   * The `error` key after a log is decided by its most recent action of
   * this slice: a failure leaves its message, `clearAdminError` leaves
   * `null`, any other action of the slice removes the key, and a log with
   * no action of the slice leaves the key as it was.
   */
  lemma {:induction false} ErrorFollowsLastAction<P>(s: State<P>, actions: seq<Action<P>>)
    ensures ReduceAll(s, actions).error ==
      match LastOwnAction(actions)
      case None => s.error
      case Some(AdminErrorCleared) => Null
      case Some(ProductsFailed(e)) => Present(e)
      case Some(AdminProductsFailed(e)) => Present(e)
      case Some(_) => Absent
    decreases |actions|
  {
    if actions != [] {
      var n := |actions|;
      var init := actions[..n - 1];
      assert actions == init + [actions[n - 1]];
      ReduceAllSnoc(s, init, actions[n - 1]);
      ErrorFollowsLastAction(s, init);
    }
  }
}
