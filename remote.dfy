/** Shared vocabulary of the dashboard widgets: identifiers, optional values,
    and the requests a widget hands to the remote row store.

    The store itself is not modelled. Each widget operation receives the
    store's answer as a parameter (`None` for a null `data` field, that is an
    error or no row) and returns the request it sends, so that what is sent,
    to which table and under which filter can be stated and proved. */
module Remote {

  type UserId = string
  type RowId = string
  /** Timestamps compare like the store's ISO-8601 text; an integer keeps that order. */
  type Timestamp = int

  datatype Option<+T> = None | Some(value: T)

  /** The equality filter of a request: on the owner's id or on the row id. */
  datatype Filter = UserIs(user: UserId) | IdIs(id: RowId)

  /** The order of a select: as stored, or descending on a column. */
  datatype Order = Unordered | NewestFirst(column: string)

  /** A request sent to the store. `single` says that exactly one row is
      expected back. */
  datatype Request<NewRow, Patch> =
    | Select(table: string, filter: Filter, order: Order, limit: Option<nat>, single: bool)
    | Insert(table: string, rows: seq<NewRow>, single: bool)
    | Update(table: string, filter: Filter, patch: Patch)
    | Delete(table: string, filter: Filter)

  /** A mirror after one answer arrives: a batch with data replaces it, a
      null answer leaves it. */
  function Adopted<T>(mirror: seq<T>, data: Option<seq<T>>): seq<T>
  {
    if data.Some? then data.value else mirror
  }

  /** The guard shared by the three seeding effects: seed only with a
      signed-in user and an empty mirror. */
  predicate SeedGuard(user: Option<UserId>, mirrorLength: nat): (due: bool)
    ensures due ==> user.Some?
    ensures mirrorLength > 0 ==> !due
    ensures user.Some? && mirrorLength == 0 ==> due
  {
    user.Some? && mirrorLength == 0
  }
}
