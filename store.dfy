/** The remote `users` table that every endpoint and the client read and write:
    one row per user id, with the columns the source touches. Timestamps are
    integers; the `updated_at`, `terms_accepted_at` and `subscription_date`
    columns, written with the current time, are not kept. */
module Store {
  import opened Js

  type UserId = string

  datatype Row = Row(
    email: Option<string>,
    isPro: bool,
    totalGenerations: int,
    subscriptionStatus: Option<string>,
    subscriptionEndDate: Option<int>,
    subscriptionId: Option<string>,
    subscriptionPrice: Option<int>,
    subscriptionPlan: Option<string>,
    subscriptionAmount: Option<int>,
    acceptedTerms: bool,
    acceptedMarketing: bool)

  type Table = map<UserId, Row>

  /** A row with every optional column empty, as a fresh insert leaves it. */
  const EmptyRow: Row := Row(None, false, 0, None, None, None, None, None, None, false, false)

  /** `update(...).eq('id', id)`: the matching row, if there is one, gets `f`
      applied; a missing id matches nothing, and no other row changes. */
  function Update(t: Table, id: UserId, f: Row -> Row): (t': Table)
    ensures t'.Keys == t.Keys
    ensures id in t ==> t'[id] == f(t[id])
    ensures forall k :: k in t && k != id ==> t'[k] == t[k]
  {
    if id in t then t[id := f(t[id])] else t
  }

  /** `upsert(..., { onConflict: 'id' })`: the row with that id gets `f`
      applied, a missing row being created with every other column empty; no
      other row changes. */
  function Upsert(t: Table, id: UserId, f: Row -> Row): (t': Table)
    ensures t'.Keys == t.Keys + {id}
    ensures t'[id] == f(if id in t then t[id] else EmptyRow)
    ensures forall k :: k in t && k != id ==> t'[k] == t[k]
  {
    t[id := f(if id in t then t[id] else EmptyRow)]
  }

  /** A column an update sets to `undefined` is dropped when the update is
      serialised, so the column keeps its current value. */
  function Keep<T>(current: Option<T>, given: Option<T>): (r: Option<T>)
    ensures given.Some? ==> r == given
    ensures given.None? ==> r == current
  {
    if given.Some? then given else current
  }

  /** An update whose change is idempotent is idempotent on the table. */
  lemma UpdateIdempotent(t: Table, id: UserId, f: Row -> Row)
    requires forall r :: f(f(r)) == f(r)
    ensures Update(Update(t, id, f), id, f) == Update(t, id, f)
  {
  }
}
