/**
 * The authoritative user resolver behind `userService.getOrCreateUser`:
 * a directory from transport (Telegram) user ids to internal user ids.
 * The user service itself is not part of this model; it is represented by
 * the create-or-fetch contract both callers rely on, with new ids handed out
 * in increasing order as an auto-increment key would be.
 */
module Users {

  type TransportId = nat
  type InternalId = nat

  datatype Directory = Directory(ids: map<TransportId, InternalId>, next: InternalId)

  /** Every id already handed out is below the next one to hand out. */
  predicate Valid(d: Directory) {
    forall t | t in d.ids :: d.ids[t] < d.next
  }

  /** No two transport ids share an internal id. */
  predicate Injective(d: Directory) {
    forall t, u | t in d.ids && u in d.ids && t != u :: d.ids[t] != d.ids[u]
  }

  /** `getOrCreateUser(tid)`: the existing id of tid, or a fresh id recorded for tid. */
  function GetOrCreate(d: Directory, tid: TransportId): (r: (InternalId, Directory))
    ensures tid in r.1.ids && r.1.ids[tid] == r.0
    ensures tid in d.ids ==> r == (d.ids[tid], d)
    ensures tid !in d.ids ==> r.1.ids == d.ids[tid := r.0]
    ensures Valid(d) && tid !in d.ids ==> r.0 !in d.ids.Values
    ensures Valid(d) ==> Valid(r.1)
    ensures Valid(d) && Injective(d) ==> Injective(r.1)
  {
    if tid in d.ids then (d.ids[tid], d)
    else (d.next, Directory(d.ids[tid := d.next], d.next + 1))
  }

  /** Resolving again returns the same id and creates nothing. */
  lemma GetOrCreateIdempotent(d: Directory, tid: TransportId)
    ensures GetOrCreate(GetOrCreate(d, tid).1, tid) == GetOrCreate(d, tid)
  {
  }

  /** Resolving one user never changes the id of another. */
  lemma GetOrCreateKeepsOthers(d: Directory, tid: TransportId, other: TransportId)
    requires other in d.ids
    ensures other in GetOrCreate(d, tid).1.ids && GetOrCreate(d, tid).1.ids[other] == d.ids[other]
  {
  }
}
