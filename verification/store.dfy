/**
 * The persisted store of the key bot: a single snapshot holding every user
 * record and every pending payment. Each request loads the whole snapshot;
 * a request that changes it writes the whole snapshot back, while refusals,
 * lookups and listings write nothing. An operation that may save is
 * modelled as a pure function from the loaded snapshot to the one it
 * leaves in the store.
 */
module Store {
  import opened Wrappers

  /** Telegram user ids, stored as their decimal strings. */
  type UserId = string

  /** A string made of decimal digits only (possibly empty). */
  predicate AllDigits(text: string) {
    forall i :: 0 <= i < |text| ==> '0' <= text[i] <= '9'
  }

  /** Seconds since the epoch. */
  type Time = int

  /** An issued access key; never changed after issuance. */
  datatype Key = Key(id: string, value: string, validUntil: Time, createdAt: Time)

  /**
   * One user. `manualLimit == None` means the limit is computed from chat
   * membership; `keysUsed` is a stored copy of the number of keys.
   */
  datatype UserRecord = UserRecord(
    username: Option<string>,
    manualLimit: Option<int>,
    keysUsed: int,
    keys: seq<Key>)

  /** The only status the bot ever writes into a pending payment. */
  datatype PaymentStatus = Waiting

  /** A started purchase, keyed in the store by its payment reference. */
  datatype PendingPayment = PendingPayment(
    userId: UserId,
    amountNano: int,
    createdAt: Time,
    status: PaymentStatus)

  /**
   * The whole store. `order` lists the user ids in insertion order, which
   * is the order in which the bot iterates over its user map.
   */
  datatype Snapshot = Snapshot(
    users: map<UserId, UserRecord>,
    order: seq<UserId>,
    pending: map<string, PendingPayment>)

  const Empty: Snapshot := Snapshot(map[], [], map[])

  /** `order` enumerates the user ids, each exactly once. */
  predicate OrderMatchesUsers(s: Snapshot) {
    && (forall i, j :: 0 <= i < j < |s.order| ==> s.order[i] != s.order[j])
    && (forall i :: 0 <= i < |s.order| ==> s.order[i] in s.users)
    && (forall id :: id in s.users ==> id in s.order)
  }

  /** The stored key counter agrees with the key list of every user. */
  predicate CountersInSync(s: Snapshot) {
    forall id :: id in s.users ==> s.users[id].keysUsed == |s.users[id].keys|
  }

  predicate WellFormed(s: Snapshot) {
    OrderMatchesUsers(s) && CountersInSync(s)
  }

  /**
   * Loading: a missing file or one that is not valid JSON (`None`) yields
   * the empty store; otherwise the decoded snapshot is used as it is.
   */
  function Load(stored: Option<Snapshot>): (s: Snapshot)
    ensures stored.None? ==> WellFormed(s) && s.users == map[] && s.pending == map[]
    ensures stored.Some? ==> s == stored.value
  {
    match stored
    case None => Empty
    case Some(snapshot) => snapshot
  }

  /** The keys of `id`, or none for an unknown user. */
  function KeysOf(s: Snapshot, id: UserId): seq<Key> {
    if id in s.users then s.users[id].keys else []
  }

  /** The record a user gets on first contact. */
  function NewUser(name: Option<string>): UserRecord {
    UserRecord(name, None, 0, [])
  }

  /**
   * Registers `id` if it is unknown; for a known user only the username is
   * refreshed.
   */
  function EnsureUser(s: Snapshot, id: UserId, name: Option<string>): (r: Snapshot)
    ensures r.users.Keys == s.users.Keys + {id}
    ensures r.pending == s.pending
    ensures id !in s.users ==>
      && r.users[id].username == name
      && r.users[id].manualLimit.None?
      && r.users[id].keysUsed == 0
      && r.users[id].keys == []
      && r.order == s.order + [id]
    ensures id in s.users ==>
      && r.users[id].username == name
      && r.users[id].manualLimit == s.users[id].manualLimit
      && r.users[id].keysUsed == s.users[id].keysUsed
      && r.users[id].keys == s.users[id].keys
      && r.order == s.order
    ensures forall other :: other in s.users && other != id ==> r.users[other] == s.users[other]
    ensures WellFormed(s) ==> WellFormed(r)
  {
    if id !in s.users then
      s.(users := s.users[id := NewUser(name)], order := s.order + [id])
    else
      s.(users := s.users[id := s.users[id].(username := name)])
  }
}
