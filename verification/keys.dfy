/**
 * The key issuer and the key listing. Issuance refuses once a user holds
 * as many keys as their limit and otherwise appends exactly one key;
 * listing reads the keys back, marking each as active or expired, and
 * never removes anything.
 */
module KeyIssuer {
  import opened Wrappers
  import opened Store
  import opened Entitlement

  /** Keys stay valid for 30 days from issuance. */
  const KeyLifetime: int := 30 * 24 * 60 * 60

  datatype IssueOutcome =
    | Issued(key: Key, progress: nat, limit: int)
    | LimitExceeded(limit: int, used: nat)

  /** The store to persist after a request, and what the user is told. */
  datatype Issuance = Issuance(store: Snapshot, outcome: IssueOutcome)

  /** One issuance request: the fresh key id and value and the clock reading. */
  datatype KeyRequest = KeyRequest(keyId: string, keyValue: string, now: Time)

  /** The limit that applies to `id`, an unknown user being registered without an override. */
  function CurrentLimit(s: Snapshot, id: UserId, chats: seq<int>, lookups: seq<Option<Status>>): int
    requires |chats| == |lookups|
  {
    if id in s.users then CalculateLimit(s.users[id], chats, lookups) else AutoLimit(chats, lookups)
  }

  /**
   * Handles one "get a key" request from user `id`. The random key id and
   * value and the clock are inputs.
   */
  function IssueKey(s: Snapshot, id: UserId, name: Option<string>,
                    chats: seq<int>, lookups: seq<Option<Status>>, request: KeyRequest): (r: Issuance)
    requires |chats| == |lookups|
    ensures r.outcome.limit == CurrentLimit(s, id, chats, lookups)
    ensures r.outcome.LimitExceeded? <==> |KeysOf(s, id)| >= CurrentLimit(s, id, chats, lookups)
    ensures r.outcome.LimitExceeded? ==> r.store == s && r.outcome.used == |KeysOf(s, id)|
    ensures r.outcome.Issued? ==>
      && r.outcome.key.id == request.keyId
      && r.outcome.key.value == request.keyValue
      && r.outcome.key.createdAt == request.now
      && r.outcome.key.validUntil == request.now + KeyLifetime
      && id in r.store.users
      && r.store.users[id].keys == KeysOf(s, id) + [r.outcome.key]
      && r.store.users[id].keysUsed == |r.store.users[id].keys|
      && r.outcome.progress == |r.store.users[id].keys| <= r.outcome.limit
      && r.store.users[id].username == name
      && r.store.users[id].manualLimit == (if id in s.users then s.users[id].manualLimit else None)
      && r.store.users.Keys == s.users.Keys + {id}
      && r.store.order == (if id in s.users then s.order else s.order + [id])
      && r.store.pending == s.pending
      && (forall other :: other in s.users && other != id ==> r.store.users[other] == s.users[other])
    ensures WellFormed(s) ==> WellFormed(r.store)
  {
    var registered := EnsureUser(s, id, name);
    var record := registered.users[id];
    var limit := CalculateLimit(record, chats, lookups);
    var used := |record.keys|;
    if used >= limit then
      // the refusal returns before anything is saved
      Issuance(s, LimitExceeded(limit, used))
    else
      var key := Key(request.keyId, request.keyValue, request.now + KeyLifetime, request.now);
      var keys := record.keys + [key];
      var updated := record.(keys := keys, keysUsed := |keys|);
      Issuance(registered.(users := registered.users[id := updated]), Issued(key, |keys|, limit))
  }

  /** Issuance leaves the limit that applies to the user unchanged. */
  lemma IssueKeepsLimit(s: Snapshot, id: UserId, name: Option<string>,
                        chats: seq<int>, lookups: seq<Option<Status>>, request: KeyRequest)
    requires |chats| == |lookups|
    ensures CurrentLimit(IssueKey(s, id, name, chats, lookups, request).store, id, chats, lookups)
         == CurrentLimit(s, id, chats, lookups)
  {
  }

  /** A sequence of issuance requests from one user, and how many succeeded. */
  function IssueAll(s: Snapshot, id: UserId, name: Option<string>,
                    chats: seq<int>, lookups: seq<Option<Status>>, requests: seq<KeyRequest>): (Snapshot, nat)
    requires |chats| == |lookups|
    decreases |requests|
  {
    if |requests| == 0 then (s, 0)
    else
      var first := IssueKey(s, id, name, chats, lookups, requests[0]);
      var (last, issued) := IssueAll(first.store, id, name, chats, lookups, requests[1..]);
      (last, issued + (if first.outcome.Issued? then 1 else 0))
  }

  /**
   * Repeated requests succeed until the limit is reached and then keep
   * failing: starting from `used` keys under limit `limit`, `n` requests
   * leave `max(used, min(limit, used + n))` keys.
   */
  lemma {:induction false} RepeatedIssuance(s: Snapshot, id: UserId, name: Option<string>,
                                            chats: seq<int>, lookups: seq<Option<Status>>,
                                            requests: seq<KeyRequest>)
    requires |chats| == |lookups|
    ensures var (last, issued) := IssueAll(s, id, name, chats, lookups, requests);
            var used := |KeysOf(s, id)|;
            var limit := CurrentLimit(s, id, chats, lookups);
            && |KeysOf(last, id)| == used + issued
            && (used >= limit ==> issued == 0)
            && (used < limit ==> used + issued == if used + |requests| <= limit then used + |requests| else limit)
    decreases |requests|
  {
    if |requests| > 0 {
      var first := IssueKey(s, id, name, chats, lookups, requests[0]);
      IssueKeepsLimit(s, id, name, chats, lookups, requests[0]);
      RepeatedIssuance(first.store, id, name, chats, lookups, requests[1..]);
    }
  }

  /**
   * A new user who belongs to no configured reference chat (every check
   * failed, reported a non-member status, or hit an unset slot) gets exactly
   * one key: the first request succeeds, the second reports 1 of 1 used.
   */
  lemma TrialKeyScenario(s: Snapshot, id: UserId, name: Option<string>,
                         chats: seq<int>, lookups: seq<Option<Status>>,
                         first: KeyRequest, second: KeyRequest)
    requires |chats| == |lookups|
    requires id !in s.users
    requires forall i :: 0 <= i < |chats| ==> !Counts(chats[i], lookups[i])
    ensures var one := IssueKey(s, id, name, chats, lookups, first);
            && one.outcome.Issued?
            && IssueKey(one.store, id, name, chats, lookups, second).outcome == LimitExceeded(1, 1)
  {
  }

  /**
   * A user with 2 keys and an admin limit of 8: of 7 further requests, 6
   * succeed and the user ends with 8 keys.
   */
  lemma ManualLimitScenario(s: Snapshot, id: UserId, name: Option<string>,
                            chats: seq<int>, lookups: seq<Option<Status>>, requests: seq<KeyRequest>)
    requires |chats| == |lookups|
    requires id in s.users && s.users[id].manualLimit == Some(8) && |s.users[id].keys| == 2
    requires |requests| == 7
    ensures IssueAll(s, id, name, chats, lookups, requests).1 == 6
    ensures |KeysOf(IssueAll(s, id, name, chats, lookups, requests).0, id)| == 8
  {
    RepeatedIssuance(s, id, name, chats, lookups, requests);
  }

  /** A key is still usable while its expiry lies in the future. */
  predicate Active(key: Key, now: Time) {
    key.validUntil > now
  }

  /** The active keys among `keys`, in their original order. */
  function ActiveKeys(keys: seq<Key>, now: Time): seq<Key>
    decreases |keys|
  {
    if |keys| == 0 then []
    else
      var n := |keys| - 1;
      ActiveKeys(keys[..n], now) + (if Active(keys[n], now) then [keys[n]] else [])
  }

  /** One line of the key listing. */
  datatype ListedKey = ListedKey(key: Key, active: bool)

  /**
   * Lists the keys of `id` in issuance order, each marked active or
   * expired, together with the active keys alone. Nothing is written back:
   * the store keeps expired keys.
   */
  method ListKeys(s: Snapshot, id: UserId, now: Time) returns (listing: seq<ListedKey>, active: seq<Key>)
    ensures |listing| == |KeysOf(s, id)|
    ensures forall i :: 0 <= i < |listing| ==> listing[i].key == KeysOf(s, id)[i]
    ensures forall i :: 0 <= i < |listing| ==> (listing[i].active <==> Active(KeysOf(s, id)[i], now))
    ensures active == ActiveKeys(KeysOf(s, id), now)
    ensures forall k :: k in active <==> k in KeysOf(s, id) && Active(k, now)
    ensures |active| <= |listing|
  {
    var keys := KeysOf(s, id);
    listing, active := [], [];
    var i := 0;
    while i < |keys|
      invariant 0 <= i <= |keys|
      invariant |listing| == i
      invariant forall j :: 0 <= j < i ==> listing[j] == ListedKey(keys[j], Active(keys[j], now))
      invariant active == ActiveKeys(keys[..i], now)
      invariant forall k :: k in active <==> k in keys[..i] && Active(k, now)
      invariant |active| <= i
    {
      if Active(keys[i], now) {
        active := active + [keys[i]];
      }
      listing := listing + [ListedKey(keys[i], Active(keys[i], now))];
      assert keys[..i + 1] == keys[..i] + [keys[i]];
      i := i + 1;
    }
    assert keys[..i] == keys;
  }
}
