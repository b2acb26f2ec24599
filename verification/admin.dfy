/**
 * The admin override service: finding a user by numeric id or by
 * `@username`, and overwriting a user's manual limit.
 */
module Admin {
  import opened Wrappers
  import opened Store
  import opened Entitlement

  /** A non-empty string of decimal digits. */
  predicate IsDigits(text: string) {
    |text| > 0 && AllDigits(text)
  }

  /** The admin's search text, already stripped of surrounding whitespace. */
  datatype Query = ById(id: UserId) | ByUsername(name: string) | Unrecognised

  /** All-digit text is an id; text starting with `@` names a user. */
  function ParseQuery(text: string): Query {
    if IsDigits(text) then ById(text)
    else if |text| > 0 && text[0] == '@' then ByUsername(text[1..])
    else Unrecognised
  }

  predicate HasUsername(s: Snapshot, id: UserId, name: string) {
    id in s.users && s.users[id].username == Some(name)
  }

  /** The first position at or after `from` in iteration order whose user is called `name`. */
  function FirstWithUsername(s: Snapshot, name: string, from: nat): (r: Option<nat>)
    requires from <= |s.order|
    ensures r.Some? ==>
      && from <= r.value < |s.order|
      && HasUsername(s, s.order[r.value], name)
      && forall j :: from <= j < r.value ==> !HasUsername(s, s.order[j], name)
    ensures r.None? ==> forall j :: from <= j < |s.order| ==> !HasUsername(s, s.order[j], name)
    decreases |s.order| - from
  {
    if from == |s.order| then None
    else if HasUsername(s, s.order[from], name) then Some(from)
    else FirstWithUsername(s, name, from + 1)
  }

  /**
   * Resolves the admin's search text to a known user. An empty resolved id
   * is rejected like a missing one.
   */
  function FindUser(s: Snapshot, text: string): (r: Option<UserId>)
    ensures r.Some? ==> r.value in s.users && r.value != ""
    ensures IsDigits(text) ==> r == (if text in s.users then Some(text) else None)
    ensures !IsDigits(text) && |text| > 0 && text[0] == '@' && r.Some? ==>
      && HasUsername(s, r.value, text[1..])
      && exists k :: 0 <= k < |s.order| && s.order[k] == r.value
           && forall j :: 0 <= j < k ==> !HasUsername(s, s.order[j], text[1..])
    ensures !IsDigits(text) && (|text| == 0 || text[0] != '@') ==> r.None?
  {
    var target: Option<UserId> :=
      match ParseQuery(text)
      case ById(id) => Some(id)
      case ByUsername(name) =>
        (match FirstWithUsername(s, name, 0)
         case Some(k) => Some(s.order[k])
         case None => None)
      case Unrecognised => None;
    if target.None? || target.value == "" || target.value !in s.users then None
    else target
  }

  /**
   * On a well-formed store whose ids are non-empty, an `@name` search
   * finds a user whenever some user is called `name`.
   */
  lemma FindByUsernameComplete(s: Snapshot, name: string, id: UserId)
    requires WellFormed(s)
    requires "" !in s.users
    requires HasUsername(s, id, name)
    ensures FindUser(s, "@" + name).Some?
  {
  }

  /** Outcome of an override: the store to persist, and whether the user was known. */
  datatype Override = Override(store: Snapshot, applied: bool)

  /** Sets the manual limit of a known user; an unknown id changes nothing. */
  function SetLimit(s: Snapshot, target: UserId, newLimit: int): (r: Override)
    ensures r.applied <==> target in s.users
    ensures !r.applied ==> r.store == s
    ensures r.applied ==>
      && r.store.users.Keys == s.users.Keys
      && r.store.users[target].manualLimit == Some(newLimit)
      && r.store.users[target].username == s.users[target].username
      && r.store.users[target].keys == s.users[target].keys
      && r.store.users[target].keysUsed == s.users[target].keysUsed
      && r.store.order == s.order
      && r.store.pending == s.pending
      && (forall other :: other in s.users && other != target ==> r.store.users[other] == s.users[other])
    ensures WellFormed(s) ==> WellFormed(r.store)
  {
    if target in s.users then
      Override(s.(users := s.users[target := s.users[target].(manualLimit := Some(newLimit))]), true)
    else
      Override(s, false)
  }

  /** After an override the user's limit is the admin's value, whatever their memberships. */
  lemma OverrideWins(s: Snapshot, target: UserId, newLimit: int,
                     chats: seq<int>, lookups: seq<Option<Status>>)
    requires |chats| == |lookups|
    requires target in s.users
    ensures CalculateLimit(SetLimit(s, target, newLimit).store.users[target], chats, lookups) == newLimit
  {
  }
}
