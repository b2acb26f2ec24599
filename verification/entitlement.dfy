/**
 * The entitlement calculator: how many keys a user may hold. An admin
 * override wins outright; otherwise each configured reference chat the
 * user belongs to is worth `KeysPerChat` keys, with a single trial key
 * when that sum is zero.
 */
module Entitlement {
  import opened Wrappers
  import opened Store

  /** Keys granted per reference chat the user belongs to. */
  const KeysPerChat: nat := 3

  /** A chat member's status as the chat API reports it. */
  datatype Status = Creator | Administrator | Member | Restricted | Left | Kicked

  /** The statuses that count as belonging to a chat. */
  predicate Belongs(status: Status) {
    status == Member || status == Administrator || status == Creator
  }

  /**
   * Whether one membership check earns the bonus. A chat id of 0 is an
   * unset slot and is never queried; a lookup that failed (`None`) counts
   * as not being a member.
   */
  predicate Counts(chat: int, lookup: Option<Status>) {
    chat != 0 && lookup.Some? && Belongs(lookup.value)
  }

  /**
   * The summed chat bonus; `lookups[i]` is the result of the membership
   * check against `chats[i]`.
   */
  function Bonus(chats: seq<int>, lookups: seq<Option<Status>>): nat
    requires |chats| == |lookups|
    decreases |chats|
  {
    if |chats| == 0 then 0
    else
      var n := |chats| - 1;
      Bonus(chats[..n], lookups[..n]) + (if Counts(chats[n], lookups[n]) then KeysPerChat else 0)
  }

  /** The positions of the configured chats the user belongs to. */
  ghost function MemberSlots(chats: seq<int>, lookups: seq<Option<Status>>): set<int>
    requires |chats| == |lookups|
  {
    set i | 0 <= i < |chats| && Counts(chats[i], lookups[i])
  }

  /** The summed bonus is the per-chat unit times the number of chats joined. */
  lemma {:induction false} BonusCountsMemberSlots(chats: seq<int>, lookups: seq<Option<Status>>)
    requires |chats| == |lookups|
    ensures Bonus(chats, lookups) == KeysPerChat * |MemberSlots(chats, lookups)|
    decreases |chats|
  {
    if |chats| > 0 {
      var n := |chats| - 1;
      BonusCountsMemberSlots(chats[..n], lookups[..n]);
      var earlier := MemberSlots(chats[..n], lookups[..n]);
      if Counts(chats[n], lookups[n]) {
        assert MemberSlots(chats, lookups) == earlier + {n};
        assert n !in earlier;
      } else {
        assert MemberSlots(chats, lookups) == earlier;
      }
    }
  }

  /** The limit of a user without an admin override. */
  function AutoLimit(chats: seq<int>, lookups: seq<Option<Status>>): (r: int)
    requires |chats| == |lookups|
    ensures r >= 1
    ensures MemberSlots(chats, lookups) == {} ==> r == 1
    ensures MemberSlots(chats, lookups) != {} ==> r == KeysPerChat * |MemberSlots(chats, lookups)|
  {
    BonusCountsMemberSlots(chats, lookups);
    var bonus := Bonus(chats, lookups);
    if bonus == 0 then 1 else bonus
  }

  /** The key limit of the user `record`. */
  function CalculateLimit(record: UserRecord, chats: seq<int>, lookups: seq<Option<Status>>): (r: int)
    requires |chats| == |lookups|
    ensures record.manualLimit.Some? ==> r == record.manualLimit.value
    ensures record.manualLimit.None? ==> r >= 1
    ensures record.manualLimit.None? && MemberSlots(chats, lookups) == {} ==> r == 1
    ensures record.manualLimit.None? && MemberSlots(chats, lookups) != {} ==>
      r == KeysPerChat * |MemberSlots(chats, lookups)|
  {
    match record.manualLimit
    case Some(limit) => limit
    case None => AutoLimit(chats, lookups)
  }

  /**
   * A user who belongs to no configured chat gets the single trial key:
   * every check failed, reported a non-member status, or hit an unset slot.
   */
  lemma NoMembershipMeansTrialKey(chats: seq<int>, lookups: seq<Option<Status>>)
    requires |chats| == |lookups|
    requires forall i :: 0 <= i < |chats| ==> !Counts(chats[i], lookups[i])
    ensures AutoLimit(chats, lookups) == 1
  {
  }
}
