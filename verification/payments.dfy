/**
 * The payment ledger: a purchase records a waiting payment under a
 * reference string; reconciling that reference raises the payer's limit by
 * one (turning it into a manual limit) and removes the entry, so each
 * reference is honoured at most once. Whether the payment really arrived
 * is decided elsewhere.
 */
module Payments {
  import opened Wrappers
  import opened Store
  import opened Entitlement

  /** The price of one extra key slot: 0.5 TON, in nanotons. */
  const PriceNano: int := 500_000_000

  /** The number a string of decimal digits denotes. */
  function DigitsValue(text: string): nat
    requires AllDigits(text)
    decreases |text|
  {
    if |text| == 0 then 0
    else DigitsValue(text[..|text| - 1]) * 10 + (text[|text| - 1] as int - '0' as int)
  }

  /** The decimal representation of `n`, without leading zeros. */
  function Decimal(n: nat): (r: string)
    ensures |r| > 0 && AllDigits(r)
    ensures |r| > 1 ==> r[0] != '0'
    ensures DigitsValue(r) == n
  {
    if n < 10 then ['0' + n as char]
    else
      var r := Decimal(n / 10) + ['0' + (n % 10) as char];
      assert r[..|r| - 1] == Decimal(n / 10);
      r
  }

  /** Different numbers have different decimal representations. */
  lemma DecimalInjective(a: nat, b: nat)
    requires Decimal(a) == Decimal(b)
    ensures a == b
  {
  }

  /** The payment reference of a purchase by `id` at whole second `seconds`. */
  function Reference(id: UserId, seconds: nat): string {
    "pay_" + id + "_" + Decimal(seconds)
  }

  /** In the reference of a decimal id, the first `_` after the prefix ends the id. */
  lemma SeparatorAfterId(id: UserId, seconds: nat)
    requires AllDigits(id)
    ensures Reference(id, seconds)[4 + |id|] == '_'
    ensures forall i :: 4 <= i < 4 + |id| ==> Reference(id, seconds)[i] != '_'
  {
  }

  /**
   * For decimal user ids, a reference determines the payer and the second
   * of the purchase: two purchases share a reference only when they are by
   * the same user in the same second.
   */
  lemma {:induction false} ReferenceInjective(a: UserId, x: nat, b: UserId, y: nat)
    requires AllDigits(a) && AllDigits(b)
    requires Reference(a, x) == Reference(b, y)
    ensures a == b && x == y
  {
    var ra, rb := Reference(a, x), Reference(b, y);
    SeparatorAfterId(a, x);
    SeparatorAfterId(b, y);
    assert |a| == |b|;
    assert a == ra[4..4 + |a|] == rb[4..4 + |b|] == b;
    assert Decimal(x) == ra[5 + |a|..] == rb[5 + |b|..] == Decimal(y);
    DecimalInjective(x, y);
  }


  /** A started purchase: the store to persist and the reference to pay with. */
  datatype Purchase = Purchase(store: Snapshot, reference: string)

  /**
   * Starts a purchase by `id` at time `seconds`. The reference is not
   * checked against existing entries: a second purchase by the same user in
   * the same second replaces the first.
   */
  function Buy(s: Snapshot, id: UserId, seconds: nat): (r: Purchase)
    ensures r.reference == Reference(id, seconds)
    ensures r.store.users == s.users && r.store.order == s.order
    ensures r.store.pending.Keys == s.pending.Keys + {r.reference}
    ensures r.store.pending[r.reference] == PendingPayment(id, PriceNano, seconds, Waiting)
    ensures forall ref :: ref in s.pending && ref != r.reference ==> r.store.pending[ref] == s.pending[ref]
    ensures WellFormed(s) ==> WellFormed(r.store)
  {
    var reference := Reference(id, seconds);
    Purchase(s.(pending := s.pending[reference := PendingPayment(id, PriceNano, seconds, Waiting)]), reference)
  }

  /** Outcome of a reconciliation: the store to persist and the payer's new limit, if any. */
  datatype Reconciliation = Reconciliation(store: Snapshot, newLimit: Option<int>)

  /** Whether reconciling `reference` has any effect. */
  predicate Reconcilable(s: Snapshot, reference: string) {
    reference in s.pending && s.pending[reference].userId in s.users
  }

  /**
   * Credits a confirmed payment: the payer's limit as it stands (the manual
   * limit, or else the computed one) plus one becomes their manual limit and
   * the pending entry is dropped. An unknown reference, or one whose payer
   * has no record, leaves the store as it is.
   */
  function Finalize(s: Snapshot, reference: string,
                    chats: seq<int>, lookups: seq<Option<Status>>): (r: Reconciliation)
    requires |chats| == |lookups|
    ensures !Reconcilable(s, reference) ==> r.store == s && r.newLimit.None?
    ensures Reconcilable(s, reference) ==>
      var id := s.pending[reference].userId;
      && r.newLimit == Some(CalculateLimit(s.users[id], chats, lookups) + 1)
      && r.store.users.Keys == s.users.Keys
      && r.store.users[id].manualLimit == r.newLimit
      && r.store.users[id].username == s.users[id].username
      && r.store.users[id].keys == s.users[id].keys
      && r.store.users[id].keysUsed == s.users[id].keysUsed
      && (forall other :: other in s.users && other != id ==> r.store.users[other] == s.users[other])
      && r.store.order == s.order
      && r.store.pending.Keys == s.pending.Keys - {reference}
      && (forall ref :: ref in r.store.pending ==> r.store.pending[ref] == s.pending[ref])
    ensures WellFormed(s) ==> WellFormed(r.store)
  {
    if reference !in s.pending then Reconciliation(s, None)
    else
      var id := s.pending[reference].userId;
      if id !in s.users then Reconciliation(s, None)
      else
        var record := s.users[id];
        var baseline := match record.manualLimit
          case Some(limit) => limit
          case None => CalculateLimit(record, chats, lookups);
        var credited := record.(manualLimit := Some(baseline + 1));
        Reconciliation(
          s.(users := s.users[id := credited], pending := s.pending - {reference}),
          Some(baseline + 1))
  }

  /**
   * Reconciliation raises the payer's entitlement by exactly one, and the
   * raised limit no longer depends on chat membership.
   */
  lemma FinalizeAddsOneKey(s: Snapshot, reference: string,
                           chats: seq<int>, lookups: seq<Option<Status>>,
                           laterChats: seq<int>, laterLookups: seq<Option<Status>>)
    requires |chats| == |lookups| && |laterChats| == |laterLookups|
    requires Reconcilable(s, reference)
    ensures var id := s.pending[reference].userId;
            CalculateLimit(Finalize(s, reference, chats, lookups).store.users[id], laterChats, laterLookups)
            == CalculateLimit(s.users[id], chats, lookups) + 1
  {
  }

  /**
   * Reconciling the same reference again changes nothing and credits
   * nothing, whatever the outcome of the first call.
   */
  lemma FinalizeAtMostOnce(s: Snapshot, reference: string,
                           chats: seq<int>, lookups: seq<Option<Status>>)
    requires |chats| == |lookups|
    ensures var first := Finalize(s, reference, chats, lookups);
            var second := Finalize(first.store, reference, chats, lookups);
            second.store == first.store && second.newLimit.None?
  {
  }

  /**
   * A purchase by a known user followed by its reconciliation credits one
   * extra key and leaves the pending map as it was before the purchase.
   */
  lemma BuyThenFinalize(s: Snapshot, id: UserId, seconds: nat,
                         chats: seq<int>, lookups: seq<Option<Status>>)
    requires |chats| == |lookups|
    requires id in s.users
    requires Reference(id, seconds) !in s.pending
    ensures var bought := Buy(s, id, seconds);
            var paid := Finalize(bought.store, bought.reference, chats, lookups);
            && paid.newLimit == Some(CalculateLimit(s.users[id], chats, lookups) + 1)
            && paid.store.pending == s.pending
            && paid.store.users[id].keys == s.users[id].keys
  {
  }

  /**
   * A user on one reference chat (computed limit 3) who pays once ends with
   * a manual limit of 4.
   */
  lemma OneChatPaymentScenario(s: Snapshot, id: UserId, seconds: nat)
    requires id in s.users && s.users[id].manualLimit.None?
    requires Reference(id, seconds) !in s.pending
    ensures var bought := Buy(s, id, seconds);
            var paid := Finalize(bought.store, bought.reference, [-100], [Some(Member)]);
            paid.store.users[id].manualLimit == Some(4)
  {
  }
}
