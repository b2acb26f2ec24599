# Key bot entitlement core, in Dafny

A model of the bookkeeping core of a Telegram bot that hands out
time-limited access keys. Every request loads one store snapshot — the
user records and the pending payments. Requests that change it write the
whole snapshot back. A refused key request, the key listing, the admin
search, an override of an unknown user and a reconciliation that finds
no reference or no payer write nothing. The model keeps that shape: an
operation that may save is a pure function from a `Snapshot` to the
`Snapshot` it saves (the loaded one when it saves nothing), plus whatever
the user is shown; the key listing and the admin search return no
snapshot at all.

- `Store` (`store.dfy`): keys, user records, pending payments and the
  snapshot. `order` records the insertion order of user ids, which is the
  order the bot iterates its user map in. `WellFormed` says that `order`
  lists each user once and that every stored `keys_used` counter equals
  the length of the key list. The module also holds the load fallback and
  `ensure_user`.
- `Entitlement` (`entitlement.dfy`): the key limit. An admin override wins
  outright. Otherwise the user earns `KEYS_PER_CHAT = 3` for each
  configured reference chat where they are member, administrator or
  creator, and gets 1 if that sum is 0. Membership results are inputs: one
  `Option<Status>` per configured chat, where `None` is a failed lookup.
  A chat id of 0 is an unset slot and is never queried.
- `KeyIssuer` (`keys.dfy`): issuing a key against the limit, and listing
  keys as active or expired.
- `Admin` (`admin.dfy`): finding a user by numeric id or `@username`, and
  the manual-limit override.
- `Payments` (`payments.dfy`): creating a waiting payment and reconciling
  it into a limit increase.

Inputs that the bot takes from Telegram, the clock or `secrets` are
parameters: membership lookups, the time, and the key id and value.

Behaviour of the code that the model keeps, though it may look unintended:
- a key whose expiry equals the current time is listed as expired;
- the override only writes to users that already exist;
- a purchase does not check its reference for collisions, so a second
  purchase by the same user in the same second overwrites the first (for
  decimal user ids, `Payments.ReferenceInjective` shows that only such
  purchases share a reference);
- a reference whose payer has no record is neither credited nor removed;
- a manual limit is returned as it is, so "limit ≥ 1" holds only for
  computed limits.

## Model

| member | source | states |
|---|---|---|
| Store.Load | bot.py:43-50 | a missing store file, or one that is not valid JSON, gives an empty, well-formed snapshot; a decoded one is used unchanged |
| Store.EnsureUser | bot.py:56-66 | an unknown id gets exactly one new record: no override, zero keys, counter 0, and is appended to iteration order; a known id keeps its override, keys and counter and only its username changes; all other users and all pending payments are untouched; well-formedness is preserved |
| Entitlement.BonusCountsMemberSlots | bot.py:80-97 | the summed chat bonus equals `KEYS_PER_CHAT` times the number of configured chats whose lookup succeeded with member, administrator or creator |
| Entitlement.AutoLimit | bot.py:80-103 | without an override, the limit is 1 when the user belongs to no configured chat and otherwise `KEYS_PER_CHAT` per chat joined; it is always at least 1 |
| Entitlement.CalculateLimit | bot.py:70-103 | a set manual limit is returned exactly, whatever the memberships; without one, the result is the per-chat count above, or 1 |
| Entitlement.NoMembershipMeansTrialKey | bot.py:82-103 | if no configured chat counts (each lookup failed, reported a non-member status, or hit an unset slot), the computed limit is 1 |
| KeyIssuer.IssueKey | bot.py:168-205 | refused exactly when the user already holds at least their limit; a refusal reports limit and count and leaves the store as loaded; a success appends exactly one key with the given id and value, created now and valid 30 days, after the earlier keys in order; it resyncs the counter, keeps the override, refreshes the username, appends a new user to iteration order and otherwise keeps that order, and leaves other users and payments alone; afterwards keys ≤ limit; well-formedness is preserved |
| KeyIssuer.IssueKeepsLimit | bot.py:175-204 | issuing a key does not change the limit that applies to the user |
| KeyIssuer.RepeatedIssuance | bot.py:175-204 | with `used` keys under limit `L`, `n` requests leave exactly `min(L, used + n)` keys; when `used ≥ L` none succeeds |
| KeyIssuer.TrialKeyScenario | bot.py:175-204 | a new user who belongs to no configured chat (each check failed, reported a non-member status, or hit an unset slot) gets one key; the second request is refused as 1 of 1 used |
| KeyIssuer.ManualLimitScenario | bot.py:175-204 | with a manual limit of 8 and 2 keys, 7 requests give 6 keys and end at 8 |
| KeyIssuer.ListKeys | bot.py:216-245 | the listing shows every key of the user once, in issuance order; a key is active iff its expiry is after now, otherwise expired; the active list is the user's active keys, each once, in issuance order; the store is not written back |
| Admin.FirstWithUsername | bot.py:303-308 | returns the first position in iteration order whose user has the given username, with no earlier match; returns none only when no user has that username |
| Admin.FindUser | bot.py:296-312 | an all-digit query finds itself iff that id is known; an `@name` query finds a known user called `name` with no earlier user of that name in iteration order; any other query finds nothing; an empty or unknown id is never returned |
| Admin.FindByUsernameComplete | bot.py:303-310 | in a well-formed store with non-empty ids, `@name` finds someone whenever some user is called `name` |
| Admin.SetLimit | bot.py:338-355 | applied exactly when the target is known; it then sets the manual limit to the new value and changes nothing else; for an unknown target the store is unchanged |
| Admin.OverrideWins | bot.py:76-78 | after an override, the user's limit is the admin's value whatever their memberships |
| Payments.Decimal | bot.py:363 | the purchase time renders as a non-empty digit string without leading zeros whose decimal value is the time itself |
| Payments.DecimalInjective | bot.py:363 | different whole seconds render as different digit strings |
| Payments.SeparatorAfterId | bot.py:363 | in the reference of a decimal user id, the `_` after the id is the first one after the `pay_` prefix |
| Payments.ReferenceInjective | bot.py:363 | for decimal user ids, two purchases get the same reference only when they are by the same user in the same second |
| Payments.Buy | bot.py:359-376 | the reference is `pay_<id>_<seconds>`; a waiting entry for the payer at the fixed price is stored under it; users and all other pending entries are unchanged |
| Payments.Finalize | bot.py:404-418 | for a pending reference whose payer exists, the payer's manual limit becomes their current limit plus one and only that entry leaves the pending map; nothing else changes; otherwise the store is unchanged and nothing is credited |
| Payments.FinalizeAddsOneKey | bot.py:410-416 | after reconciliation the payer's limit is exactly one more than before, and it no longer depends on memberships |
| Payments.FinalizeAtMostOnce | bot.py:404-418 | reconciling the same reference a second time changes nothing and credits nothing |
| Payments.BuyThenFinalize | bot.py:360-418 | a purchase by a known user followed by its reconciliation credits one extra key, keeps their keys and returns the pending map to its state before the purchase |
| Payments.OneChatPaymentScenario | bot.py:410-416 | a user without override who belongs to one chat (limit 3) and pays once ends with manual limit 4 |

## Left out

- Reading and writing the JSON file and its encoding are left out. `Store.Load` models only the fallback to an empty store, which covers a missing file and a file that is not valid JSON. Other read errors, such as a permission error or content that is not UTF-8, raise out of `load_data` instead; the model does not represent them. A file missing the `users` or `pending` field is not modelled.
- Message handlers, keyboards, help texts, the admin dialogue state and all message formatting are presentation, not bookkeeping.
- Random key ids and values come from `secrets`; they are inputs to `IssueKey`. The code never checks that key values are unique, so the model claims no uniqueness.
- Clock readings are whole seconds. The source reads the clock twice for a key's `valid_until` and `created_at` and keeps fractions of a second; the model reads it once.
- A purchase also reads the clock twice: whole seconds for the reference and the fractional time for `created_at`. `Payments.Buy` uses one whole-second reading for both.
- KeyIssuer.IssueKey: expiry is `now + 30 * 86400` seconds. The source adds 30 calendar days to a naive local time, so across a daylight-saving change the stored expiry differs from that by an hour.
- The TON amount is the float 0.5; the model stores the integer nanoton price `PriceNano`. The payment link is presentation.
- The "set limit" button data is parsed at bot.py:335 by splitting `set_lim_<id>_<limit>` on `_`. That gives four parts unpacked into three names, so the handler stops with an error before it changes anything. `Admin.SetLimit` models the update on an already parsed target and limit.
- Admin authorisation against the admin list is left out. So are the best-effort notifications whose failures are swallowed and the stubbed payment check that never reports a payment. The background worker is left out too.
- Concurrency is left out: the load-modify-save cycles are not serialised, and racing requests can lose updates.
- The membership oracle is left out: its results are inputs. The warning logged when a lookup fails is left out too; only its effect, counting as not a member, is modelled. The source has two chat slots, and the model accepts any number of slots.
- The conversion of the user id string to an integer for the membership lookup is left out.
- Admin.FindUser: the query is taken already stripped of whitespace, and only ASCII `0`-`9` count as digits. Python's `isdigit` also accepts other Unicode digits.
