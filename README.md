# Ads agency backend: a Dafny model of the order, deposit and ad-account handlers

The service keeps three MongoDB collections: users, orders (each embedding an ordered
array of ad accounts), and deposits. Users register, place orders paid from their
balance, and submit deposits. An administrator approves deposits, which credits the
balance, assigns BM (business manager) ids to ad accounts, and sets the status fields.
Every handler is a short chain of guards followed by one or two writes.

This project models those handlers as methods of one class, `Handlers.Store`. The
class has three fields:

- `users`: a map from email to user;
- `orders`: a sequence of orders in insertion order;
- `deposits`: a sequence of deposits in insertion order.

Each method runs its guards in the source's order. It answers with a `Reply`, a datatype
with one constructor per response message; `Reply.Code()` gives the HTTP status. Its
contract states which guard rejects, and that a rejection writes nothing or only what the
source already wrote. For a success it states exactly which record and which field
changed, and that nothing else did.

The MongoDB operators are modelled by their documented meaning:

- `findOne` and `updateOne` act on the first matching document (`Sequences.FirstIndex`).
- The positional `$` acts on the first array element matching the query
  (`Documents.PositionalTarget`).
- `$inc` adds to the field.
- `modifiedCount` is 0 when nothing matched or the new value equals the old one.

The read-side derivations are plain functions with lemmas about them:

- the `getBMShares` aggregation, as the stages `$unwind`, `$match` and `$project`;
- the flattening of a user's ad accounts;
- the newest-first listings of pending orders and of a user's deposits.

`validateEmail` appears twice. `EmailFormat.IsEmailForm` is the language of its regular
expression. `EmailFormat.ValidateEmail` is an executable check. A lemma proves that the
two agree.

Modules: `Sequences` (first match, filter, map, flat, reverse), `JsValues` (request-body
values and JavaScript truthiness), `EmailFormat`, `Documents` (records and query
matching), `Queries` (read side), `Handlers` (the store and the handlers), and
`Scenarios`. `Scenarios` holds short client methods that use only the contracts, for
example: balance 100 minus an order of 40 leaves 60, and approving a deposit twice
credits it twice.

Modelling choices:

- Amounts and balances are unbounded integers.
- Document `_id`s are opaque natural numbers. The `_id` an insert assigns is an input,
  required to be unused (the database guarantees this).
- `Store.Valid()` is the object invariant:
  - users are keyed by their own email;
  - `_id`s are unique within each collection;
  - no stored deposit has a negative amount, since creation rejects them and nothing
    else writes the amount.
- `Store.BalancesNonNegative()` is preserved by every write except registering a user
  whose submitted balance is negative.
- The deposit body is a map from field name to `JsValue`, because the required-field
  loop indexes the body by name. A missing field is `Undefined`.
- `validateEmail` on a non-string tests its string form ("undefined", "null", a numeral,
  ...). `EmailFormat.NonStringRejected` shows that such a value is always rejected.

## Model

| member | source | states |
|---|---|---|
| EmailFormat.ValidateEmailCorrect | index.js:489-492 | the executable check accepts a string exactly when it has the form L@A.B, where L, A and B are non-empty and contain no JavaScript whitespace and no '@' (both directions) |
| EmailFormat.ValidEmailHasOneAt | index.js:489-492 | an accepted address contains exactly one '@' |
| EmailFormat.NonStringRejected | index.js:172-175 | a body value that is not a string (undefined, null, a boolean, a number) never passes the format check |
| Handlers.Store.Register | index.js:33-49 | an email already present is rejected with EmailAlreadyRegistered (400) before the format is checked; an invalid one gets InvalidEmailFormat (400); both leave users unchanged; otherwise exactly that one user is added under its email (201); orders and deposits never change |
| Handlers.Store.PlaceOrder | index.js:66-102 | guards in order: invalid email 400, unknown user 404, balance < totalAmount 400, each leaving users and orders unchanged; on success the user's balance becomes balance - totalAmount (which is >= 0), no other user changes, exactly one order is appended, and the reply's updatedBalance equals the stored balance |
| Handlers.FirstMissingField | index.js:165-170 | the position of the first required field (userEmail, amount, transactionId, imgLink, paymentMethod) whose value is missing or falsy, with every earlier field truthy; None exactly when all five are truthy |
| Handlers.FindMissingField | index.js:166-170 | the loop over the required fields with early return computes FirstMissingField |
| Handlers.Store.CreateDeposit | index.js:159-207 | guards in order: the first falsy field gives FieldRequired with that name (400), then invalid email 400, unknown user 404, NaN or negative amount 400, each leaving deposits unchanged; otherwise exactly one deposit is appended with the parsed amount and status "pending" (201); users and orders never change |
| Handlers.Store.IncBalance | index.js:267-270 | `$inc` adds the amount to the matched user's balance and reports matchedCount 1, or leaves users unchanged and reports 0 |
| Handlers.Store.ApproveDeposit | index.js:239-289 | a deposit id that matches nothing gives 404 with no change; otherwise the deposit's status is overwritten before the user lookup, so the overwrite stays when the user is missing (404); only for "approved" does the user's balance grow by exactly the deposit amount, and the reply's balance is the stored one; there is no guard against approving twice; orders never change |
| Handlers.Store.UpdateAdAccountBmId | index.js:297-333 | a falsy bmId gives 400 with no change; no order holding an ad account with the id gives 404 with no change; otherwise only the first such account of the first such order gets bmId and status "Paused", and the reply is that account as read back |
| Documents.PositionalTarget | index.js:309-317 | the element that `"adAccounts.$"` denotes: the first order matching the query and, in it, the first ad account with the id; None exactly when no order matches |
| Documents.TargetStable | index.js:325-328 | after an update that keeps the account id, looking the id up again finds the same order and account |
| Handlers.Store.SetPositionalStatus | index.js:370-373 | a positional `$set` of the status changes only the targeted account's status, and reports a modification exactly when that status differed |
| Handlers.Store.UpdateBMShareStatus | index.js:365-384 | 404 (BMShareNotUpdated) when no account has the id or its status already equals the new one; otherwise the status of the first account with the id is set and nothing else changes |
| Handlers.Store.UpdateOrderStatus | index.js:439-459 | 404 when no order has the id or its status already equals the new one; otherwise only that order's status changes |
| Handlers.Store.UpdateAdAccountStatus | index.js:461-483 | 404 when no order with that `_id` holds the account, or the status is already equal; otherwise only that account's status changes |
| Queries.BMSharesMember | index.js:338-355 | an entry is produced exactly for an embedded ad account whose bmId is present and non-null and whose status is "Pending", and equals its projection {_id, id, accountName, email, bmId, status} |
| Queries.BMSharesArePending | index.js:341-344 | every entry has status "Pending" and a present, non-null bmId |
| Queries.BMSharesAppend | index.js:338-355 | the entries of earlier orders come before those of later orders |
| Queries.BMSharesOfOrder | index.js:338-355 | over a single order the pipeline yields `AccountShares`, an independent account-by-account definition: one projected entry for each matching account, in array order |
| Queries.BMSharesAccountsAppend | index.js:339-353 | within one order the entries follow the array order of `adAccounts`: splitting the array into a prefix and a suffix splits the entries the same way |
| Queries.BMSharesOneAccount | index.js:339-353 | a single embedded ad account yields exactly one entry, its projection, when its bmId is present and non-null and its status is "Pending", and no entry otherwise |
| Queries.UnwindMember | index.js:339 | a pair is produced by `$unwind` exactly when it combines an order with one of its embedded ad accounts (membership) |
| Queries.UnwindAppend | index.js:339 | `$unwind` keeps the collection's order: the pairs of earlier orders precede those of later ones |
| Queries.UnwindOne | index.js:339 | one order unwinds to exactly as many pairs as it embeds ad accounts, the j-th pair holding the j-th account |
| Handlers.Store.GetUserAdAccounts | index.js:121-147 | 404 exactly when the user is unknown, or when none of the user's orders embeds an ad account; a known user with accounts gets 200 with exactly the flattened list `UserAdAccounts` |
| Queries.UserAdAccountsMember | index.js:132-135 | an ad account is listed exactly when it is embedded in an order whose userEmail is the user's |
| Queries.UserAdAccountsEmpty | index.js:135-140 | the flattened list is empty exactly when every order of the user has an empty `adAccounts` |
| Queries.UserAdAccountsAfterInsert | index.js:132-135 | a newly inserted order of the user adds its accounts after those already listed; an order of another user adds nothing |
| Queries.PendingOrdersMember | index.js:105 | the `/getOrders` listing holds exactly the orders whose status is "pending" |
| Queries.PendingOrdersAfterInsert | index.js:105 | a newly inserted pending order heads the listing; an order with another status leaves it unchanged |
| Handlers.Store.GetDeposits | index.js:210-228 | 404 exactly when the user is unknown; a known user gets exactly `DepositsNewestFirst`, which holds exactly the user's deposits, most recent first |
| Queries.DepositsMember | index.js:219 | the user's listing holds exactly the deposits whose userEmail is the user's |
| Queries.DepositsAfterInsert | index.js:219 | a new deposit of the user heads the user's listing (newest first); a deposit of another user leaves it unchanged |
| Queries.PendingDeposits | index.js:232-235 | `/getPendingDeposits` lists exactly the stored deposits whose status is "pending" (both directions) |
| Queries.PendingDepositsAfterInsert | index.js:232-235 | a new pending deposit is listed last, after the earlier ones, in collection order; a deposit with another status leaves the listing unchanged |
| Sequences.FirstIndex | index.js:244 | the first element matching a query, with no earlier match; None exactly when nothing matches |
| Sequences.Reverse | index.js:105 | `.reverse()`: position k holds the k-th element from the end |

## Left out

- The Express setup, CORS, body parsing, the listen call, the root route and the MongoDB connection (index.js:1-31, 506-515): these are transport and I/O.
- The unused `nodemailer` import (index.js:6) and the comment block in `finally` (index.js:495-500).
- Parsing of `_id`s from hex strings with `new ObjectId(...)`, and the exception it throws on bad input: ids are opaque keys.
- `parseFloat` and floating-point arithmetic on amounts and balances: amounts are integers, and the parsed amount of a deposit is an input (None for NaN).
- The user-existence check of `/deposit/:email` (index.js:178): it queries a `userEmail` field that user documents do not have, with `data.email`. Its result depends on how the driver treats an undefined value, so it is an input boolean.
- `/getUserOrders/:email` (index.js:111-119): its existence check has the same defect (index.js:113) and it is not part of the handlers modelled here.
- `/getUsers`, `/getUser/:email`, `/getOrder/:id` and `/getAdAccountById/:id` (index.js:51-64, 150-157, 389-410): plain lookups that are not part of the handlers modelled here.
- The second `/getUserAdAccounts/:email` handler (index.js:412-437): it is registered after the one at index.js:121 on the same route and is never reached.
- Concurrency: the race between the balance check and the balance write of `/order`, and the lack of atomicity across the two writes of `/order` and `/approveDeposit`.
- The 500 responses of the `catch` blocks: database failures are not modelled.
- Logging and the deposit `timestamp` (index.js:197).
- Request bodies whose fields have other shapes than the model's records: non-string statuses, array or object values in the deposit body, or orders and users lacking fields. JSON values are the primitives of `JsValue`.
- Handlers.Store.ApproveDeposit: the 404 for a failed balance update (index.js:272-274) is modelled, but it can never occur here. In a sequential model the user was found just before the update.
- Handlers.Store.ApproveDeposit: the reply carries the updated deposit as `returnDocument: 'after'` describes it. What `deposit.value` holds depends on the driver version.
