# Order-book aggregation route, modelled in Dafny

The route `GET /orderbook/{walletId}/{symbol}` collects a user's open and closed
orders for one trading pair from Binance, Huobi and FTX and returns them as
`{openOrders, closedOrders}`. The handler `loadUserOrders` works in five steps:

- It rewrites the URL's dash-separated symbol with `replace('-', '/')`.
- For each exchange, in the fixed order Binance, Huobi, FTX, it takes the first
  stored credential whose lower-cased `id` is that exchange's name.
- If there is one, it runs that exchange's loader.
- Each loader returns `undefined` when the exchange's market list has no market
  whose `id` is the symbol. Otherwise it runs the exchange library's credential
  check and fetches the orders.
- Each loader stamps every order it returns with its exchange name. The handler
  appends each loader's lists to the response with `push`, and nothing sorts
  the result.

FTX differs from the other two in two ways:

- It fetches the full order list and splits it locally. It keeps the orders
  whose `symbol` is the requested one, with `status === 'closed'` going to
  `closedOrders` and every other status to `openOrders`.
- When the credential has extra fields, it sets the `FTX-SUBACCOUNT` header to
  the value of the first field named `Subaccount`. When no such field exists,
  reading `.value` from `undefined` throws.

The model has four modules:

- `Builtins` models the JavaScript built-ins the route calls: `find`, `filter`,
  `replace` with a one-character string pattern, and `toLowerCase`. It also
  holds `IndexOf`, which the route never calls. `IndexOf` is the
  first-occurrence search, used only to specify where `replace('-', '/')` acts.
  The route's `forEach` and `push` appear in `Orders` and `Aggregation`.
- `Orders` holds the order record and the in-place `forEach` stamping, done as
  an array loop.
- `Exchanges` holds credentials, the exchange-library clients and the three
  loaders.
- `Aggregation` holds the handler. `Aggregate` is its outcome as a function.
  `LoadUserOrders` is the handler as written: a response object of class
  `OrderBookResponse` grown by `PushAll`. Lemmas tie `Aggregate` to
  `ExpectedResponse`, a reference description written directly from the client
  data.

Each exchange-library client is a value. It holds the market list, the
library's verdict on an (apiKey, secret) pair, and what the order fetches
return. The Binance and Huobi fetches are functions of the symbol they are
given. The FTX fetch is a function of the subaccount header. So both the symbol
passed and the header selected have an observable effect. The stored credentials and
the raw symbol are parameters of the handler.

Nothing in the route catches an error (get.ts:88-123). A failed credential
check rejects the whole request. So does the `TypeError` from reading `.value`
on the `undefined` that `find` returns when no `Subaccount` field exists. In
both cases the orders already collected are lost. The subaccount error is
raised before the credential check (get.ts:67-74). `Aggregate` returns the
first such error in Binance, Huobi, FTX order, and `AggregateMatchesReference`
states when each one occurs. The missing-subaccount error is
`UndefinedSubaccount`.

The market guard compares each market's `id` field (not its unified `symbol`)
with the slash-separated symbol. The model keeps this comparison as written.

## Model

| member | source | states |
|---|---|---|
| Builtins.FindIndex | app/modules/routes/orderBook/get.ts:11 | the index `find` stops at: the element there satisfies the predicate and none before it does; None only when no element satisfies it |
| Builtins.Find | app/modules/routes/orderBook/get.ts:68 | `find` is undefined exactly when no element satisfies the predicate; otherwise it is the first element that does |
| Builtins.Filter | app/modules/routes/orderBook/get.ts:78-79 | `filter` keeps only elements satisfying the predicate and never lengthens the list |
| Builtins.FilterCount | app/modules/routes/orderBook/get.ts:78-79 | each element satisfying the predicate keeps its multiplicity; every other element is dropped entirely |
| Builtins.FilterCountAll | app/modules/routes/orderBook/get.ts:78-79 | the multiplicity statement of FilterCount for all elements at once |
| Builtins.FilterIsSubsequence | app/modules/routes/orderBook/get.ts:78-79 | the filtered list is a subsequence of the input, so relative order is kept |
| Builtins.IndexOf | app/modules/routes/orderBook/get.ts:90 | the first-occurrence position that a string-pattern `replace` acts on (the route calls no `indexOf`): -1 exactly when the character is absent; otherwise the position of its first occurrence |
| Builtins.ReplaceFirst | app/modules/routes/orderBook/get.ts:90 | one-character `replace` keeps the length of the string |
| Builtins.ReplaceFirstSpec | app/modules/routes/orderBook/get.ts:90 | with no occurrence the string is unchanged; otherwise only the first occurrence is overwritten and the rest on both sides is kept |
| Builtins.ToLower | app/modules/routes/orderBook/get.ts:98 | same length; each upper-case ASCII letter becomes its lower-case counterpart; every other character is kept |
| Orders.Stamped | app/modules/routes/orderBook/get.ts:22-23 | the `forEach` callback: the order gets `exchange` set to the name, with its id, symbol, status and datetime kept |
| Orders.Tagged | app/modules/routes/orderBook/get.ts:22-23 | stamping keeps the list length and leaves every order with `exchange` set to the name |
| Orders.TaggedAt | app/modules/routes/orderBook/get.ts:22-23 | the k-th stamped order is the k-th input order with only `exchange` changed |
| Orders.TaggedElements | app/modules/routes/orderBook/get.ts:45-46 | the one-for-one correspondence of TaggedAt for every position |
| Orders.TaggedSource | app/modules/routes/orderBook/get.ts:82-83 | every order of a stamped list is the stamped copy of an order of the original list |
| Orders.StampExchange | app/modules/routes/orderBook/get.ts:22-23 | the in-place `forEach` loop leaves the array equal to the stamped copy of its old contents |
| Orders.TagCopy | app/modules/routes/orderBook/get.ts:82-83 | stamping an array holding a fetched list yields the stamped list |
| Exchanges.IsListed | app/modules/routes/orderBook/get.ts:11 | the market guard passes exactly when some market's `id` equals the symbol |
| Exchanges.SpotLoad | app/modules/routes/orderBook/get.ts:6-50 | Binance/Huobi loader: undefined exactly when no market id equals the symbol; an authentication error exactly when listed and the credential is rejected; otherwise the lists fetched for that symbol, of the same length, each order with only `exchange` set to the loader's name |
| Exchanges.LoadSpotOrders | app/modules/routes/orderBook/get.ts:6-50 | the loader as written (guard, credential check, fetch, in-place stamping) returns exactly SpotLoad's outcome |
| Exchanges.SubaccountHeader | app/modules/routes/orderBook/get.ts:67-72 | no header when there are no extra fields; an UndefinedSubaccount error exactly when extra fields exist but none is named `Subaccount`; otherwise the header is the value of the first such field |
| Exchanges.ClosedFor | app/modules/routes/orderBook/get.ts:79 | the `closedOrders` filter accepts only orders of the symbol with status "closed"; among the symbol's orders it accepts exactly those the `openOrders` filter rejects |
| Exchanges.FtxPartition | app/modules/routes/orderBook/get.ts:77-80 | open orders all have the symbol and a status other than "closed"; closed orders all have the symbol and status "closed"; every matching order keeps its multiplicity in its list; both lists keep the input's order |
| Exchanges.FtxPartitionExact | app/modules/routes/orderBook/get.ts:78-79 | an input order is in openOrders exactly when it matches the symbol and is not closed, and in closedOrders exactly when it matches and is closed; non-matching orders are in neither |
| Exchanges.FtxLoad | app/modules/routes/orderBook/get.ts:52-86 | undefined exactly when unlisted; an error exactly when listed and either the subaccount lookup fails or the credential is rejected, with the subaccount error taking precedence; otherwise the partition of the orders fetched under the selected header, each stamped "FTX" |
| Exchanges.FtxLoadStatus | app/modules/routes/orderBook/get.ts:75-85 | every order FTX returns is stamped "FTX", has the requested symbol, and sits in the list its status calls for |
| Exchanges.LoadFtxOrders | app/modules/routes/orderBook/get.ts:52-86 | the FTX loader as written returns exactly FtxLoad's outcome |
| Aggregation.FormatSymbol | app/modules/routes/orderBook/get.ts:90 | same length; unchanged when there is no dash; otherwise the first dash becomes a slash and the text before and after it is kept |
| Aggregation.FormatSymbolKeepsOthers | app/modules/routes/orderBook/get.ts:90 | every position other than the first dash keeps its character |
| Aggregation.SelectCredential | app/modules/routes/orderBook/get.ts:98-99 | no credential exactly when no lower-cased id equals the exchange name; otherwise the first credential whose lower-cased id does |
| Aggregation.SpotStep | app/modules/routes/orderBook/get.ts:98-114 | a Binance or Huobi block throws only that exchange's AuthenticationError and adds orders only when the user has a credential for it and it lists the symbol (the exact outcome is SpotStepOutcome) |
| Aggregation.FtxStep | app/modules/routes/orderBook/get.ts:116-123 | the FTX block throws only UndefinedSubaccount or FTX's AuthenticationError and adds orders only when the user has an FTX credential and FTX lists the symbol (the exact outcome is FtxStepOutcome) |
| Aggregation.Append | app/modules/routes/orderBook/get.ts:101-104 | the two `push(...)` calls: each list grows by the loader's list, and the orders collected before keep their positions |
| Aggregation.Aggregate | app/modules/routes/orderBook/get.ts:88-123 | the handler's outcome: an error is one a loader throws (AuthenticationError of Binance, Huobi or FTX, or UndefinedSubaccount); the exact failure condition, error precedence and response are stated by AggregateMatchesReference |
| Aggregation.SpotStepOutcome | app/modules/routes/orderBook/get.ts:98-114 | a Binance or Huobi block fails exactly when the exchange is credentialed and listed and rejects the credential; otherwise it adds the stamped fetched lists when the exchange contributes, and nothing when it does not |
| Aggregation.FtxStepOutcome | app/modules/routes/orderBook/get.ts:116-123 | the FTX block fails exactly when FTX is credentialed and listed and the subaccount lookup or credential check fails; otherwise it adds the stamped partition when FTX contributes, and nothing when it does not |
| Aggregation.AggregateMatchesReference | app/modules/routes/orderBook/get.ts:93-123 | the handler fails exactly when some exchange's block fails, reporting the first failure in Binance, Huobi, FTX order (for FTX alone, UndefinedSubaccount when the subaccount lookup fails, else its AuthenticationError); otherwise each list is Binance's then Huobi's then FTX's stamped orders, an exchange that does not contribute adding none, with no reordering |
| Aggregation.NoCredentialsEmptyResponse | app/modules/routes/orderBook/get.ts:93-123 | with no credential for any of the three exchanges the response is two empty lists |
| Aggregation.OrdersComeFromContributingExchanges | app/modules/routes/orderBook/get.ts:98-123 | every order in the response is stamped with the name of an exchange the user holds a credential for and which lists the symbol |
| Aggregation.FtxOrdersMatchTheirList | app/modules/routes/orderBook/get.ts:116-123 | every FTX order of the response has the requested symbol; the closed ones are in closedOrders and the rest in openOrders |
| Aggregation.UnlistedExchangesAreIgnored | app/modules/routes/orderBook/get.ts:11-56 | an exchange that does not list the symbol affects nothing: its credential verdict and order lists can change without changing the outcome |
| Aggregation.SpotStepIgnoresUnlisted | app/modules/routes/orderBook/get.ts:11-34 | a Binance or Huobi block whose exchange does not list the symbol has the same outcome whatever the client's credential verdict and order fetches |
| Aggregation.FtxStepIgnoresUnlisted | app/modules/routes/orderBook/get.ts:56 | the FTX block has the same outcome whatever FTX's credential verdict and order fetch when FTX does not list the symbol |
| Aggregation.OrderBookResponse.constructor | app/modules/routes/orderBook/get.ts:93-96 | the response starts with two empty lists |
| Aggregation.OrderBookResponse.PushAll | app/modules/routes/orderBook/get.ts:102-103 | `push(...)` appends a loader's open and closed lists to the end of the response's lists |
| Aggregation.OrderBookResponse.PushIfPresent | app/modules/routes/orderBook/get.ts:101-104 | a loader's lists are appended when it returned some, and the response is unchanged when it returned `undefined` |
| Aggregation.QuerySpot | app/modules/routes/orderBook/get.ts:98-100 | selecting the credential and running the Binance or Huobi loader gives the block's outcome |
| Aggregation.QueryFtx | app/modules/routes/orderBook/get.ts:116-118 | selecting the credential and running the FTX loader gives the block's outcome |
| Aggregation.LoadUserOrders | app/modules/routes/orderBook/get.ts:88-133 | the handler as written: format the symbol, run the three blocks in order, push their results onto a response object, return the response; its outcome is exactly Aggregate's |

## Left out

- The exchange library's network calls (`fetchMarkets`, `fetchOpenOrders`, `fetchClosedOrders`, `fetchOrders`) are values in the client records. Their own failures (network errors, an exchange refusing a request) are not modelled.
- `checkRequiredCredentials` is the client's `acceptsCredentials` verdict on the key and secret assigned to the client. Its own rules belong to the library.
- Fastify request and response handling is left out. So are `DepoUserController.getUserApiKeys` and its failures. The credential list and the raw symbol are parameters, and the outcome `Ok(lists)` stands for the body `{ response: lists }`.
- The async/await sequencing becomes plain sequential execution.
- The client fields `apiKey`, `secret` and `headers`, and Huobi's `fetchOpenOrdersMethod` option, are library configuration. The only part with logic, the choice of the subaccount header, is modelled.
- The commented-out sort by `datetime` is not modelled, because it is dead code.
- ToLower: lower-cases ASCII letters only. JavaScript's `toLowerCase` also maps non-ASCII letters, which the model does not capture.
- Values that are not of the expected shape are not modelled. Examples are a credential without `id` or `extraFields`, an order without `status`, or a market without `id`. Throwing on an undefined `id` is not modelled, and an absent status is treated like any status other than "closed".
- Exchanges.LoadSpotOrders: stands for both `loadBinanceOrders` and `loadHuobiOrders`. The two differ only in the library class, the Huobi option and the stamped name, which is a parameter here.
- Aggregation.Append: its contract states the new lengths and that the orders already collected keep their positions. It does not state where the loader's orders land; AggregateMatchesReference states the full concatenation.
- Orders.StampExchange: each order is a value in an array slot. Stamping one JavaScript object that appears in two lists at once (aliasing) is not modelled.
