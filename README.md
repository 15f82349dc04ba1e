# TechStore storefront core in Dafny

This project models the logic of a small storefront built with Next.js:

- the checkout route `POST /api/checkout`;
- the checkout page, which shows the cart total, keeps the shipping form and opens the payment popup;
- the product list page, with its search and category filter and its category menu;
- the products route `GET`/`POST /api/products`;
- the contact-form route `POST /api/send-mail`.

The database behind these routes is modelled as the class `Store.Database`. It has four fields:

- `users`: a map from email to user, standing for the `users` table and its unique `email` column;
- `orders`: the sequence of `orders` rows;
- `orderItems`: the sequence of `order_items` rows;
- `products`: the sequence of `products` rows.

Each database write either succeeds whole or fails and changes nothing. The inputs decide which.

The checkout handler `CheckoutRoute.Checkout` runs seven steps in a fixed order:

1. validate the request;
2. total the cart;
3. upsert the customer by email;
4. insert the order header;
5. insert the order lines;
6. post the payload to the payment gateway;
7. answer with an envelope.

A failing step answers at once, and nothing already written is undone. The method's contract states
the resulting state for each step the handler can stop at (`CheckoutRoute.StopsAt`): the writes of
the earlier steps are stored, and none of the later ones. `CheckoutRoute.AmountsAgree` shows that for
one checkout these four amounts are equal:

- the order's `total_amount`;
- the gateway's `gross_amount`;
- the sum over the stored lines;
- the sum over the gateway's item manifest.

Everything outside the program is an input of the method that models the call:

- the outcome of each database call and the keys the database generates;
- the gateway's reply and the mail provider's reply;
- the clock reading used in the gateway order id;
- the mail-provider key.

The code does not do the following, and neither does the model:

- The code does not check that quantities are positive or prices non-negative.
- It does not detect a duplicate gateway order id. Two checkouts that read the same millisecond get
  the same id (`CheckoutRoute.MidtransOrderIdCollision`).
- It rolls nothing back after a later failure.
- A gateway call that throws, or whose reply is not JSON, does not get its own error class. The
  catch-all turns it into 500 "Internal server error".
- The prices come from the client's cart.

## Model

| member | source | states |
|---|---|---|
| Pricing.LineAmounts | app/checkout/page.tsx:268 | one amount per cart line, in cart order, each `price * quantity` |
| Pricing.Reduce | app/api/checkout/route.ts:33-36 | the reduce as written: a left fold from a start value that adds `price * quantity` line by line; it has no contract of its own, and `Pricing.ReduceIsSum` states its sum |
| Pricing.ReduceIsSum | app/api/checkout/route.ts:33-36 | the left-to-right reduce from any start value adds that value to the sum of the line amounts |
| Pricing.Total | app/api/checkout/route.ts:33-36 | the cart total equals the sum of `price * quantity` over the lines; an empty cart totals 0 |
| Pricing.TotalExample | app/api/checkout/route.ts:33-36 | the cart 50000 x 2 plus 30000 x 1 totals 130000 |
| Store.UpsertByEmail | app/api/checkout/route.ts:40-51 | the upserted email holds the incoming name and phone; an existing row keeps its id, a new row gets the generated id; every other row is unchanged |
| Store.UpsertPreservesKeying | app/api/checkout/route.ts:40-51 | an upsert keeps the users keyed by email and keeps every existing user id |
| Store.UsersWithEmail | app/api/checkout/route.ts:48 | in a table keyed by email, the users carrying an email are exactly that email's row |
| Store.UpsertLeavesOneUser | app/api/checkout/route.ts:40-51 | after an upsert exactly one user has the upserted email |
| Store.UpsertTwice | app/api/checkout/route.ts:40-51 | two upserts with one email leave the second call's name and phone under the first call's id (last write wins) |
| Store.Database.Upsert | app/api/checkout/route.ts:40-59 | on error, nothing changes and no row is returned; otherwise the users become the upsert and the stored row is returned |
| Store.Database.InsertOrder | app/api/checkout/route.ts:61-86 | on error, nothing changes; otherwise the order is appended and returned |
| Store.Database.InsertOrderItems | app/api/checkout/route.ts:95-105 | the batch of lines is appended whole, or nothing is appended on error |
| Store.Database.InsertProduct | app/api/products/route.ts:52-72 | on error, nothing changes; otherwise the row is appended and returned |
| CheckoutRoute.ValidRequest | app/api/checkout/route.ts:26 | the request is accepted exactly when it has a customer and a non-empty item list; a predicate, used by `CheckoutRoute.Checkout`'s 400 case and by `CheckoutPage.SubmitRequest` |
| CheckoutRoute.DecimalString | app/api/checkout/route.ts:38 | the clock value's decimal digits: non-empty, all digits, no leading zero |
| CheckoutRoute.DecimalRoundTrip | app/api/checkout/route.ts:38 | reading the digits back gives the clock value |
| CheckoutRoute.MidtransOrderIdCollision | app/api/checkout/route.ts:38 | two gateway order ids are equal exactly when the clock readings are equal |
| CheckoutRoute.MidtransOrderId | app/api/checkout/route.ts:38 | the gateway order id is "ORDER-" followed by one or more decimal digits |
| CheckoutRoute.NewOrder | app/api/checkout/route.ts:61-76 | the order header: the user's id, the total, status "pending", method "midtrans", the gateway order id and the shipping snapshot of the customer; no contract of its own, `CheckoutRoute.Checkout` and `CheckoutRoute.AmountsAgree` state what is stored |
| CheckoutRoute.OrderItemsFor | app/api/checkout/route.ts:88-93 | one order line per cart line, in cart order, with the order's id and the line's product id, quantity and price |
| CheckoutRoute.ItemDetailsFor | app/api/checkout/route.ts:117-122 | one manifest entry per cart line, in cart order, with product id, price, quantity and name |
| CheckoutRoute.PayloadFor | app/api/checkout/route.ts:107-123 | the gateway payload: the order id and total, the customer's name, email and phone, and the item manifest; no contract of its own, `CheckoutRoute.AmountsAgree` states its amounts |
| CheckoutRoute.OrderItemsTotal | app/api/checkout/route.ts:88-97 | the stored lines' `price * quantity` sum to the cart total |
| CheckoutRoute.ManifestTotalIsTotal | app/api/checkout/route.ts:117-122 | the manifest's `price * quantity` sum to the cart total |
| CheckoutRoute.AmountsAgree | app/api/checkout/route.ts:61-123 | for one checkout, the order's `total_amount`, the gateway `gross_amount` and both line sums are equal; the gateway `order_id` is the stored `midtrans_order_id` |
| CheckoutRoute.Checkout | app/api/checkout/route.ts:21-158 | an invalid request answers 400 "Invalid request data" and writes nothing. A failure at a step answers that step's 500 message and keeps exactly the earlier steps' writes. The stored order is pending/midtrans, with the total, the gateway order id and the shipping snapshot. A non-ok gateway reply leaves the order and its lines stored. Success answers the token and the internal order id |
| CheckoutPage.EmptyForm | app/checkout/page.tsx:28-35 | the form starts with exactly the six fields, all empty |
| CheckoutPage.CalculateTotal | app/checkout/page.tsx:55-61 | 0 without checkout data; otherwise the sum of the displayed line amounts, 0 for an empty cart |
| CheckoutPage.SubmitRequest | app/checkout/page.tsx:73-76 | the request carries the form as the customer and the stored cart's items, or no items without a cart; the route accepts it exactly when a stored cart is present and not empty |
| CheckoutPage.HasToken | app/checkout/page.tsx:81 | a reply carries a usable token exactly when it is a success envelope with a non-empty token; a predicate, used by `CheckoutPage.Page.HandleSubmit` |
| CheckoutPage.ShownTotalIsCharged | app/checkout/page.tsx:55-61 | the total the page shows is the order total and the gateway amount the route computes for the request the page sends |
| CheckoutPage.Page.constructor | app/checkout/page.tsx:26-45 | empty form and not loading; the stored cart is loaded when present, otherwise the page goes to /products |
| CheckoutPage.Page.HandleInputChange | app/checkout/page.tsx:113-118 | only the named entry of the form takes the new value; every other entry is unchanged |
| CheckoutPage.Page.HandleSubmit | app/checkout/page.tsx:63-111 | posts the form and cart, the customer being the six form entries; opens the popup only for a successful reply with a non-empty token when the gateway script is loaded; any other reply alerts; loading ends false |
| CheckoutPage.Page.OnPayment | app/checkout/page.tsx:83-100 | the stored cart is removed, and the page goes home, only on success or pending; error and close change nothing |
| ProductsPage.Lower | app/products/page.tsx:54-55 | lower-casing keeps the length and maps each character |
| ProductsPage.Includes | app/products/page.tsx:54-55 | `includes` holds exactly when the needle occurs at some position of the text |
| ProductsPage.Filtered | app/products/page.tsx:48-66 | the filter effect: never longer than the products, and every product it keeps is one of them and passes both the search and the category test |
| ProductsPage.FilteredIsFilter | app/products/page.tsx:48-66 | the two conditional filter steps equal one filter by "passes the search and the category test" |
| ProductsPage.FilteredSpec | app/products/page.tsx:49-65 | the shown list is a subsequence of the products in their order; every shown product passes both tests; every product that passes both is shown |
| ProductsPage.SearchKeepsMatches | app/products/page.tsx:51-57 | with a non-empty query, each shown product's lower-cased name or description contains the lower-cased query |
| ProductsPage.FilteredIdempotent | app/products/page.tsx:49-65 | filtering the shown list again gives the same list |
| ProductsPage.CategoriesOf | app/products/page.tsx:38 | one category per product, in product order |
| ProductsPage.Distinct | app/products/page.tsx:37-39 | the distinct categories hold exactly the values of the input |
| ProductsPage.DistinctSpec | app/products/page.tsx:37-39 | the category menu holds every category and only those, each once, ordered by first occurrence |
| ProductsPage.Page.constructor | app/products/page.tsx:19-24 | no products, loading, empty query, category 'all' |
| ProductsPage.Page.ApplyFilters | app/products/page.tsx:48-66 | the shown list becomes the filtered view of the products; nothing else changes |
| ProductsPage.Page.FetchProducts | app/products/page.tsx:27-43 | a successful load replaces the products and keeps the shown list and the category menu consistent with them; loading ends |
| ProductsPage.Page.SetSearchQuery | app/products/page.tsx:93 | the query changes and the shown list follows it |
| ProductsPage.Page.SetSelectedCategory | app/products/page.tsx:98 | the category changes and the shown list follows it |
| ProductsPage.Page.ClearFilters | app/products/page.tsx:146-149 | query '' and category 'all'; the shown list is then all the products |
| ProductsRoute.Matching | app/api/products/route.ts:12-14 | an absent, empty or 'all' category selects the whole table; any other category selects rows of the table that all have it, and keeps every product of that category |
| ProductsRoute.SortNewestFirst | app/api/products/route.ts:20 | the rows in `created_at` descending order, a permutation of the input |
| ProductsRoute.Take | app/api/products/route.ts:16-18 | a prefix of the rows, as long as the limit allows |
| ProductsRoute.RunQuery | app/api/products/route.ts:10-20 | the database's answer to a query: at most as many rows as the table, and at most the limit when one is given |
| ProductsRoute.ListingSpec | app/api/products/route.ts:10-22 | listed rows are newest first, drawn from the matching products, all of them without a limit and `min(limit, matching)` of them with one; with a category other than 'all', each row has that category |
| ProductsRoute.GetProducts | app/api/products/route.ts:4-38 | a store error answers 500 with its message; otherwise 200 with the matching products, newest first, cut to the limit |
| ProductsRoute.MissingRequired | app/api/products/route.ts:45 | a required field is missing when it is absent or falsy, a price of 0 included; a predicate, used by `ProductsRoute.CreateProduct`'s 400 case |
| ProductsRoute.StockOf | app/api/products/route.ts:61 | stock is 0 exactly when absent or 0, and the given value otherwise |
| ProductsRoute.RowOf | app/api/products/route.ts:54-63 | the inserted row: the five required body fields, the stock or 0 when it is falsy, and the id and creation time the database assigns; no contract of its own, `ProductsRoute.CreateProduct` states the stored row |
| ProductsRoute.CreateProduct | app/api/products/route.ts:40-81 | a falsy required field (price 0 included) answers 400 and inserts nothing; a store error answers 500 with its message and inserts nothing; otherwise 201 with the stored row, which holds the six body fields |
| SendMail.MissingRequired | app/api/send-mail/route.ts:10 | a field is missing when it is absent or empty; a predicate, used by `SendMail.Handle`'s 400 case |
| SendMail.ReplaceNewlines | app/api/send-mail/route.ts:42 | `replace(/\n/g, '<br>')` character by character; no contract of its own, the lemmas below state its properties |
| SendMail.NoNewlineLeft | app/api/send-mail/route.ts:42 | no newline survives the replacement |
| SendMail.NewlineFreeUnchanged | app/api/send-mail/route.ts:42 | text without newlines comes through unchanged |
| SendMail.ReplaceNewlinesAppend | app/api/send-mail/route.ts:42 | replacing in a concatenation is concatenating the replaced parts |
| SendMail.ReplaceNewlinesLength | app/api/send-mail/route.ts:42 | the result is three characters longer per newline |
| SendMail.ReplaceNewlinesAt | app/api/send-mail/route.ts:42 | each input character keeps its place, shifted by three per earlier newline: a newline becomes "<br>", any other character is copied unchanged |
| SendMail.ReplaceNewlinesIdempotent | app/api/send-mail/route.ts:42 | replacing twice equals replacing once |
| SendMail.Html | app/api/send-mail/route.ts:36-43 | the HTML template ends with the message, its newlines replaced, followed by the closing tags |
| SendMail.EmailFor | app/api/send-mail/route.ts:32-44 | fixed sender and recipient; the subject is "Contact Form: " followed by the given subject |
| SendMail.Handle | app/api/send-mail/route.ts:5-65 | validation comes first: a falsy field answers 400 and sends nothing. Without a key the answer echoes the four fields and sends nothing. Otherwise one message is sent, its HTML the template filled with the four fields, and a non-ok reply answers 500 "Failed to send email" |

## Left out

- JSON parsing of request bodies and replies is left out: it is a library call. Each body is taken
  already parsed, with absent fields as `None`. A body that fails to parse, making the catch-all
  answer 500 "Internal server error", is not modelled.
- Request fields of the wrong JavaScript type are not modelled, for example a price sent as a
  string or a message sent as a number. Customer fields are taken as strings.
- The database client, the gateway call and the mail-provider call are foreign calls. Their
  outcomes and the keys the database generates are inputs. Storage-level uniqueness races and
  concurrent requests are not modelled: one request runs at a time.
- Base64 credential encoding, HTTP headers, endpoint URLs and reading environment variables are
  library plumbing. The mail-provider key is a parameter.
- `Date.now()` is replaced by a clock reading passed in. Nothing claims it is unique.
- `parseInt` of the GET `limit` parameter is a library call. A given limit is taken as a natural
  number already.
- `toLowerCase` is modelled for ASCII letters only. Full Unicode case mapping is a library table.
- JavaScript numbers are modelled as unbounded integers. Floating-point rounding and overflow are
  out of scope.
- `formatPrice` is left out: it is locale formatting.
- Rendering, animation and images are left out, and so are the alerts in the payment callbacks. Router navigation is kept only as the
  page's current path.
- The checkout page's `loading` flag is only modelled at the end of `handleSubmit`. While the
  request runs it is true; the model does not keep that intermediate state.
- Storage of the cart is reduced to one entry, read when the checkout page mounts and removed by
  the payment callbacks.
- The order in which React runs effects is left out. Every page event is modelled as its own state
  update followed by the filter effect.
- `SendMail.Handle`: on a sent message the answer carries no provider payload. The provider's reply
  body echoed by `{success: true, data}` is opaque to this system.
- `ProductsRoute.SortNewestFirst`: rows with equal `created_at` may come back from the database in
  any order. The model fixes one order for them, and only the ordering and permutation properties
  are stated.
- Log output (`console.error`, `console.warn`) is left out.
- app/page.tsx and app/api/upload/route.ts are not part of this model. The first one only renders,
  and the second one is file encoding, a signature and a foreign upload.
- app/products/[id]/page.tsx is not part of this model. It fetches one product, keeps the quantity
  between 1 and the stock with its two buttons, writes the `checkout` entry the checkout page reads,
  and goes to /checkout. The checkout page takes that entry as the input of
  `CheckoutPage.Page.constructor`, with any items at all, so nothing in the model relies on that
  quantity bound.
- lib/supabase.ts is not part of this model. The product fields are the ones the pages and routes
  read.
