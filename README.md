# Restaurant website: cart store, admin request gates, booking schema

This project models the logic core of a restaurant website built with Next.js, in Dafny. The core has three parts.

- **The cart store** (`src/store/useCartStore.ts`) is a zustand store.
  - Its state is an ordered list of cart lines plus the flag that shows or hides the cart drawer.
  - Its actions are `addItem`, `removeItem`, `updateQuantity`, `clearCart`, `toggleCart` and `setCartOpen`.
  - Its getters are `getCartTotal` and `getCartCount`.
  - It is modelled as the class `Cart.CartStore`, with the fields `items` and `isOpen`. Each action is a method that replaces `items` or `isOpen`.
  - The new list each action computes is a pure function on sequences: `AddLine`, `WithoutId` and `UpdateLines`. Every method's contract ties the new state to that function.
  - Lemmas state what those functions do to the lines, to the count and to the total.
  - They also prove the store's invariant (`WellFormed`: one line per id, every quantity at least 1) and that every action keeps it.
- **The admin request gates.** There are two gates, and each is modelled as its own pure function from a request and the `ADMIN_ALLOWED_IP` setting to an outcome: `Next`, `Session` or `Rewrite("/access-denied")`.
  - The root `middleware.ts` is modelled by `AdminGate.Middleware`. `Session` stands for handing the request to the session-refresh step `updateSession`.
  - The variant `src/middleware.ts` is modelled by `AdminGateSrc.SrcMiddleware`.
  - The string built-ins the gates rely on are modelled in `JsString` with their ECMAScript meaning: `startsWith`, `includes`, `split(sep)[0]`, `split(',')` and `trim`.
  - Lemmas say where the two gates agree and give three kinds of input on which they do not.
- **The booking schema** (`src/lib/validations.ts`) is the zod object `bookingSchema`.
  - It is modelled by `Booking.Validate`. It runs the schema's seven checks in declaration order and returns the issues of those that fail. An empty list means the booking is accepted.
  - Lengths are counted in UTF-16 code units, as JavaScript's `.length` counts them.
  - Email well-formedness is a parameter `isEmail`.

Modules: `Wrappers` (Option), `JsString`, `Cart`, `AdminGate`, `AdminGateSrc`, `Booking`, one per file.

The methods `Cart.LineScenarios`, `Cart.DrawerScenarios`, `Cart.TotalsScenario` and `Cart.CountScenario` run the steps of each of the ten tests in the store's own test suite (`src/store/useCartStore.test.ts:11-89`) on the class. Each starts from an empty, closed cart, as the suite's `beforeEach` does, and asserts the state its test expects. The lemmas `Booking.ExampleAccepted`, `Booking.BadEmailExample` and `Booking.NoGuestsExample` do the same for `src/lib/validations.test.ts`.

### Edges of the code that the model keeps

- **Forwarded-for lists.** Both gates cut a list-valued address at `" , "` (a space on each side) when the text holds one, and otherwise at `","`. They do not cut at the usual `", "`, which only the bare-comma rule catches.
  - A list that mixes the two styles, such as `"198.51.100.9, 10.0.0.1 , 10.0.0.2"`, is cut at the spaced comma. The address read from it is then `"198.51.100.9, 10.0.0.1"`, which contains a comma and matches no allowlist entry.
  - `AdminGate.MixedSeparatorsKeepComma` and `AdminGate.MixedSeparatorsDenied` state this.
- **Which lines `updateQuantity` removes.** The code filters out every line with quantity 0 or less, not only the updated one. On a well-formed cart this is just the updated line when it reaches 0 (`Cart.UpdateQuantityPresent`).
- **Lines that share an id.** On a cart with two lines of the same id, `addItem` increments every one of them. This is the `map` in the code.
- **Price of an existing line.** When the id is already in the cart, `addItem` keeps that line's own price and name, and the price passed in is ignored (`Cart.AddItemTotal`).
- **Two gates.** The repository has two gates, with different edges:
  - `src/middleware.ts` does not drop blank allowlist entries;
  - it treats only a single blank entry as "unconfigured";
  - it defaults a missing address to `127.0.0.1`;
  - it passes the request on with `NextResponse.next()` instead of calling `updateSession`.

  Both gates are modelled.

## Model

| member | source | states |
|---|---|---|
| JsString.IndexOfFrom | middleware.ts:18-20 | the first occurrence of the search text at or after the start index, or none when there is no occurrence |
| JsString.SplitFirst | middleware.ts:18-21 | `split(sep)[0]` is the longest prefix before the first occurrence of the separator; it is the whole text exactly when the separator does not occur |
| JsString.FirstIndexOfChar | middleware.ts:9 | the index of the first occurrence of a character |
| JsString.SplitOn | middleware.ts:9 | `split(',')` gives at least one piece, no piece holds a comma, and joining the pieces with commas gives back the text |
| JsString.SplitJoin | middleware.ts:9 | splitting comma-free pieces joined with commas gives back the pieces |
| JsString.LeadingWhitespace | middleware.ts:25 | the length of the whitespace run at the start |
| JsString.TrailingWhitespace | middleware.ts:25 | the length of the whitespace run at the end |
| JsString.Trim | middleware.ts:25 | `trim()` gives a contiguous part of the text with only whitespace cut on either side; the part neither starts nor ends with whitespace; it is empty exactly when the text is all whitespace |
| JsString.TrimOfTrimmed | middleware.ts:25 | text that neither starts nor ends with whitespace is its own trim |
| JsString.TrimIdempotent | middleware.ts:25 | trimming twice equals trimming once |
| JsString.TrimKeepsNonWhitespace | middleware.ts:25 | a character that is not whitespace survives trimming |
| Cart.IndexOfId | src/store/useCartStore.ts:33 | the first line with the id, or none exactly when no line has it |
| Cart.Find | src/store/useCartStore.ts:33 | `find` returns the first line of the cart with that id, and returns none exactly when no line has it |
| Cart.IncrementId | src/store/useCartStore.ts:37-41 | every line with the id has its quantity raised by 1; every other line is unchanged; the length is unchanged |
| Cart.WithoutId | src/store/useCartStore.ts:54 | the result holds exactly the lines whose id differs |
| Cart.ClampedQuantity | src/store/useCartStore.ts:62 | `Math.max(0, q + delta)`: never negative, at least `q + delta`, and equal to `q + delta` or 0 |
| Cart.ApplyDelta | src/store/useCartStore.ts:60-65 | lines with the id get the clamped quantity; all other lines are unchanged |
| Cart.KeepPositive | src/store/useCartStore.ts:66 | the result holds exactly the lines with positive quantity |
| Cart.CountAppend | src/store/useCartStore.ts:80-82 | the count of two lists put together is the sum of their counts |
| Cart.TotalAppend | src/store/useCartStore.ts:76-78 | the total of two lists put together is the sum of their totals |
| Cart.SumsOfOne | src/store/useCartStore.ts:76-82 | one line counts its quantity and totals its price times its quantity |
| Cart.SumsWithout | src/store/useCartStore.ts:76-82 | dropping a line lowers the count by its quantity and the total by its subtotal |
| Cart.SumsReplaced | src/store/useCartStore.ts:76-82 | replacing a line moves the count and the total by the difference |
| Cart.CountAtLeastLength | src/store/useCartStore.ts:80-82 | with all quantities at least 1, the count is at least the number of lines |
| Cart.TotalNonNegative | src/store/useCartStore.ts:76-78 | prices and quantities that are not negative give a total that is not negative |
| Cart.OmitWellFormed | src/store/useCartStore.ts:54 | dropping a line keeps the store invariant |
| Cart.WithoutAbsent | src/store/useCartStore.ts:54 | filtering out an id that no line has changes nothing |
| Cart.WithoutPresent | src/store/useCartStore.ts:54 | filtering out an id that exactly one line has drops exactly that line and keeps the order of the rest |
| Cart.KeepPositiveAll | src/store/useCartStore.ts:66 | filtering a list whose quantities are all positive changes nothing |
| Cart.KeepPositiveDropsOne | src/store/useCartStore.ts:66 | when exactly one quantity is not positive, the filter drops that one line |
| Cart.AddItemAppends | src/store/useCartStore.ts:44-48 | a new id is appended at the end with quantity 1, and earlier lines are unchanged |
| Cart.AddItemIncrements | src/store/useCartStore.ts:33-43 | a present id raises only that line's quantity by 1; length, order and the line's price are unchanged |
| Cart.AddItemWellFormed | src/store/useCartStore.ts:31-50 | `addItem` keeps ids unique and quantities at least 1 |
| Cart.AddItemCount | src/store/useCartStore.ts:31-50 | each `addItem` raises the count by exactly 1 |
| Cart.AddItemTotal | src/store/useCartStore.ts:31-50 | each `addItem` raises the total by one unit price: the existing line's when there is one, else the passed-in price |
| Cart.AddItemTotalAt | src/store/useCartStore.ts:33-43 | incrementing a present line raises the total by its price |
| Cart.SubtotalOneMore | src/store/useCartStore.ts:77 | one more unit adds one price to the line's subtotal |
| Cart.AddItemTwice | src/store/useCartStore.ts:31-50 | adding a new item twice gives one line for it with quantity 2 |
| Cart.RemoveItemPresent | src/store/useCartStore.ts:52-56 | removing a present id drops its line, keeps the rest in order, and lowers the count by its quantity |
| Cart.RemoveItemAbsent | src/store/useCartStore.ts:52-56 | removing an absent id changes nothing |
| Cart.RemoveItemWellFormed | src/store/useCartStore.ts:52-56 | `removeItem` keeps the store invariant |
| Cart.UpdateQuantityPresent | src/store/useCartStore.ts:58-69 | at `q + delta <= 0` the line is dropped and the others keep their order; otherwise only that line's quantity becomes `q + delta` |
| Cart.UpdateQuantityAbsent | src/store/useCartStore.ts:58-69 | an absent id leaves a cart of positive quantities unchanged |
| Cart.UpdateQuantityCount | src/store/useCartStore.ts:58-69 | the count moves from the old quantity to `max(0, q + delta)` |
| Cart.UpdateQuantityWellFormed | src/store/useCartStore.ts:58-69 | `updateQuantity` keeps the store invariant |
| Cart.ReplaceQuantityWellFormed | src/store/useCartStore.ts:58-69 | giving one line another positive quantity keeps the store invariant |
| Cart.PizzaLines | src/store/useCartStore.test.ts:11-56 | the lists the store goes through when one item is added, added again, raised from 1 to 2, lowered from 2 to 1, lowered to 0 (the line is dropped), and removed |
| Cart.PizzaBurgerLines | src/store/useCartStore.test.ts:76-79 | adding a pizza and then a burger gives two lines of quantity 1; one more pizza raises only the pizza line to 2 |
| Cart.TwoPizzasOneBurger | src/store/useCartStore.test.ts:76-82 | two pizzas at 10 and one burger at 5 give a total of 25 and a count of 3 |
| Cart.ThreePizzas | src/store/useCartStore.test.ts:84-89 | raising a single pizza line by 2 gives one line of quantity 3, and a count of 3 |
| Cart.CartStore.constructor | src/store/useCartStore.ts:28-29 | the initial state is an empty cart with the drawer closed |
| Cart.CartStore.AddItem | src/store/useCartStore.ts:31-50 | the new items are `AddLine` of the old; the drawer flag is unchanged; the invariant is kept; the count rises by 1 |
| Cart.CartStore.RemoveItem | src/store/useCartStore.ts:52-56 | the new items are the old ones without the id; the drawer flag is unchanged; the invariant is kept |
| Cart.CartStore.UpdateQuantity | src/store/useCartStore.ts:58-69 | the new items are the mapped and filtered old ones; the drawer flag is unchanged; the invariant is kept |
| Cart.CartStore.ClearCart | src/store/useCartStore.ts:71 | the items become empty; the drawer flag is unchanged |
| Cart.CartStore.ToggleCart | src/store/useCartStore.ts:73 | the drawer flag flips; the items are unchanged |
| Cart.CartStore.SetCartOpen | src/store/useCartStore.ts:74 | the drawer flag becomes the argument; the items are unchanged |
| AdminGate.TrimAll | middleware.ts:9 | `map(ip => ip.trim())` trims each entry in place |
| AdminGate.DropEmpty | middleware.ts:9 | `filter(Boolean)` keeps exactly the non-empty entries; the result is empty exactly when every entry is blank |
| AdminGate.DropEmptyAppend | middleware.ts:9 | the filter works entry by entry and keeps order: the result for `a + b` is the result for `a` followed by the result for `b`, and one entry is kept exactly when it is not empty |
| AdminGate.Allowlist | middleware.ts:9 | an address is allowed exactly when it is a non-empty trimmed piece of the setting; entries hold no comma and are trimmed |
| AdminGate.TrimSub | middleware.ts:9 | trimming introduces no new character |
| AdminGate.NormaliseLoopback | middleware.ts:27 | `::1` becomes `127.0.0.1`; any other address is unchanged |
| AdminGate.ClientIp | middleware.ts:15-28 | no address when neither source is present; a non-empty source is cleaned up; an empty source is left empty |
| AdminGate.Middleware | middleware.ts:8-47 | non-admin paths and an empty allowlist pass to the session step; otherwise the request passes exactly when the caller address is present, non-empty and allowed; every other request is rewritten to the access-denied page |
| AdminGate.AdministratorIsGated | middleware.ts:8 | the prefix check also gates `/administrator`, while `/menu` is not gated |
| AdminGate.AllowlistOfJoined | middleware.ts:9 | for a setting made of comma-free entries, an address is allowed exactly when it is the non-empty trim of one of them |
| AdminGate.BlankConfigRestrictsNothing | middleware.ts:9-12 | a setting of only commas and whitespace, including an unset one, gives an empty allowlist and no restriction |
| AdminGate.AllBlankPieces | middleware.ts:9 | every piece of a comma-and-whitespace setting is whitespace only |
| AdminGate.PieceCharsInJoin | middleware.ts:9 | every character of a piece occurs in the joined text |
| AdminGate.ConnectionIpFirst | middleware.ts:15 | when a connection address exists, the forwarded-for header is ignored |
| AdminGate.MissingIpDenied | middleware.ts:33-40 | with neither address source, a restricted admin path is denied |
| AdminGate.SpacedListFirstEntry | middleware.ts:18-19 | a list is cut before its first `' , '` when no comma in front of it has a space just before it |
| AdminGate.CommaListFirstEntry | middleware.ts:20-21 | without `' , '`, a list is cut before its first comma |
| AdminGate.NoCommaNoSpacedComma | middleware.ts:18 | text without commas holds no `' , '` |
| AdminGate.NoCommaFirstEntry | middleware.ts:18-22 | text without commas is not cut |
| AdminGate.LoopbackIsClean | middleware.ts:24-28 | `127.0.0.1` is unchanged by the clean-up |
| AdminGate.LoopbackSixIsCleaned | middleware.ts:24-28 | `::1` is cleaned up to `127.0.0.1` |
| AdminGate.LoopbackSixAllowed | middleware.ts:24-41 | an admin request from `::1` passes a gate whose setting lists `127.0.0.1` |
| AdminGate.EmptyAddressDenied | middleware.ts:15-41 | an admin request whose address source is present but empty is denied by a restricted gate |
| AdminGate.CommaJoinNoSpacedComma | middleware.ts:18-21 | joining with a bare comma creates no `' , '` |
| AdminGate.ForwardedListExample | middleware.ts:17-28 | `"198.51.100.9, 10.0.0.1"` is read as `"198.51.100.9"` |
| AdminGate.SingleAddressAllowlist | middleware.ts:33-41 | with the setting `"203.0.113.5"`, an admin request passes exactly when its caller address is that one |
| AdminGate.MixedSeparatorsKeepComma | middleware.ts:18-25 | a mixed list is cut at the spaced comma only, so the address read from it holds a comma |
| AdminGate.CommaAddressDenied | middleware.ts:33-41 | an address holding a comma is refused by a restricted gate |
| AdminGate.MixedSeparatorsDenied | middleware.ts:15-41 | a list whose part before `' , '` holds a comma is refused by every restricted gate |
| AdminGateSrc.UnfilteredAllowlist | src/middleware.ts:7 | one trimmed entry per comma-separated piece, blanks kept |
| AdminGateSrc.ClientIpOrLoopback | src/middleware.ts:17-28 | a missing address defaults to `127.0.0.1`; a present one is cleaned up; the result is never `::1` |
| AdminGateSrc.SrcMiddleware | src/middleware.ts:6-45 | non-admin paths and an unset list pass on; otherwise the request passes exactly when the caller address is a list entry, and is rewritten to the access-denied page when it is not |
| AdminGateSrc.BlankConfigAllows | src/middleware.ts:7-13 | an unset or whitespace-only setting restricts nothing |
| AdminGateSrc.LoopbackSixAllowedByBoth | src/middleware.ts:17-45 | an admin request from `::1` passes both gates when the setting lists `127.0.0.1` |
| AdminGateSrc.ClientIpsAgree | src/middleware.ts:17-28 | when an address source exists, both gates read the same caller address |
| AdminGateSrc.GatesAgree | src/middleware.ts:6-45 | with an address present and no blank entry, the variant passes on exactly when the root gate hands to the session step, and both deny otherwise |
| AdminGateSrc.DropEmptyKeepsNonEmpty | middleware.ts:9 | filtering a list with no blank entry changes nothing |
| AdminGateSrc.MissingIpDiverges | src/middleware.ts:17 | with no address and `127.0.0.1` allowed, the root gate denies and the variant lets the request through |
| AdminGateSrc.BlankEntryDiverges | src/middleware.ts:7 | with a blank entry and an empty address, the root gate denies and the variant lets the request through |
| AdminGateSrc.SeparatorOnlyConfigDiverges | src/middleware.ts:10 | a setting of commas and whitespace makes the root gate open and the variant refuse every non-empty address |
| Booking.Utf16Length | src/lib/validations.ts:7 | the length in UTF-16 code units lies between the number of characters and twice that; it is 0 only for empty text; it equals the number of characters when all are in the Basic Multilingual Plane |
| Booking.Collect | src/lib/validations.ts:3-11 | the issues of exactly the failing checks, kept in schema order |
| Booking.ChecksComplete | src/lib/validations.ts:3-11 | the check catalogue holds all seven checks |
| Booking.AcceptsIffNothingViolated | src/lib/validations.ts:3-11 | the field constraints all hold exactly when no check fails |
| Booking.Validate | src/lib/validations.ts:3-11 | a booking gets no issues exactly when it meets every field constraint; issues come in schema order, each at most once; an issue is reported exactly when its check fails |
| Booking.IssueReportedIffViolated | src/lib/validations.ts:4-9 | empty date, empty time, fewer than 1 or more than 20 guests, a name shorter than 2, a failed email check, or a phone shorter than 10 each give their own message, and only then |
| Booking.SchemaOrderIsFieldOrder | src/lib/validations.ts:3-11 | issues come in the order the fields are declared |
| Booking.RequestsIrrelevant | src/lib/validations.ts:10 | the optional `requests` field never changes the verdict or the issues |
| Booking.CollectFollowsVerdicts | src/lib/validations.ts:3-11 | bookings on which every check agrees get the same issue list |
| Booking.OnlyIssue | src/lib/validations.ts:3-11 | an ordered issue list made of one kind of issue holds it once |
| Booking.EmailAloneFails | src/lib/validations.ts:8 | with every other field valid, a bad email gives exactly `Invalid email address` |
| Booking.PartySizeAloneFails | src/lib/validations.ts:6 | with every other field valid, below 1 gives exactly `Must be at least 1 guest` and above 20 exactly `Max 20 guests for online booking` |
| Booking.ExampleAccepted | src/lib/validations.test.ts:5-17 | the example booking is accepted when its email passes the email check |
| Booking.BadEmailExample | src/lib/validations.test.ts:19-33 | the example with `not-an-email` fails, and its first message is `Invalid email address` |
| Booking.NoGuestsExample | src/lib/validations.test.ts:35-46 | the example with party size 0 is refused |
| Booking.NameLengthBoundary | src/lib/validations.ts:7 | two characters always satisfy the name check; an empty name fails it; a single character fails it exactly when it is in the Basic Multilingual Plane |

## Left out

- **Persistence.** The zustand `persist` wrapper, its `localStorage` key and the deferred hydration are client-storage I/O (`src/store/useCartStore.ts:84-88`). The store is modelled in memory.
- **Floating point.** The store, the gates and the schema run on JavaScript numbers, but:
  - prices, the total and the party size are modelled as exact `real`s, with no IEEE-754 rounding;
  - quantities and `updateQuantity`'s `delta` are modelled as integers, so a fractional delta is not modelled.
- Cart.CartStore.GetCartTotal and Cart.CartStore.GetCartCount: these carry no contract of their own. They return `Total(items)` and `Count(items)`, and the properties of those folds are the `Cart.*Append`, `Cart.Sums*` and `Cart.AddItem*`/`Cart.UpdateQuantity*` lemmas.
- Cart.CartStore.AddItem, Cart.CartStore.RemoveItem and Cart.CartStore.UpdateQuantity: these actions do not require the store invariant, because the store accepts any state. They promise to keep it only when it held before.
- **Logging.** The gates' `console.log` and `console.warn` calls are side effects with no bearing on the outcome (`middleware.ts:30`, `middleware.ts:35`, `src/middleware.ts:33`).
- **`updateSession` and the Next.js response objects.**
  - The session-refresh step (`@/lib/supabase/session`) is not part of this model. The root gate's hand-off to it is the outcome `Session`.
  - `NextResponse.next()` is `Next`.
  - A rewrite is `Rewrite(path)`, keeping only the new path name of the cloned URL.
- **Route matchers.** The `config.matcher` exports decide which requests reach each gate at all. They are Next.js routing configuration and are not modelled. Which of the two middleware files Next.js loads is not modelled either.
- **Request shape.**
  - `request.ip` and the `x-forwarded-for` header are given as optional strings.
  - Header names, header case-insensitivity and headers repeated several times are not modelled.
- **zod internals.**
  - `z.coerce.number()` is taken after coercion, and the following are not modelled:
    - the `NaN` type error for non-numeric input;
    - `Infinity`;
    - the coercion rules themselves.
  - Type errors for non-string fields are not modelled either.
  - The format test of `.email()` is the parameter `isEmail`.
- Booking.Validate: it returns issues as values. zod's issue objects also carry a code, a path array and, for numbers, the bound and the `inclusive` flag, and these are not modelled. Each issue's field and message are modelled (`Issue.Path`, `Issue.Message`).
- **Presentation and the rest of the application:**
  - React components;
  - server actions over the hosted backend;
  - email sending;
  - realtime listeners;
  - the client-side rate limiter;
  - `toFixed` display formatting.

  None of these is part of this model.
