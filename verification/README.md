# Pharmacy storefront: cart, stepper, filter, navigation and menu rules

A Dafny model of the client-side rules of a small pharmacy landing page.
The page scripts `script.js` and `app.js` are two near-identical versions
of the same features. The model covers:

- **Cart store** (`Cart`). `addToCart` looks an item up by id. It adds the quantity to a
  matching item in place, or it appends a new `{id, name, price, quantity}` record.
  `updateCartCount` sums the quantities and shows the `.cart-count` badge when
  the sum is positive; otherwise the badge is removed. `CartStore` holds the
  line items as a `seq<Item>` and the badge as an `Option<int>`. `Sum` is the
  `reduce`, `IndexOf`/`Find` is `Array.prototype.find` and `AfterAdd` is the
  function that specifies `AddToCart`. The cart code of `app.js:159-184` is the
  same as `script.js:187-212`.
- **Quantity stepper** (`Stepper`). `script.js` sets the span to `max(1, q + change)`.
  `app.js` decrements only from a value above 1 and always increments. The two differ
  below 1, and `SteppersDifferBelowOne` shows where.
- **Category filter** (`Catalog`). A group is displayed iff the selection is
  `"all"` or equals the group's category.
- **Navigation highlighting** (`Nav`). The scroll spy checks each section window
  `[offsetTop - 100, offsetTop - 100 + offsetHeight)` in order. When some window
  holds the scroll position, the last such section's link becomes the only active
  link; when that section has no link, no link is active. When no window holds
  it, the flags stay as they were, several possibly set. A click on a `#` link
  whose href parses as a selector leaves only that link active and closes the
  menu. The header is `scrolled` past 50 pixels.
- **Mobile menu** (`Menu`). Three flags: the hamburger's `active`, the nav's
  `active` and the body's `menu-open`. Toggle flips all three, close clears all
  three, and a click outside both the nav and the hamburger clears only the nav flag.

Modelling choices:
- Quantities and pixel offsets are unbounded integers.
- The price is a `real` that is stored and never used in arithmetic.
- Link `active` classes and group `display` styles are arrays of flags, updated one element at a time as the source's `forEach` loops do.
- Most DOM query answers are passed in as values: the section offsets, the link hrefs in document order, whether a click target lies inside the nav or the hamburger, and whether `querySelector` accepts a link's href. The link of a section is computed by `Nav.LinkFor` from the hrefs.

Behaviour of the code worth noting:
- The code validates no quantity. The model accepts any integer, so a cart
  whose quantities sum to 0 or less shows no badge.
- The `script.js` stepper raises a value below 1 to 1 on a decrease.

## Model

| member | source | states |
|---|---|---|
| Cart.IndexOf | script.js:204 | the lookup finds the first item with the id, or reports that no item has it |
| Cart.Sum | script.js:188 | when every quantity is at least 1, the total is at least the number of line items |
| Cart.AfterAdd | script.js:203-210 | after an add the id is in the cart; the length is kept when the id was present and grows by one otherwise; items with other ids are unchanged |
| Cart.Find | app.js:176 | the search loop returns exactly the first matching index, or none when no item matches |
| Cart.CartStore.constructor | script.js:20-22 | the cart starts empty with no badge, and its invariant holds |
| Cart.CartStore.UpdateCartCount | script.js:187-201 | the badge is present and holds the sum of quantities iff that sum is positive; otherwise it is absent |
| Cart.CartStore.AddToCart | script.js:203-212 | the new items are the merge-or-append of the old ones; ids stay unique; the total and the badge grow by exactly the quantity added |
| Cart.Badge | app.js:163-172 | a badge exists iff the total is positive, and then it shows the total |
| Cart.AddExistingMerges | script.js:204-207 | when the id is present, the length is unchanged; that item's quantity grows by exactly the amount and its id, name and price are kept; every other item is unchanged |
| Cart.AddNewAppends | script.js:208-209 | when the id is new, exactly one item `{id,name,price,quantity}` is appended and the earlier items are unchanged |
| Cart.AddKeepsIdsUnique | script.js:204-210 | unique ids before an add imply unique ids after it |
| Cart.SumAppend | app.js:160 | appending an item adds its quantity to the reduced total |
| Cart.SumUpdate | script.js:188 | raising one item's quantity by d raises the reduced total by d |
| Cart.AddGrowsTotal | app.js:175-184 | after an add, the total equals the old total plus the quantity added, whether the item merged or was appended |
| Cart.AddsTotal | script.js:203-212 | after any sequence of adds, the total is the old total plus all quantities passed, and ids stay unique |
| Cart.BadgeIffNonEmpty | script.js:191-200 | when every quantity is at least 1, the total is at least the item count, and the badge is shown iff the cart is non-empty |
| Stepper.ClampedStep | script.js:226 | the step result is at least 1 and at least q + change, and equals one of them: their maximum |
| Stepper.AppIncrease | app.js:201-203 | the increase always yields a larger value, and from 1 upward a decrease undoes it |
| Stepper.AppDecrease | app.js:196-199 | the decrease lowers q by exactly 1 iff q > 1; otherwise it leaves q unchanged |
| Stepper.UpdateQuantity | script.js:224-228 | the span gets `max(1, q + change)`, so it never shows less than 1 |
| Stepper.DecreaseQuantity | app.js:194-199 | the span is decremented only when it holds more than 1 |
| Stepper.IncreaseQuantity | app.js:200-203 | the span always gains exactly 1 |
| Stepper.ClampedDecrementsFloor | script.js:107 | after n ≥ 1 presses of minus the script stepper shows max(1, q - n), never below 1, whatever q was |
| Stepper.AppDecrementsFloor | app.js:194-199 | from q ≥ 1, n presses of minus in app.js give max(1, q - n), never below 1 |
| Stepper.SteppersAgreeFromOne | app.js:193-203 | from q ≥ 1 both versions give the same result for minus and for plus |
| Stepper.SteppersDifferBelowOne | script.js:224-228 | below 1, script.js jumps to 1 on minus while app.js leaves q alone; below 0, app.js plus stays below 1 while script.js gives 1 |
| Catalog.Visible | script.js:121 | a group of the selected category is always shown; a group of another category is shown only when the selection is "all" |
| Catalog.HandleCategoryChange | script.js:118-123 | each group is displayed iff the selection is "all" or equals its category |
| Catalog.AllShowsEverything | app.js:217-219 | selecting "all" shows every group |
| Catalog.SelectionShowsOnlyMatches | script.js:121 | any other selection shows exactly the groups of that category |
| Menu.Toggled | app.js:94-98 | every one of the three flags changes |
| Menu.Closed | app.js:126-130 | all three flags are false |
| Menu.AfterClick | app.js:222-226 | the hamburger and body flags are kept, and a click never turns the nav flag on |
| Menu.MobileMenu.constructor | app.js:3-5 | the menu starts with all three flags cleared |
| Menu.MobileMenu.Toggle | app.js:94-98 | all three flags are flipped |
| Menu.MobileMenu.Close | app.js:126-130 | all three flags are cleared |
| Menu.MobileMenu.HandleOutsideClick | app.js:222-226 | a click outside both nav and hamburger clears the nav flag; any other click changes nothing |
| Menu.ToggleTwiceRestores | script.js:132-136 | a toggle changes every flag, and toggling twice restores all three |
| Menu.CloseIdempotent | script.js:138-142 | close leaves all three flags false, and closing again changes nothing |
| Menu.OutsideClickOnlyNav | script.js:125-129 | an outside click keeps the hamburger and body flags, and the nav stays active only if the click was inside the nav or the hamburger |
| Nav.InWindow | script.js:164-167 | a section whose height is not positive never holds the scroll position |
| Nav.LastInWindow | script.js:163-167 | returns the last section whose window `[top-100, top-100+height)` holds the position, or none when no window holds it |
| Nav.LinkFor | script.js:169 | returns the first link whose href is `#` + id, or none when no link has it |
| Nav.ClearActive | script.js:168 | afterwards no link is active |
| Nav.UpdateActiveNavLink | script.js:155-158 | afterwards exactly the clicked link is active |
| Nav.UpdateActiveLink | script.js:160-175 | if some window holds the position, only the link of the last such section is active (none when it has no link); otherwise the flags are unchanged |
| Nav.HandleScroll | script.js:80-85 | the scroll spy runs, and the header is `scrolled` iff scrollY > 50 |
| Nav.HandleNavLinkClick | script.js:95-103 | an href starting with `#` that `querySelector` accepts leaves exactly that link active and closes the menu; an href it rejects, or one not starting with `#`, changes nothing |
| Nav.SpyLastMatchWins | app.js:135-146 | sections after the last matching one do not change the scroll spy's outcome |

## Left out

- DOM querying, listener wiring, `DOMContentLoaded` and `load` handling: browser plumbing. The model takes their answers (offsets, hrefs, categories, click containment) as parameters.
- `handleNavMenuClick` (script.js:74-78): it forwards the event to `handleNavLinkClick`, but there `currentTarget` is the menu container. The container has no `href`, so the guard never passes. Its only effect is `preventDefault`, which is not modelled.
- Nav.HandleNavLinkClick: the CSS selector grammar is not modelled. Whether `document.querySelector` accepts the href is a parameter; when it throws, the handler stops before marking the link or closing the menu, as modelled. The scrolling itself is not modelled.
- Nav.LinkFor: it compares each href with `"#" + id` exactly. The source builds the selector `.nav-menu a[href="#id"]`, where a `"`, `\` or line break in a section id either makes the selector invalid or is unescaped by CSS (`a\62` matches `#ab`). An invalid selector throws after every link was cleared, which ends the scan and skips the header class update. The model assumes section ids without those characters.
- Menu.MobileMenu.constructor: it assumes the page starts with no `active` or `menu-open` class on the hamburger, nav and body. The markup is not part of this model.
- `smoothScrollTo`, the parallax `translateY(pageYOffset * 0.3)` and `getBoundingClientRect`: floating-point layout and browser calls.
- The add-to-cart toast message: it uses `setTimeout` and the ambient global `event`.
- `parseInt`/`parseFloat` of span text and data attributes, with NaN propagation: quantities arrive as integers and the price as a `real`.
- The add-to-cart branch of the grid click handler only reads the span and calls `addToCart` with it; the model starts at `AddToCart`.
- JavaScript numbers are doubles. The model's integer sums are exact, with no loss of precision above 2^53.
- `Cart.CartStore.AddToCart` replaces the found item by an updated copy. The source mutates the object `find` returned. Nothing else holds that object, so the two cannot be told apart.
- `Cart.CartStore.constructor` assumes the page starts without a `.cart-count` element. The markup is not part of this model.
- `initializePage` (marking the first link active, `scrollTo(0, 0)`, `history.replaceState`), the map iframe fallback and the section opacity reveal: view side effects with no rule to state.
