# Loendersloot logistics portal, as a Dafny model

The portal is a single-page dashboard rendered from in-memory sample data.
This project models the parts with real logic, and proves what that logic
promises:

- **Registration** (`register_form.dfy`, module `RegisterForm`). The registration
  form covers the eight controlled inputs, the password-strength meter (four
  criteria worth 25 each), the confirmation match, the validity rule that enables
  the "Create Account" button, and the consent guard in the submit handler. The
  page's `useState` pairs are the fields of class `RegisterPage`.
- **Login** (`login_form.dfy`, module `LoginForm`). The login page covers its two
  inputs, the show-password toggle, and the submit handler that refuses empty
  input and otherwise passes the credentials on. Its state is class `LoginPage`.
- **The root component** (`shell.dfy`, module `Shell`). This covers the
  authentication phase (`login` / `register` / `authenticated`), the fixed demo
  credentials, the user record built at registration, logout, and the tab-to-view
  dispatch with its fallback. It also covers the header label taken from the menu
  and the avatar initials. Its state is class `App`. `App.Render` says which
  screen each state shows. `SubmitLogin` and `SubmitRegistration` connect each
  page's callback prop to the root component's handler.
- **Inventory, orders and documents views** (`inventory.dfy`, `orders.dfy`,
  `documents.dfy`). Each view filters its records with two conditions joined by
  AND:
  - a case-insensitive substring search over two fields;
  - an "all"-or-equality status or type filter.

  The documents view adds its CMR, Customs and Reports tabs. The inventory view
  adds low-stock and out-of-stock counts taken over the unfiltered list.
- **Communication view** (`communication.dfy`, module `Communication`). This
  covers the unread-notification badge, the chat input that send and Enter clear,
  and the classification of ticket status, ticket priority and notification kind
  into badge tones and icons.

Shared helpers:

- `Text` holds ASCII lower-casing, `includes`, and `split`/`join` on one character.
- `Filtering` holds `Array.prototype.filter` on sequences. Its lemmas cover:
  subsequence, membership, the partition count, congruence, weakening,
  composition and idempotence.
- `Wrappers` holds `Option`, used for a callback that may not be called.

A badge is modelled by its colour (`Tone`), not by its class string.
`Secondary` is the default `variant="secondary"`. The callback props `onLogin`
and `onRegister` are modelled as the `Option` value a submit handler returns; it
is `Some(arguments)` exactly when the source makes the call.

## Model

| member | source | states |
|---|---|---|
| `RegisterForm.Set` | src/components/register-page.tsx:34-36 | updating one key gives that key the new value and leaves every other key as it was |
| `RegisterForm.RegisterPage.UpdateFormData` | src/components/register-page.tsx:34-36 | the change handler replaces the form with the one-key update; no other page state changes |
| `RegisterForm.AllFilledFields` | src/components/register-page.tsx:61 | `Object.values(formData).every(v => v !== "")` holds iff each of the eight fields is non-empty |
| `RegisterForm.PasswordStrength` | src/components/register-page.tsx:38-45 | the strength is always 0, 25, 50, 75 or 100 |
| `RegisterForm.GetPasswordStrength` | src/components/register-page.tsx:38-45 | adding 25 per criterion, one test after another, yields 25 times the number of criteria met: length at least 8, an A–Z, an a–z, a 0–9 |
| `RegisterForm.EmptyPasswordIsWeakest` | src/components/register-page.tsx:38-45 | the empty password has strength 0 |
| `RegisterForm.StrengthNeverDrops` | src/components/register-page.tsx:40-43 | appending characters to a password never lowers its strength |
| `RegisterForm.LabelFor` | src/components/register-page.tsx:221-223 | the label is Strong iff strength ≥ 75, Medium iff 50 ≤ strength < 75, Weak iff strength < 50 |
| `RegisterForm.IndicatorByCriteria` | src/components/register-page.tsx:212-223 | no label for an empty password; otherwise Strong for three or four criteria, Medium for two, Weak for fewer |
| `RegisterForm.PasswordsMatch` | src/components/register-page.tsx:48 | the passwords match iff the password is non-empty and equal to its confirmation |
| `RegisterForm.FormValidity` | src/components/register-page.tsx:61-65 | the form is valid iff all eight fields are filled, the confirmation equals the password, both consents are given and at least three criteria hold; a valid password has at least three characters |
| `RegisterForm.RegisterPage.constructor` | src/components/register-page.tsx:18-32 | every input starts empty; the show, consent and loading flags start false |
| `RegisterForm.RegisterPage.SetAcceptTerms` | src/components/register-page.tsx:271 | the terms checkbox sets the terms flag only |
| `RegisterForm.RegisterPage.SetAcceptPrivacy` | src/components/register-page.tsx:290 | the privacy checkbox sets the privacy flag only |
| `RegisterForm.RegisterPage.ToggleShowPassword` | src/components/register-page.tsx:201 | the eye button flips password visibility only |
| `RegisterForm.RegisterPage.ToggleShowConfirmPassword` | src/components/register-page.tsx:245 | the eye button flips confirmation visibility only |
| `RegisterForm.RegisterPage.SubmitEnabled` | src/components/register-page.tsx:307 | the button is enabled iff nothing is loading, all eight fields are filled, the confirmation equals the password, both consents are given and at least three strength criteria hold |
| `RegisterForm.RegisterPage.HandleSubmit` | src/components/register-page.tsx:50-59 | without both consents nothing changes and `onRegister` is not called; with both, it is called with the current form and the loading flag ends false |
| `LoginForm.LoginPage.constructor` | src/components/login-page.tsx:15-18 | empty email and password; loading and show-password false |
| `LoginForm.LoginPage.SetEmail` | src/components/login-page.tsx:102 | typing sets the email only |
| `LoginForm.LoginPage.SetPassword` | src/components/login-page.tsx:114 | typing sets the password only |
| `LoginForm.LoginPage.ToggleShowPassword` | src/components/login-page.tsx:124 | the eye button flips password visibility only |
| `LoginForm.ToggleTwice` | src/components/login-page.tsx:124 | pressing the eye button twice restores what was shown |
| `LoginForm.LoginPage.HandleSubmit` | src/components/login-page.tsx:20-29 | with an empty email or password nothing changes and `onLogin` is not called; otherwise it is called once with exactly the current email and password, and the loading flag ends false |
| `Shell.App.constructor` | src/App.tsx:38-46 | the app starts on the login page, on the dashboard tab, with no error and the John Doe record |
| `Shell.App.HandleLogin` | src/App.tsx:57-70 | only "demo@loendersloot.com" with "demo123" authenticates, clears the error and sets the John Doe record; any other pair keeps the phase and the user, and sets the fixed error message |
| `Shell.App.HandleRegister` | src/App.tsx:72-81 | always authenticates with no error; the name is first name, space, last name, and the role and company are copied from the form |
| `Shell.App.HandleLogout` | src/App.tsx:83-87 | from any state: login phase, dashboard tab, empty error |
| `Shell.App.SwitchToRegister` | src/App.tsx:113 | the login page's link moves to the register phase and changes no other App state, so an earlier login error stays |
| `Shell.App.SwitchToLogin` | src/App.tsx:123 | the register page's link moves to the login phase and changes no other App state |
| `Shell.App.SelectTab` | src/App.tsx:150 | a sidebar click sets the active tab only |
| `Shell.App.Render` | src/App.tsx:109-227 | the login and register phases show their page with the current error; the authenticated phase shows a heading that is always the title of the rendered view |
| `Shell.FindMenuItem` | src/App.tsx:198 | `find` returns the first entry whose id matches, and returns nothing exactly when no entry has the id |
| `Shell.HeaderMatchesContent` | src/App.tsx:89-106 | for every tab id, the header label is the title of the view `renderContent` picks |
| `Shell.UnknownTabFallsBack` | src/App.tsx:103-104 | an id that no menu entry has renders the dashboard, under the heading "Dashboard" |
| `Shell.InitialsAreWordStarts` | src/App.tsx:170 | the initials are, in order, the first character of each non-empty space-separated word |
| `Shell.RegisteredInitials` | src/App.tsx:75 | a registered user whose first and last names are non-empty and free of spaces gets exactly their two leading letters as initials |
| `Shell.SubmitLogin` | src/App.tsx:112 | a login-page submit reaches `handleLogin` only with both inputs non-empty; then the demo pair authenticates and any other pair sets the error |
| `Shell.SubmitRegistration` | src/App.tsx:122 | a register-page submit with both consents authenticates with the user built from the form; without them neither the app nor the page's loading flag changes |
| `Text.IncludesAt` | src/components/inventory-management.tsx:81-82 | `includes` holds iff the term occurs at some position |
| `Text.JoinSplit` | src/App.tsx:170 | joining the pieces of `split(' ')` with a space gives back the name |
| `Filtering.FilterIsSubsequence` | src/components/inventory-management.tsx:80 | `filter` keeps an order-preserving subsequence |
| `Filtering.FilterMembership` | src/components/inventory-management.tsx:80-85 | `filter` keeps an element iff it is in the list and satisfies the predicate |
| `Inventory.FilteredItemsIsSubsequence` | src/components/inventory-management.tsx:80-85 | the table shows an order-preserving subsequence of the items |
| `Inventory.FilteredItemsMembership` | src/components/inventory-management.tsx:81-84 | an item is shown iff its product or SKU contains the term, ignoring case, and the filter is "all" or its status |
| `Inventory.EmptySearchShowsAll` | src/components/inventory-management.tsx:81-83 | an empty search with "all" shows every item |
| `Inventory.StatusNarrowsAll` | src/components/inventory-management.tsx:83 | for a fixed search, the rows under a specific status are a subsequence of those under "all" |
| `Inventory.StockCountsBounded` | src/components/inventory-management.tsx:171-182 | the low-stock and out-of-stock counts together never exceed the number of products |
| `Inventory.CountsIgnoreFilters` | src/components/inventory-management.tsx:176-182 | the counts are over the unfiltered list, so they bound the counts of any filtered view |
| `Orders.FilteredOrdersIsSubsequence` | src/components/order-management.tsx:85-90 | the table shows an order-preserving subsequence of the orders |
| `Orders.FilteredOrdersMembership` | src/components/order-management.tsx:86-88 | an order is shown iff its number or customer contains the term, ignoring case, and the filter is "all" or its status |
| `Orders.EmptySearchShowsAll` | src/components/order-management.tsx:86-88 | an empty search with "all" shows every order |
| `Orders.SearchIgnoresCase` | src/components/order-management.tsx:86-87 | terms that differ only in letter case show the same rows |
| `Orders.LowerCasedSearchIsSame` | src/components/order-management.tsx:86-87 | lower-casing the term changes nothing |
| `Orders.FilteredOrdersIdempotent` | src/components/order-management.tsx:85-90 | filtering the shown rows again with the same inputs yields the same rows |
| `Documents.FilteredDocumentsIsSubsequence` | src/components/document-management.tsx:92-97 | the table shows an order-preserving subsequence of the documents |
| `Documents.FilteredDocumentsMembership` | src/components/document-management.tsx:93-96 | a document is shown iff its name or order number contains the term, ignoring case, and the filter is "all" or its type |
| `Documents.EmptySearchShowsAll` | src/components/document-management.tsx:93-95 | an empty search with "all" shows every document |
| `Documents.CmrTabContents` | src/components/document-management.tsx:219 | the CMR tab lists exactly the filtered documents of type "CMR", in table order |
| `Documents.CustomsTabContents` | src/components/document-management.tsx:240 | the Customs tab lists exactly the filtered documents of type "Customs", in table order |
| `Documents.ReportsTabContents` | src/components/document-management.tsx:262 | the Reports tab lists exactly the filtered documents whose type contains "Report" or "Loading", case-sensitively, in table order |
| `Documents.CmrTabEmptyUnderOtherType` | src/components/document-management.tsx:95 | with a specific type filter other than "CMR", the CMR tab is empty |
| `Documents.CmrTabIsOneFilter` | src/components/document-management.tsx:92-97 | under "all" or "CMR", the CMR tab is the search applied directly to the CMR documents |
| `Documents.ReportTypesAmongChoices` | src/components/document-management.tsx:99 | of the five selectable types, exactly "Damage Report" and "Loading Document" are report types |
| `Communication.UnreadPlusReadIsTotal` | src/components/communication-center.tsx:177 | unread plus read is the total, so the badge never exceeds the number of notifications |
| `Communication.NoUnreadIffAllRead` | src/components/communication-center.tsx:177 | the badge is 0 iff every notification is read |
| `Communication.AllUnreadIffNoneRead` | src/components/communication-center.tsx:177 | the badge equals the total iff none is read |
| `Communication.TicketStatusTone` | src/components/communication-center.tsx:126-137 | "Open", "In Progress" and "Resolved" get a coloured badge; every other status gets the default |
| `Communication.TicketStatusTonesDistinct` | src/components/communication-center.tsx:126-137 | two statuses with the same coloured badge are the same status |
| `Communication.PriorityTone` | src/components/communication-center.tsx:139-150 | "High", "Medium" and "Low" get a coloured badge; every other priority gets the default |
| `Communication.PriorityTonesDistinct` | src/components/communication-center.tsx:139-150 | two priorities with the same coloured badge are the same priority |
| `Communication.IconFor` | src/components/communication-center.tsx:115-124 | the icon is the alert iff the kind is "warning", the check iff it is "success", else the bell |
| `Communication.CommunicationCenter.constructor` | src/components/communication-center.tsx:12 | the chat input starts empty |
| `Communication.CommunicationCenter.OnChange` | src/components/communication-center.tsx:213 | typing sets the input to exactly the typed value |
| `Communication.CommunicationCenter.OnKeyPress` | src/components/communication-center.tsx:214 | Enter clears the input; any other key leaves it unchanged |
| `Communication.CommunicationCenter.OnSend` | src/components/communication-center.tsx:216 | the send button clears the input, whatever it held |

## Left out

- Component lifetime is not modelled. React keeps a page's or view's state only while it is mounted.
  - Leaving the login or register phase, by a phase switch or a successful sign-in, unmounts that page (App.tsx:109-127). Logout unmounts the current view (App.tsx:222). Each comes back in its initial state.
  - Each tab change unmounts the previous view (App.tsx:89-106), so its search term, filter and chat input return to their initial values.
  - The `LoginPage`, `RegisterPage` and `CommunicationCenter` objects of the model instead keep their fields across these changes. `SubmitLogin` and `SubmitRegistration` accept a page in any phase.
  - "Changes no other App state" in the rows above speaks of `App`'s fields only.
- Because the registration delay is modelled as immediate, one race is not modelled. "Back to Login" (register-page.tsx:86-93) stays enabled while the page is loading. In the source, a pending `onRegister` therefore still signs the user in after they have gone back to the login page.
- Layout, CSS classes, images, icons and SVG decoration are presentation only. Badge colours are abstracted to `Tone` and icons to `NotificationIcon`.
- The `setTimeout` delays of both submit handlers (login-page.tsx:25, register-page.tsx:55) are modelled as immediate. The loading flag is raised, the callback runs and the flag is lowered within one step. So no state is modelled in which the flag is still up and the callback is pending. The timer has no failure or cancellation path.
- `handleSubmit` in the registration page checks only the two consents. The rest of the validity rule is enforced by disabling the button (`SubmitEnabled`). That the browser does not submit a form whose submit button is disabled is browser behaviour, not modelled.
- `updateFormData` accepts any string key, and an unknown key would add a ninth entry to the object. Every call site passes one of the eight field names, so the key is modelled as the enumeration `Field`.
- `toLowerCase` is modelled as ASCII-only lower-casing, and `/[A-Z]/`, `/[a-z]/`, `/[0-9]/` as ASCII ranges. Unicode case folding is not modelled.
- JavaScript strings are sequences of UTF-16 code units; the model's strings are sequences of characters. The two differ for characters outside the Basic Multilingual Plane:
  - `password.length` (register-page.tsx:40) counts two units for such a character, where the model counts one;
  - `n[0]` in the initials (App.tsx:170) gives a lone surrogate for a word starting with such a character, where `Shell.FirstChar` gives the whole character.
- UI-library components (`Select`, `Tabs`, `Checkbox`, `Sidebar`, `Input`) and HTML `required` / `type="email"` validation are code not visible here.
- The `onChange` setters of the search inputs and the `onValueChange` setters of the status and type selects are plain state setters. The views are therefore modelled as functions of the current search term and filter value.
- The status, customs and type badges and the type icons of the inventory, order and document views (`getStatusBadge`, `getCustomsBadge`, `getTypeIcon`) are presentation-only colour and icon choices, and are not modelled.
- The "Mark All Read" button (communication-center.tsx:229) has no handler, so read flags never change. The communication view's `searchTerm` state (communication-center.tsx:13) is never used.
- The user-settings view holds hardcoded data, five uncontrolled switches, and three switches and a language select that are controlled (user-settings.tsx:14-17, 165-189, 224). Their handlers are plain state setters that nothing else reads. The dashboard overview holds hardcoded data and a greeting. Neither has a state transition to model; both appear only as the views `renderContent` selects.
- The mock records of each view are not modelled as invariants. Every lemma holds for any list of records.
- The fixed badge numbers in the sidebar and header ("2", "4") are presentation constants.
