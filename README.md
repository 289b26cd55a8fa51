# Lemoa navigation model

Lemoa is a GTK desktop client for Lemmy, a federated link-aggregation service. This project
models the part of the client that has behaviour of its own:

- the top-level `App` component's message handler, which decides which screen is shown;
- its back stack of result messages;
- the paged post and community lists;
- the login flags and the stored "current account" record.

Two smaller pieces are modelled alongside it: the profile page's update and the small helpers in
`src/util.rs`.

Files and modules:

- `wrappers.dfy` (`Wrappers`): `Option` and `Result`.
- `lemmy_types.dfy` (`LemmyTypes`): the API library's records, reduced to the fields the client reads.
- `rust_str.dfy` (`RustStr`): Rust's `str::trim` and `str::starts_with`.
- `util.dfy` (`Util`): `src/util.rs`.
- `profile_page.dfy` (`ProfilePage`): `src/components/profile_page.rs`. The `ProfilePage` class's `Update` overwrites
  the person and refills the post list in a loop. It is proved against the value-level
  `AfterUpdatePerson`.
- `app.dfy` (`AppComponent`): `src/main.rs`.
  - The `App` class has one field per `App` field that the handler touches.
  - `App.Init` models `App::init`. `App.Update` models `App::update`: it pushes the back stack, then
    either goes back or runs `Dispatch`, the handler's `match`.
  - These methods are proved against pure functions on a `Model`: `StepGuarded` for one message,
    and `Handle` for the part of a message's handling that does not touch the back stack.
    `StepGuarded` is `Step` (the handler as written) with the back-stack underflow guarded; see
    "## Findings".
  - Handling a message returns its effects in order: messages sent to itself (`sender.input`),
    the background requests started, and messages to child pages.
- `app_properties.dfy` (`AppProperties`): what the handler promises, as lemmas over `Step`,
  `StepGuarded` and `Run` (the handling of a sequence of messages).

The back stack is not limited to two entries. It grows with every `Done*` result and every
`ShowMessage`, and shrinks only by going back.

## Model

| member | source | states |
|---|---|---|
| `Util.GetWebImageMsg` | src/util.rs:4-10 | `Unload` exactly when there is no URL; otherwise `LoadImage` of the URL's serialisation |
| `Util.GetWebImageUrl` | src/util.rs:12-18 | the empty string exactly when there is no URL; otherwise the URL's serialisation |
| `Util.WebImageMsgCarriesUrl` | src/util.rs:4-18 | for `Some(u)` the image message carries exactly `get_web_image_url(Some(u))`; `Unload` corresponds to the empty string |
| `Util.MarkdownToPangoMarkup` | src/util.rs:20-22 | the converted markup when HTML-to-Pango conversion succeeds; otherwise the input text unchanged |
| `ProfilePage.AfterUpdatePerson` | src/components/profile_page.rs:99-111 | after `UpdatePerson(p)` the info is `p` and the post list is `p`'s posts, element by element in the same order |
| `ProfilePage.UpdatePersonIdempotent` | src/components/profile_page.rs:99-111 | applying the same `UpdatePerson(p)` twice leaves the page as applying it once |
| `ProfilePage.UpdatePersonDropsOldPosts` | src/components/profile_page.rs:105-108 | a post shown before the update and not among `p`'s posts is gone afterwards (the list is cleared before refilling) |
| `ProfilePage.ProfilePage.constructor` | src/components/profile_page.rs:80-97 | the page starts with the given details and an empty post list |
| `ProfilePage.ProfilePage.Update` | src/components/profile_page.rs:99-111 | the new page state is `AfterUpdatePerson` of the old one; the avatar receives `Unload` exactly when the person has no avatar, otherwise `LoadImage` of its URL |
| `RustStr.TrimStartStripsLeading` | src/main.rs:452 | `trim_start` drops exactly the leading white space: the dropped part is white space, and the kept suffix does not start with white space |
| `RustStr.TrimEndStripsTrailing` | src/main.rs:452 | `trim_end` drops exactly the trailing white space: the dropped part is white space, and the kept prefix does not end with white space |
| `RustStr.TrimEmptyIffAllWhitespace` | src/main.rs:452 | `s.trim()` is empty if and only if every character of `s` is white space |
| `RustStr.Trim` | src/main.rs:452 | `str::trim`: the definition (trailing trim of the leading trim); what it keeps and drops is stated by `TrimStartStripsLeading`, `TrimEndStripsTrailing` and `TrimEmptyIffAllWhitespace` |
| `RustStr.StartsWith` | src/main.rs:455 | `str::starts_with`: the definition (the prefix is no longer than the text and equals its first characters); used by `WithScheme`, whose contract states the scheme choice |
| `AppComponent.WithScheme` | src/main.rs:455-459 | a text already starting with "http" is kept as it is; the other case is stated by `WithSchemeShape` |
| `AppComponent.WithSchemeShape` | src/main.rs:455-459 | a text not starting with "http" gets exactly the `https://` scheme in front; either way the address starts with "http" and ends with the typed text |
| `AppComponent.NextPage` | src/main.rs:484-489 | page 1 when the previous rows are to be removed, otherwise the current page plus one |
| `AppComponent.SearchQuery` | src/main.rs:508-513 | no query exactly when the search text is empty, otherwise the text itself |
| `AppComponent.InitModel` | src/main.rs:333-387 | the instance chooser is shown iff no instance is stored, otherwise the loading screen; logged in iff a token is stored; both counters at 1; empty back stack and lists; a first `StartFetchPosts(None, true)` is sent iff an instance is stored |
| `AppComponent.IsRecorded` | src/main.rs:440-448 | the definition of the six messages saved on the back stack (`DoneFetchCommunities`, `DoneFetchCommunity`, `DoneFetchPerson`, `DoneFetchPost`, `DoneFetchPosts`, `ShowMessage`); `AppProperties.BackQueueRecordsMessage` and `AppProperties.RunRecordsHistory` state that exactly these are pushed |
| `AppComponent.OnDoneChoosingInstance` | src/main.rs:451-475 | the definition of the `DoneChoosingInstance` arm; `AppProperties.BlankInstanceIgnored` and `AppProperties.InstanceChosen` state its outcome on blank input, a successful parse and a failed one |
| `AppComponent.OnStartFetchPosts` | src/main.rs:482-497 | the definition of the `StartFetchPosts` arm; `AppProperties.StartFetchPostsSetsPage` states the page, type and request and that nothing else changes |
| `AppComponent.OnDoneFetchPosts` | src/main.rs:498-506 | the definition of the `DoneFetchPosts` arm; `AppProperties.DoneFetchPostsReplacesOrAppends` and `AppProperties.FetchPostsThenDone` state the replace-or-append behaviour |
| `AppComponent.OnFetchCommunities` | src/main.rs:507-530 | the definition of the `FetchCommunities` arm; `AppProperties.FetchCommunitiesSetsPage` states the screen, page, type, query and request and that nothing else changes |
| `AppComponent.OnDoneFetchCommunities` | src/main.rs:532-540 | the definition of the `DoneFetchCommunities` arm; `AppProperties.DoneFetchCommunitiesReplacesOrAppends` and `AppProperties.FetchCommunitiesThenDone` state the replace-or-append behaviour |
| `AppComponent.OnLogin` | src/main.rs:594-626 | the definition of the `Login` arm; `AppProperties.LoginNeedsInstance` states that it needs a stored instance and which request it starts |
| `AppComponent.Handle` | src/main.rs:450-656 | the definition of the message `match`, one case per `AppMsg` variant; `HandleKeepsPages`, `StepGuardedKeepsWellFormed` and the `AppProperties` lemmas state its properties, and `App.Dispatch` is proved equal to it |
| `AppComponent.Step` | src/main.rs:438-656 | the handler as written panics exactly on `PopBackStack` with fewer than two back-stack entries |
| `AppComponent.StepGuarded` | src/main.rs:645-653 | the corrected handler never panics; it agrees with `Step` wherever `Step` does not panic, and it ignores `PopBackStack` on a shorter stack |
| `AppComponent.HandleKeepsPages` | src/main.rs:482-530 | no message moves a page counter below 1 |
| `AppComponent.StepGuardedKeepsWellFormed` | src/main.rs:438-656 | each handled message keeps both page counters at least 1 and the back stack made of recorded messages only |
| `AppComponent.ProfileAction` | src/main.rs:407-412 | the Profile menu entry opens the stored user's profile exactly when a user name is stored |
| `AppComponent.App.constructor` | src/main.rs:364-382 | the fields are those of `InitModel` |
| `AppComponent.App.Init` | src/main.rs:328-387 | builds a fresh, well-formed `App` and returns exactly the model and effects of `InitModel` |
| `AppComponent.App.Update` | src/main.rs:438-656 | the new fields and the effects are exactly those of `StepGuarded` from the old fields; the class invariant is kept |
| `AppComponent.App.Dispatch` | src/main.rs:450-656 | for every message but `PopBackStack`, the new view fields and the effects are exactly those of `Handle` from the old view fields, and the back stack is not touched |
| `AppComponent.App.DispatchListing` | src/main.rs:451-540 | for `DoneChoosingInstance`, the two fetches, their two answers and `Login` (src/main.rs:594-626), the new view fields and the effects are exactly those of `Handle` |
| `AppComponent.App.DispatchScreen` | src/main.rs:476-656 | for every other message but `PopBackStack`, the new view fields and the effects are exactly those of `Handle`, changing at most the screen, the message, the logged-in flag and the account |
| `AppComponent.App.HandleDoneChoosingInstance` | src/main.rs:451-475 | fields and effects as `OnDoneChoosingInstance` of the old fields |
| `AppComponent.App.HandleStartFetchPosts` | src/main.rs:482-497 | fields and effects as `OnStartFetchPosts` of the old fields |
| `AppComponent.App.HandleDoneFetchPosts` | src/main.rs:498-506 | the post list is cleared on page 1 and the new posts are pushed in order, as `OnDoneFetchPosts` |
| `AppComponent.App.HandleFetchCommunities` | src/main.rs:507-530 | fields and effects as `OnFetchCommunities` of the old fields |
| `AppComponent.App.HandleDoneFetchCommunities` | src/main.rs:532-540 | the community list is cleared on page 1 and the new communities are pushed in order, as `OnDoneFetchCommunities` |
| `AppComponent.App.HandleLogin` | src/main.rs:594-626 | fields and effects as `OnLogin` of the old fields |
| `AppComponent.App.HandlePopBackStack` | src/main.rs:645-653 | with at least two entries: re-sends the second entry from the top, then removes the top entry twice, leaving the old stack minus its top two entries |
| `AppProperties.RecordedOf` | src/main.rs:440-448 | the saved messages of a sequence: no more of them than messages, and a message occurs among them exactly when it occurs in the sequence and is a `Done*` result or `ShowMessage` |
| `AppProperties.BackQueueRecordsMessage` | src/main.rs:440-448 | every message other than `PopBackStack` is handled without panic; the back stack gains exactly that message if it is a `Done*` result or `ShowMessage`, and is unchanged otherwise |
| `AppProperties.PopBackStackShrinksByOne` | src/main.rs:645-653 | with at least two entries, going back drops the top two and re-sends the second from the top; handling that re-sent message leaves the old stack minus its top entry |
| `AppProperties.RunRecordsHistory` | src/main.rs:440-448 | over any run without `PopBackStack`, the back stack grows by exactly the recorded messages of the run, in order |
| `AppProperties.RunKeepsWellFormed` | src/main.rs:438-656 | every run of messages keeps the model well formed |
| `AppProperties.StartFetchPostsSetsPage` | src/main.rs:482-497 | the post counter becomes 1 or the old value plus one, the listing type is stored, that page is requested, and nothing else changes |
| `AppProperties.FetchCommunitiesSetsPage` | src/main.rs:507-530 | the same for the community counter; the community screen is shown at once; the search text is the query unless it is empty; nothing else changes |
| `AppProperties.DoneFetchPostsReplacesOrAppends` | src/main.rs:498-506 | the post screen is shown; on page 1 the list becomes exactly the answer, otherwise the old rows are kept and the answer follows them in order; nothing else changes except the back stack |
| `AppProperties.DoneFetchCommunitiesReplacesOrAppends` | src/main.rs:532-540 | the same for the community screen and list |
| `AppProperties.FetchPostsThenDone` | src/main.rs:482-506 | on a well-formed model, a fresh fetch and its answer show exactly the answer; "More" and its answer show the old rows followed by the answer |
| `AppProperties.FetchCommunitiesThenDone` | src/main.rs:507-540 | the same for communities |
| `AppProperties.BlankInstanceIgnored` | src/main.rs:451-454 | an instance address of white space only changes nothing and sends nothing |
| `AppProperties.InstanceChosen` | src/main.rs:455-475 | on a successful parse: the serialised URL minus its last character is stored, the token is cleared, the user is logged out, the loading screen is shown, `StartFetchPosts(None, true)` is sent, and nothing else changes. On failure: only `ShowMessage` with the error is sent |
| `AppProperties.LogoutAndLoggedIn` | src/main.rs:627-644 | `Logout` clears the token and the logged-in flag and keeps the screen; `LoggedIn` sets the flag and sends `StartFetchPosts(None, true)` |
| `AppProperties.LoginNeedsInstance` | src/main.rs:594-626 | `Login` does nothing without a stored instance. Otherwise only the loading screen changes, and one login request is started with the same credentials; its one-time token is none exactly when the typed token is empty |
| `AppProperties.ShowMessageShows` | src/main.rs:633-636 | `ShowMessage(t)` is saved on the back stack, becomes the shown message, and the message screen is shown |
| `AppProperties.GoBackFromFirstMessagePanics` | src/main.rs:645-653 | from a stored instance, a failed first fetch leaves the back stack holding only the error, on the message screen. `PopBackStack` then panics as written and is ignored by the corrected handler |

## Findings

| source | as written | input that shows it | evidently intended | confidence | as-written member | corrected member |
|---|---|---|---|---|---|---|
| src/main.rs:645-653 | `PopBackStack` computes `back_queue.len() - 2` on `usize`. The message screen's "Go back" button (src/main.rs:301-304) sends it whatever the stack length | an instance is stored; the first `StartFetchPosts(None, true)` fails, so `back_queue == [ShowMessage(e)]`; the user presses "Go back": the subtraction underflows and the handler panics (in a release build the second `remove` panics instead) | going back does nothing unless the stack has at least two entries, as the header back button, visible only when `len() > 1` (src/main.rs:119), already implies | high; not executed | `AppProperties.GoBackFromFirstMessagePanics` (about `AppComponent.Step`) | `AppComponent.StepGuarded`, used by `App.Update` and `Run` |

## Left out

- Background threads and the HTTP calls in them are not modelled. Each handler records the request it starts (`Spawn`), and the answer arrives later as an ordinary `Done*` or `ShowMessage` input.
  - The login thread also stores the token, name and id in the account when login succeeds. That write is not modelled.
- `reqwest::Url::parse` and URL serialisation are foreign code, so they are a parameter `parse`. It yields a non-empty serialisation (a serialised URL always has its scheme and ':') or an error text.
- `markdown::to_html` and `html2pango::markup_html` are foreign code, so they are parameters of `Util.MarkdownToPangoMarkup`.
- The settings file behind `get_current_account`/`update_current_account` is on-disk I/O. It is modelled as the in-memory `account` field.
- Widget construction, the `view!` and `menu!` trees, factories and action groups are GTK rendering. The lists are plain sequences, and messages to child pages are returned as `Emit` effects.
  - The instances, community, post and inbox pages are not part of this model.
  - The same goes for the About dialog and the menu entries other than "Profile", which each send one fixed message.
- The community search box is a text buffer the user edits. It is the model field `searchText`, which the handler only reads.
- `AppComponent.NextPage` does not model `i64` overflow of the page counters: reaching it would take about 9·10^18 "More" presses.
- `AppComponent.App.Update` follows the corrected handler `StepGuarded`: it ignores `PopBackStack` on a stack shorter than two entries, where the code as written panics (see "## Findings").
- Strings are sequences of characters, while Rust slices `url[0..len-1]` by bytes. Serialised URLs are ASCII, so the two agree.
- The profile page's avatar image widget is not modelled. `ProfilePage.ProfilePage.Update` returns the message it is sent.
- The bio and counters rendered in the profile page's view are not modelled.
- src/api/posts.rs and src/api/search.rs fill a request record for the API library and have no logic of their own.
- src/components/post_row.rs and src/components/comment_row.rs hold view trees, message forwarding and fire-and-forget delete/edit requests.
