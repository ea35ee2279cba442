# PowerShare admin console — a verified model

This project models the logic of the PowerShare administration console, a React
front end. An administrator uses it to review producer proposals (PENDING,
APPROVED, REJECTED), approve or reject them, and look up a producer's details.
The model covers five pieces:

- **The session.** The browser's two localStorage keys, `powershare_access_token`
  and `powershare_refresh_token`, are a `Store` of two optional strings inside a
  `Browser` object that also holds the page location.
  - `fetchWithAuth` attaches the bearer token. On a 401 it runs one
    refresh-and-retry cycle, and it clears both keys and redirects to `/` when that
    cycle fails.
  - It is modelled twice. `AuthExchange` is a pure function from the store and the
    answers of the network to the new store, the outcome and the requests sent.
    `FetchWithAuth` is the step-by-step method on the browser, proved equal to it.
  - Every HTTP exchange is an input: a status with a JSON body that may not parse,
    or a transport failure.
- **The service calls** (`getPropostas`, `approveProducer`, `rejectProducer`,
  `getProducerDetails`, `login`). Each is modelled as the call it makes plus the
  check it applies to the response.
- **The main page** (`Principal`).
  - The status update removes a proposal only once the backend confirms it.
  - Logout and the guard against a missing token.
  - The display list: the search filter and the stable newest-first sort on the
    parsed `DD/MM/YYYY` date.
- **The detail modal.** The CPF/CNPJ masks with their digit round trips, the
  rejection-reason check and the detail-loading sequence.
- **The card and the login page.** The card's choice of unit to show and its type
  label, and the login handler that stores both tokens. The card's menu closures
  are modelled too, but nothing ever opens that menu (see "## Left out").

The network and `Math.random()` are not modelled as behaviour; each is a
parameter, and the clock is left out:

- the answers of the network are an `Exchanges` value: the first fetch, the
  refresh and the retry;
- the random fallback id is an oracle `draws: nat -> string`;
- there is no clock: the redirect delay of logout is taken as immediate.

Two places where the code does not do what its own comments say; the model follows
the code:

- **Logout** (src/pages/Principal.jsx:96) removes only the access token, although
  its doc comment and success toast (src/pages/Principal.jsx:92-97) present it as
  ending the session. See "## Findings".
- **A failed listing is not absorbed.** The comment at src/pages/Principal.jsx:32-33
  says the service falls back to a mock on failure. In fact `getPropostas` throws
  (src/services/adminService.js:67), and the page's `loadPropostas` has no `catch`.
  So the list stays as it was and the loading flag stays set
  (`PrincipalPage.LoadPropostas`).

## Model

| member | source | states |
|---|---|---|
| Builtins.Filter | src/pages/Principal.jsx:131-139 | Array.prototype.filter: never longer than the input, every kept element passes the test, an all-passing input is returned whole and an all-failing one becomes empty |
| Builtins.FilterMembers | src/pages/Principal.jsx:80 | the filtered list holds only elements of the input, and every element of the input that passes the test |
| Builtins.FilterAppend | src/pages/Principal.jsx:80 | filtering distributes over concatenation, so it never reorders what it keeps |
| Builtins.FilterCount | src/pages/Principal.jsx:80 | each element keeps its multiplicity if it passes the test and disappears otherwise |
| Builtins.FilterPreserves | src/pages/Principal.jsx:131-141 | a property of every element of the input holds for every element kept |
| Builtins.PermutedFilterMembers | src/pages/Principal.jsx:131-141 | any rearrangement of a filtered list holds exactly the input elements that pass the test |
| Builtins.ToLower | src/pages/Principal.jsx:133 | toLowerCase keeps the length and lower-cases each ASCII letter in place |
| Builtins.Includes | src/pages/Principal.jsx:136-137 | String.prototype.includes is true exactly when the term occurs at some position |
| Builtins.TrimStart | src/components/Modal.jsx:85 | the result is a suffix, starts with no whitespace, and only whitespace was removed |
| Builtins.TrimEnd | src/components/Modal.jsx:85 | the result is a prefix, ends with no whitespace, and only whitespace was removed |
| Builtins.Trim | src/components/Modal.jsx:85 | String.prototype.trim: the result neither starts nor ends with whitespace and is the input with whitespace-only ends removed |
| Builtins.OnlyDigits | src/components/Modal.jsx:64 | `replace(/\D/g, '')` yields only digits, no more characters than the input, and leaves an all-digit string unchanged |
| Builtins.OnlyDigitsAppend | src/components/Modal.jsx:64 | digit extraction distributes over concatenation |
| Builtins.InsertDesc | src/pages/Principal.jsx:141 | insertion adds exactly that one element to the list's contents, placed at the front or after the old head |
| Builtins.ConsSorted | src/pages/Principal.jsx:141 | an element no smaller than the head of a descending list extends it |
| Builtins.InsertDescSorted | src/pages/Principal.jsx:141 | inserting into a key-descending list keeps it descending |
| Builtins.SortDesc | src/pages/Principal.jsx:141 | sort with comparator `key(b) - key(a)` returns a permutation of the input, largest key first |
| Builtins.FilterCons | src/pages/Principal.jsx:131-139 | filtering an element followed by a list keeps that element in front exactly when it passes |
| Builtins.InsertDescTies | src/pages/Principal.jsx:141 | inserting an element puts it in front of every element already present with the same key |
| Builtins.SortDescStable | src/pages/Principal.jsx:141 | the sort is stable: elements with equal keys keep their relative order |
| Web.Browser.constructor | src/services/adminService.js:14 | the browser starts from the given storage contents and location |
| Web.Browser.GetItem | src/services/adminService.js:30 | getItem reads the value under the named session key |
| Web.Browser.SetItem | src/services/adminService.js:42-43 | setItem writes the named key and leaves the other key and the location alone |
| Web.Browser.RemoveItem | src/services/adminService.js:50-51 | removeItem clears the named key and leaves the other key and the location alone |
| Web.Browser.Navigate | src/services/adminService.js:52 | assigning the location changes the location only |
| AdminService.BuildHeaders | src/services/adminService.js:16-23 | Authorization is `Bearer <stored token>` unless the caller gives one; a given Content-Type is kept; application/json is added only for a body without one; other caller headers pass through and nothing else is added |
| AdminService.AuthExchange | src/services/adminService.js:13-58 | every transition: a non-401 answer is returned after one fetch with the store untouched; a transport failure rejects with the store untouched; a 401 without a refresh token clears both keys with no refresh call; a refused refresh sends exactly two requests and no retry; a granted refresh always sends the retry as the third request, with the new bearer; if the retry is answered, the new pair is stored and the retry's response returned, even if it is 401; any other failure clears both keys; the call redirects exactly when it rejects as an invalid session |
| AdminService.FetchWithAuth | src/services/adminService.js:13-58 | the step-by-step method leaves the store, location, outcome and requests exactly as the transition function says |
| AdminService.ReadJson | src/services/adminService.js:111-112 | succeeds exactly on an ok status with a readable body; a non-ok status rejects with that status |
| AdminService.RequireNoContent | src/services/adminService.js:87 | succeeds if and only if the final status is exactly 204; any other status, 200 included, rejects |
| AdminService.OrElse | src/services/adminService.js:73-75 | `value \|\| fallback`: a non-empty value, else the fallback |
| AdminService.ToProposta | src/services/adminService.js:71-78 | each row becomes a proposal of the queried status and type novo_produtor, with the fixed placeholders for a missing name, e-mail or date, and `id-<random>` for a missing id |
| AdminService.MapRows | src/services/adminService.js:71-78 | one proposal per row, same length and order, all of the queried status |
| AdminService.GetPropostas | src/services/adminService.js:65-79 | rejects when the authenticated listing is not ok or unreadable, otherwise returns the mapped rows |
| AdminService.ApproveCall | src/services/adminService.js:86 | the approve POST has no body, so no Content-Type is ever added |
| AdminService.RejectCall | src/services/adminService.js:96-100 | the reject POST carries the reason as its body, and its explicit text/plain survives header building next to the bearer token |
| AdminService.ApproveProducer | src/services/adminService.js:85-88 | succeeds exactly when the authenticated POST ends in 204 |
| AdminService.RejectProducer | src/services/adminService.js:95-102 | succeeds exactly when the authenticated POST ends in 204 |
| AdminService.GetProducerDetails | src/services/adminService.js:109-113 | returns the body of an ok response and rejects otherwise |
| AdminService.Login | src/services/adminService.js:132-140 | login resolves exactly on an ok answer with a readable body; a non-ok status or a transport failure rejects |
| Card.FirstPending | src/components/Card.jsx:24 | `find` returns the lowest index whose status is PENDING, or none when there is none |
| Card.UnidadeEmAnalise | src/components/Card.jsx:22-25 | no unit when unidades is not an array or is empty; the first PENDING unit when one exists; otherwise the unit at index 0 |
| Card.NomeUnidade | src/components/Card.jsx:68 | 'N/D' exactly when no unit is selected, otherwise the selected unit's name |
| Card.TipoLabel | src/components/Card.jsx:62 | 'Nova Unidade' exactly when tipo is nova_unidade, 'Novo Produtor' otherwise |
| Card.MenuAction | src/components/Card.jsx:79-81 | each menu item calls the matching page callback with dados.userId unchanged, reject also with its reason, so the page's update targets that user and the item's status |
| Modal.DropSeparator | src/components/Modal.jsx:64 | stripping non-digits drops a separator between two digit groups |
| Modal.FormatCpf | src/components/Modal.jsx:51-53 | 11 digits masked as ddd.ddd.ddd-dd: 14 characters with the separators in place |
| Modal.FormatCnpj | src/components/Modal.jsx:56-58 | 14 digits masked as dd.ddd.ddd/dddd-dd: 18 characters with the separators in place |
| Modal.CpfRoundTrip | src/components/Modal.jsx:51-53 | stripping the non-digits of a masked CPF gives the 11 digits back |
| Modal.CnpjRoundTrip | src/components/Modal.jsx:56-58 | stripping the non-digits of a masked CNPJ gives the 14 digits back |
| Modal.DocumentOf | src/components/Modal.jsx:62 | the document is the first non-empty of cpf and documentNumber, else the empty string |
| Modal.RenderDocumento | src/components/Modal.jsx:60-82 | caption CPF exactly for 11 digits, CNPJ exactly for 14, Documento otherwise; the CPF and CNPJ text is the ddd.ddd.ddd-dd or dd.ddd.ddd/dddd-dd mask of the extracted digits, and holds exactly those digits; any other count shows the original text, or 'Não informado' when it is empty |
| Modal.RejectionReason | src/components/Modal.jsx:85-86 | a reason is accepted exactly when its trimmed length is at least 5, and it is the trimmed text |
| Modal.ModalView.constructor | src/components/Modal.jsx:11-17 | the modal starts with no reason, no error, no details and not loading |
| Modal.ModalView.HandleRejeitar | src/components/Modal.jsx:84-91 | a reason that RejectionReason refuses sets the error message and forwards nothing; otherwise onRejeitar gets the userId and the accepted, trimmed reason, and the error is left alone |
| Modal.ModalView.FetchDetails | src/components/Modal.jsx:23-46 | without an open modal and a userId nothing happens; otherwise the pane shows loading with no error or details during the fetch, then the details or the error message, and loading ends false either way |
| Principal.ParseDate | src/pages/Principal.jsx:125-129 | an empty or '/'-free date parses as 1 January 1970; DD/MM/YYYY parses to that day, years 0 to 99 read as 1900 to 1999; every modelled date is a real calendar day |
| Principal.StampOrdersDays | src/pages/Principal.jsx:141 | the YYYYMMDD key orders calendar days as (year, month, day) and identifies equal days |
| Principal.SortByDate | src/pages/Principal.jsx:141 | a permutation of its input, no entry earlier than any entry after it, and entries of the same day in their original order |
| Principal.MatchesMeaning | src/pages/Principal.jsx:132-139 | a non-empty term keeps a proposal exactly when its lower-cased form occurs in the lower-cased name or e-mail |
| Principal.WithoutUser | src/pages/Principal.jsx:80 | removes every proposal of that userId and keeps every other one; a list without it is unchanged; a list of one status stays of that status |
| Principal.WithoutUserKeepsOrder | src/pages/Principal.jsx:80 | removal keeps the survivors' relative order and their multiplicities |
| Principal.RemoteCall | src/pages/Principal.jsx:72-78 | approve and reject call their endpoints; reopen (PENDING) makes no remote call |
| Principal.UpdateFor | src/pages/Principal.jsx:117-119 | onAprovar, onRejeitar and onReabrir forward the userId to handleAtualizarStatus with APPROVED, REJECTED or PENDING, and only onRejeitar passes a reason |
| Principal.LoggedOut | src/pages/Principal.jsx:96 | logout leaves no access token and the refresh token as it was |
| Principal.LogoutRevivesSession | src/pages/Principal.jsx:95-96 | after logout a request sent as `Bearer null` and answered 401 triggers a refresh with the surviving token, which stores a new session and succeeds |
| Principal.FullLogoutEndsSession | src/pages/Principal.jsx:95-96 | from an empty store no exchange restores a session, and a 401 rejects without any refresh request |
| Principal.PrincipalPage.constructor | src/pages/Principal.jsx:16-26 | the page opens on the PENDING tab with an empty list, no search, no modal and not loading |
| Principal.PrincipalPage.LoadPropostas | src/pages/Principal.jsx:35-43 | a successful listing replaces the list with the mapped rows of the active tab and ends loading; a failed one leaves the list and the loading flag set |
| Principal.PrincipalPage.GuardSession | src/pages/Principal.jsx:57-64 | without an access token the page redirects to `/`; the store is never touched |
| Principal.PrincipalPage.HandleAtualizarStatus | src/pages/Principal.jsx:69-90 | the proposal leaves the list only after the remote call succeeds (at once for reopen), the list is unchanged when it fails, the tab invariant is kept, and loading, the modal and the selection are always reset |
| Principal.PrincipalPage.HandleLogout | src/pages/Principal.jsx:95-101 | removes the access token only and goes to `/` |
| Principal.PrincipalPage.HandleLogoutFull | src/pages/Principal.jsx:95-101 | the intended logout: both keys removed, then `/` |
| Principal.PrincipalPage.HandleTrocarAba | src/pages/Principal.jsx:103-105 | switches the active tab |
| Principal.PrincipalPage.HandleAbrirModal | src/pages/Principal.jsx:107-110 | selects the card and opens the modal |
| Principal.PrincipalPage.HandleFecharModal | src/pages/Principal.jsx:112-115 | closes the modal and clears the selection |
| Principal.PrincipalPage.DadosProcessados | src/pages/Principal.jsx:124-144 | a permutation of the proposals matching the search, all of them kept for an empty term, newest first, a date-less entry after every entry dated after the epoch; it only reads the page, so the stored list is never reordered |
| LoginPage.Stored | src/pages/Login.jsx:26 | setItem stores a missing refresh token as the text "undefined" |
| LoginPage.AcceptedSession | src/pages/Login.jsx:19-26 | an answer is accepted exactly when login resolves with a non-empty access token, which then passes the page guard; both keys are written |
| LoginPage.LoginForm.constructor | src/pages/Login.jsx:10-12 | the form starts empty with no error |
| LoginPage.LoginForm.HandleLogin | src/pages/Login.jsx:14-36 | the error is cleared before the request, so none is shown while login is in flight; an accepted answer writes both keys and goes to /principal; any failure leaves the store and the location alone and shows the generic error |

## Left out

- handleDownload (src/components/Modal.jsx:93-131) and getUserDetails (src/services/adminService.js:120-124) are not part of this model. The first is blob, object-URL and DOM plumbing; the second is not called by the console's logic.
- React rendering, effect scheduling, the click-outside listeners, toasts, `alert` and `console` output are not modelled. The notice that handleAtualizarStatus alerts is returned as a string.
- Concurrency is not modelled. Each handler runs as one atomic sequence, so two overlapping requests or refreshes never interleave.
- The redirect timer in handleLogout is taken as immediate.
- Real HTTP, JSON parsing and the backends are not modelled.
  - A reply's body is either a value of the expected shape or unreadable.
  - Escaping inside JSON string bodies is not modelled.
  - A refresh answer whose body lacks a token field is not distinguished from one that has it.
- `Math.random()` is an oracle `draws` that gives the text of the i-th fallback id.
- Principal.PrincipalPage.DadosProcessados: requires every stored date to be exactly `DD/MM/YYYY` naming a real day, or free of '/'. This also excludes valid dates the source sorts correctly: an unpadded date such as "5/6/2024" is 5 June 2024, and a two-digit year such as "05/06/24" is 5 June 1924. Only a date whose parts are not numeric gives an invalid Date, whose NaN comparisons are not modelled either.
- Card.MenuAction: the card's menu is never rendered. Its state `menuAberto` (src/components/Card.jsx:28) is only ever set to false (line 39). DropdownMenu (src/components/DropdownMenu.jsx:9-15) takes only `onSair` and renders nothing without it, and the page passes the card neither `onSair` nor `onReabrir` (src/pages/Principal.jsx:187-193). The model states what the closures at src/components/Card.jsx:79-81 would forward, but no path reaches them.
- Principal.UpdateFor: reopen is unreachable. The modal receives `onReabrir` (src/components/Modal.jsx:9) but never calls it, and the card menu is never shown. So `handleAtualizarStatus(…, PENDING)` (src/pages/Principal.jsx:76-77, 119) has no trigger in the console; the model still covers that branch as written.
- Principal.ParseDate: out-of-range days and months are not rolled over as the Date constructor does. A date containing '/' that is not exactly `DD/MM/YYYY` naming a real day is taken as the epoch. The source may parse such a date to a real day ("5/6/2024" is 5 June 2024, "05/06/24" is 5 June 1924) or to an invalid Date; the model does not give it either meaning, and the sort is only specified for dates without this case.
- Principal.SortByDate: `new Date(0)` is an instant in UTC, and a parsed date is local midnight. The model compares calendar days, so it does not capture a time-zone offset that puts 1 January 1970 on either side of the epoch.
- Builtins.ToLower: only ASCII letters are case-folded, not the full Unicode mapping of toLowerCase.
- Builtins.Trim: strings are sequences of code points, not UTF-16 code units. So trim and `.length` agree with JavaScript only on text without surrogate pairs.
- LoginPage.Stored: a missing field and a `null` field are not distinguished; JavaScript would store them as "undefined" and "null".

## Findings

| source | as written | input that shows it | evidently intended | confidence | as-written member | corrected member |
|---|---|---|---|---|---|---|
| src/pages/Principal.jsx:95-96 | logout removes only the access token; the refresh token stays in storage | a store holding a refresh token: after logout, the listing effect of a remounted page (it runs before the no-token guard) is sent as `Bearer null`, answered 401, and the surviving refresh token obtains and stores a new session | logout ends the session: both keys removed, so no later 401 can refresh | medium, not executed | Principal.LogoutRevivesSession | Principal.FullLogoutEndsSession |
