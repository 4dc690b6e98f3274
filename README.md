# Startify session model

Startify is a Streamlit app for creating an account and keeping a catalogue of
digital products. All of its state lives in the browser session:

- `users`, a map from username to an account record;
- `current_user`, the logged-in username or nothing;
- `produtos`, the list of every product of every account;
- `onboarding`, the name and e-mail staged between the two sign-up steps.

This project models that state as the class `SessionState.Session`. Its fields
are the four pieces above. Each button handler is one method, with the widget
values it reads as parameters. The read-side queries are functions in module
`Queries`. The records are in module `Records`.

- `records.dfy` holds the records: account, staged sign-up, product, category,
  handler outcome and menu page.
- `queries.dfy` holds the pure queries: the username of an e-mail address, the
  owner filter, the dashboard's last-five list, the CSV export's empty check and
  the menu. It also holds the lemmas relating them.
- `session.dfy` holds the class and its handlers: the two sign-up steps, login,
  the `require_login` guard, the dashboard, product creation, the product list
  and logout. It ends with four client methods that run whole flows.

`Session.Valid()` is the invariant every handler keeps. The logged-in user is
registered, which the dashboard's lookup of the user's name
(`startify.py:117`) relies on. Every product's owner is registered: accounts
are never removed, so this holds for the whole session. No account has an
empty password, so an empty password never logs in.

Behaviour of the code that the model keeps as written:

- Sign-up takes the username from the e-mail field as it reads when
  "Finalizar Cadastro" is pressed. The stored name comes from the staged record.
  The two e-mails can differ.
- Nothing checks that a username is free. A second sign-up whose address has
  the same part before '@' replaces the first account (`SignupOverwrites`).
- The CSV export takes the whole catalogue, not the user's own products. On the
  "Meus Produtos" page it is only built when the user owns a product, so it is
  never empty there (`ExportCarriesOtherOwners`).
- The menu tests `current_user` for truth. The guard tests it against `None`.
  An address starting with '@', or an empty e-mail field at the second step,
  logs in the empty username. The guard lets that user through, but the menu
  shows the signed-out pages (`LeadingAtSeesSignedOutMenu`).
- The login test `if user and ...` depends only on whether the username is a
  key. A stored account record is never empty, so it is always true.

## Model

| member | source | states |
|---|---|---|
| `Queries.UsernameOf` | startify.py:82 | the username is a prefix of the address without '@', and it either is the whole address or stops right before an '@' |
| `Queries.UsernameOfUnique` | startify.py:82 | those three properties determine the username: any string having them is it |
| `Queries.UsernameOfAddress` | startify.py:82 | for `local@domain` with no '@' in `local`, the username is `local`, whatever the domain is |
| `Queries.UsernameOfLeadingAt` | startify.py:82 | an address starting with '@' gives the empty username |
| `Queries.OwnedBy` | startify.py:118 | a product is in the result exactly when it is in the catalogue and has the given owner, and the result is no longer than the catalogue; the same filter is used at line 154 |
| `Queries.OwnedByMultiplicity` | startify.py:118 | the filter keeps each of the owner's products as many times as the catalogue holds it, and no product of another owner |
| `Queries.OwnedByAppend` | startify.py:118 | appending a product to the catalogue appends it at the end of its owner's list and leaves every other owner's list unchanged; with the empty case this fixes the filter's order |
| `Queries.OwnedByAllMine` | startify.py:118 | a catalogue whose products all belong to the owner passes the filter unchanged |
| `Queries.Recent` | startify.py:122 | `[-5:]` has min(5, n) entries, and they are the last entries of the list, in order |
| `Queries.RecentSlides` | startify.py:122 | the last five after one more product are the previous last five plus that product, trimmed to five |
| `Queries.NewProductIsMostRecent` | startify.py:118-122 | a product just added by its owner is the last entry of that owner's recent list |
| `Queries.ExportProductsCsv` | startify.py:27-33 | the export is absent exactly when the whole catalogue is empty; otherwise it covers every product of every owner |
| `Queries.ExportCarriesOtherOwners` | startify.py:154-162 | whenever the product table shows, the export is present and carries other owners' products that the table does not |
| `Queries.Menu` | startify.py:47-50 | a page is offered exactly when it is one of the logged-in pages (`LoggedInPage`: Dashboard, Criar Produto, Meus Produtos, Sair) and `current_user` is truthy (`Truthy`, Python's truth test at line 47: set and not the empty string), or it is one of the signed-out pages (Início, Criar Conta, Entrar) and `current_user` is not truthy |
| `Queries.LeadingAtSeesSignedOutMenu` | startify.py:47-50 | a session logged in under the username of an address starting with '@' is offered neither the dashboard nor logout |
| `SessionState.Session.constructor` | startify.py:11-16 | a new session has no users, no logged-in user, no products and nothing staged, and satisfies the invariant |
| `SessionState.Session.SignupNext` | startify.py:67-72 | rejects when the name or e-mail is empty and changes nothing; otherwise stages exactly that name and e-mail; users, login and products never change |
| `SessionState.Session.SignupFinish` | startify.py:75-91 | does nothing without a staged record; rejects and changes nothing when the password is empty or differs from the confirmation; otherwise stores the staged name, the current e-mail field and the password under that field's username (replacing any account there), logs it in and clears the staging; no other account and no product changes |
| `SessionState.Session.Login` | startify.py:97-103 | logs in exactly when the username is registered with that password, and otherwise changes nothing; an empty password never logs in |
| `SessionState.Session.RequireLogin` | startify.py:106-112 | a guarded view may run exactly when someone is logged in |
| `SessionState.Session.ShowDashboard` | startify.py:114-123 | nothing when logged out; otherwise the user's name, a count equal to the length of the owner filter, and the recent list of that filter |
| `SessionState.Session.CreateProduct` | startify.py:125-149 | logged out: refused, nothing changes; empty name, price not above 0 or empty description: rejected, nothing changes; otherwise exactly one product is appended, owned by the logged-in user, with the given fields, and earlier products stay as they were |
| `SessionState.Session.ListProducts` | startify.py:151-162 | nothing when logged out; the empty notice exactly when the owner filter is empty; else the filtered table with the export of the whole catalogue |
| `SessionState.Session.Logout` | startify.py:164-168 | logged out: refused; otherwise the user is logged out; accounts, products and staging are unchanged |
| `SessionState.SignupLogoutLogin` | startify.py:78-103 | after signing up, logging out and logging in with the part of the e-mail before '@' and the chosen password, the login succeeds |
| `SessionState.SignupOverwrites` | startify.py:82-89 | a second sign-up under the same username with another password makes the first password fail and the second succeed |
| `SessionState.CreateThenDashboard` | startify.py:114-149 | creating a valid product raises the dashboard count by one, makes exactly that product record (owner, id and every field) the last entry of the recent list, and leaves every other owner's products unchanged |
| `SessionState.LeadingAtPassesGuard` | startify.py:47-50 | after signing up with an address that starts with '@', the `require_login` test at line 108 lets the session through while the menu offers neither the dashboard nor logout |

## Left out

- Rendering: headers, markdown, metrics, dataframes, the download button, the sidebar widgets and `experimental_rerun`. They hold no state logic. The table's column selection at line 159 is rendering too.
- Page dispatch (lines 53, 60, 93 and 171-178) is not modelled. Only the menu's choice of pages is (`Queries.Menu`).
- `generate_id` reads the clock and a random number. The id is a parameter of `CreateProduct`, and nothing is said about uniqueness, because the code guarantees none.
- `datetime.now().isoformat()` timestamps are opaque parameters.
- The simulated "sold" metric (line 120) is random, so it is not modelled.
- The CSV text comes from pandas `to_csv`, a foreign library. `ExportProductsCsv` gives the rows it would serialise, not the text.
- The price is a float in the source. It is a `real` here, with only the `> 0` check. There is no float rounding and no `:.2f` formatting.
- An uploaded image is an optional byte sequence passed in. `save_image_bytes` is just that optional value.
- Rerun semantics of Streamlit: the two sign-up steps and every other button are separate transitions. The model does not capture that one script run may show a success message and the next form together.
