# AutoFill decision rules, modelled in Dafny

This project models the credential autofill orchestrator `Sn::AutoFill` of
the Sielo browser. It covers:

- whether passwords may be saved for a site: a global "save passwords on
  sites" flag plus an exception table of servers;
- blocking a site, which adds its server to that table;
- what a submitted login form leads to: nothing, a silent last-used
  refresh, or a save prompt carrying a draft entry;
- what is pushed back into a page on load: the stored entries, and the
  first entry's form data with every `'` escaped as `\'` for the page
  script's string literal.

Files:

- `wrappers.dfy`: the `Option` datatype.
- `password_store.dfy`: URLs, credential entries, captured form data, the
  write requests handed to the password manager, and the lookup of entries
  filed under a host.
- `exceptions.dfy`: the canonical server string of a URL and the exception
  count query.
- `script_escaping.dfy`: the quote escaping, its inverse, and the value a
  JavaScript single-quoted literal stands for.
- `autofill.dfy`: the first-match search, the `saveForm` decision and its
  lemmas, and the class `AutoFill`, which holds the flag, the exception
  table and the password manager's entries and write requests as fields.

Collaborators outside AutoFill become state or parameters:

- The settings value is an `Option<bool>`; absent means true.
- "No page" is a boolean parameter of both `SaveForm` and `CompletePage`.
- Private browsing is a boolean parameter of `SaveForm` only, since
  `completePage` does not look at it (line 224).
- The password manager's `createHost` is a function fixed at construction.
- `getEntries(url)` is modelled as the stored entries whose host equals
  `createHost(url)`, in store order and with repetitions kept.
- Every write handed to the password manager is recorded in
  `managerCalls`; its effect on the store is not modelled.
- The exception `SELECT` either yields a row (the count) or yields none;
  `exceptionsReadable` chooses which.
- The exception `INSERT` is modelled as applied at once.
- Instead of showing a notification, `SaveForm` returns a `SaveOutcome`.
- Instead of running the page script, `CompletePage` returns the string
  that would be spliced into it.

Two behaviours of the code worth stating on their own:

- A failed exception query, one that yields no row, answers "storing
  disabled" (lines 99-100).
- For a changed password, the update draft carries the submitted
  username, password and data (lines 207-209), not the previously stored
  password. `AutoFill.SaveScenario` shows this.

## Model

| member | source | states |
|---|---|---|
| `Exceptions.Server` | Core/Password/AutoFill/AutoFill.cpp:88-91 | the server string is the URL's host when it is non-empty and the whole URL text otherwise; `isStoringEnabled` and `blockStoringForUrl` (lines 107-110) both go through this one function |
| `Exceptions.CountOf` | Core/Password/AutoFill/AutoFill.cpp:95-102 | the count query's answer is the number of times the server occurs in the table |
| `Exceptions.CountZeroIff` | Core/Password/AutoFill/AutoFill.cpp:93-102 | the exception count for a server is zero exactly when the server is not in the table |
| `Exceptions.CountAppend` | Core/Password/AutoFill/AutoFill.cpp:112-117 | inserting a row for a server raises that server's count by one and leaves every other server's count unchanged |
| `PasswordStore.EntriesFor` | Core/Password/AutoFill/AutoFill.cpp:120-123 | the manager's lookup returns exactly the stored entries filed under the key, each as many times as it is stored, and no entry filed elsewhere |
| `PasswordStore.EntriesForHead` | Core/Password/AutoFill/AutoFill.cpp:120-123 | the first entry the lookup returns is the first stored entry filed under the key, on which `saveForm` and `completePage` (line 251) rely |
| `PasswordStore.EntriesForAppend` | Core/Password/AutoFill/AutoFill.cpp:120-123 | the lookup keeps store order: on a store made of two parts, it returns the first part's entries, then the second's |
| `AutoFill.AutoFill.constructor` | Core/Password/AutoFill/AutoFill.cpp:50-55 | the flag starts false and is then loaded from the setting with default true; the stores start as given and no request has been made |
| `AutoFill.AutoFill.LoadSettings` | Core/Password/AutoFill/AutoFill.cpp:68-73 | the flag becomes the saved setting, or true when none is saved |
| `AutoFill.AutoFill.ExceptionQuery` | Core/Password/AutoFill/AutoFill.cpp:93-99 | the query yields a row exactly when the table is readable, and its count is zero exactly when the server is not listed |
| `AutoFill.AutoFill.IsStoringEnabled` | Core/Password/AutoFill/AutoFill.cpp:83-103 | enabled exactly when the flag is on, the query yields a row and the URL's server is not in the exception table; in particular false whenever the flag is off, and false when no row comes back |
| `AutoFill.AutoFill.GetFormData` | Core/Password/AutoFill/AutoFill.cpp:120-123 | returns exactly the stored entries whose host is the manager's host for the URL, each as many times as it is stored; store order is `EntriesForHead` and `EntriesForAppend` |
| `AutoFill.AutoFill.IsStored` | Core/Password/AutoFill/AutoFill.cpp:75-81 | stored exactly when storing is enabled for the URL and some stored entry is filed under its host |
| `AutoFill.AutoFill.BlockStoringForUrl` | Core/Password/AutoFill/AutoFill.cpp:105-118 | appends the URL's server to the exception table, so the server's count goes up by one; afterwards storing is disabled for that URL and unchanged for every URL with a different server |
| `AutoFill.AutoFill.UpdateLastUsed` | Core/Password/AutoFill/AutoFill.cpp:130-133 | hands exactly one last-used refresh request for the entry to the manager |
| `AutoFill.AutoFill.AddEntry` | Core/Password/AutoFill/AutoFill.cpp:135-144 | hands the manager a new entry with the manager's host for the URL, the given username and password, and empty form data |
| `AutoFill.AutoFill.AddFormEntry` | Core/Password/AutoFill/AutoFill.cpp:146-156 | hands the manager a new entry with the manager's host for the URL and the captured username, password and post data |
| `AutoFill.AutoFill.UpdateEntry` | Core/Password/AutoFill/AutoFill.cpp:158-167 | hands the manager an update for an entry with the manager's host for the URL, the given username and password, and empty form data |
| `AutoFill.AutoFill.UpdateStoredEntry` | Core/Password/AutoFill/AutoFill.cpp:169-172 | hands the given entry to the manager for update, unchanged |
| `AutoFill.AutoFill.RemoveEntry` | Core/Password/AutoFill/AutoFill.cpp:174-177 | hands the given entry to the manager for removal |
| `AutoFill.AutoFill.RemoveAllEntries` | Core/Password/AutoFill/AutoFill.cpp:179-182 | hands one remove-all request to the manager |
| `AutoFill.FirstMatch` | Core/Password/AutoFill/AutoFill.cpp:197-198 | finds the position of the first entry with the submitted username, and finds none exactly when no entry has it |
| `AutoFill.UpdateDraft` | Core/Password/AutoFill/AutoFill.cpp:207-209 | the update draft keeps the stored entry's host and carries the submitted username, password and post data |
| `AutoFill.SaveDecision` | Core/Password/AutoFill/AutoFill.cpp:186-217 | the outcome is "nothing" exactly when the gate (private browsing off, a page, storing enabled) is closed; a refresh-only outcome names a stored entry with the submitted username and password; a prompt carries the frame URL and the form data, and a non-empty draft carries the submitted values. An update draft can itself equal the empty entry, so whether the draft is empty does not tell a new entry from an update; `SaveNewUsername` and `SaveKnownUsername` do |
| `AutoFill.LastUsedRefresh` | Core/Password/AutoFill/AutoFill.cpp:197-200 | nothing is refreshed when the gate is closed; with the gate open, a stored entry with the submitted username is refreshed, and nothing is refreshed exactly when no such entry exists |
| `AutoFill.SaveNewUsername` | Core/Password/AutoFill/AutoFill.cpp:192-217 | when no stored entry has the submitted username, the outcome is one prompt with the frame URL, the form data and an empty draft, and no refresh is requested |
| `AutoFill.SaveKnownUsername` | Core/Password/AutoFill/AutoFill.cpp:197-211 | for the first entry with the submitted username: its last-used mark is refreshed whatever the password; an equal password ends without a prompt; a different one gives a prompt whose draft is that entry with the submitted username, password and data |
| `AutoFill.SaveIgnoresLaterEntries` | Core/Password/AutoFill/AutoFill.cpp:197-211 | entries after the first matching one change neither the outcome nor the refresh |
| `AutoFill.SaveScenario` | Core/Password/AutoFill/AutoFill.cpp:184-218 | on "x.com": a new ("a","p1") is prompted with an empty draft, a repeat of it only refreshes, and ("a","p2") is prompted with a draft carrying "p2" |
| `AutoFill.AutoFill.SaveForm` | Core/Password/AutoFill/AutoFill.cpp:184-218 | the loop's outcome is the `saveForm` decision for the gate and the frame's stored entries, and the only request it makes is the refresh of the first matching entry |
| `AutoFill.AutoFill.CompletePage` | Core/Password/AutoFill/AutoFill.cpp:220-260 | with no page or nothing stored: an empty list and no script; otherwise exactly the stored entries, which are non-empty, and the first entry's form data with every quote escaped, one character longer per quote and recovered by unescaping |
| `ScriptEscaping.Escape` | Core/Password/AutoFill/AutoFill.cpp:252-254 | every quote gains a backslash in front: the escaped text is as long as the original plus its number of quotes, and never starts with a bare quote |
| `ScriptEscaping.UnescapeEscape` | Core/Password/AutoFill/AutoFill.cpp:252-254 | deleting the backslash before each quote of the escaped text recovers the original |
| `ScriptEscaping.EscapeWithoutQuote` | Core/Password/AutoFill/AutoFill.cpp:252-254 | text without a quote is left unchanged |
| `ScriptEscaping.LiteralValueOfEscape` | Core/Password/AutoFill/AutoFill.cpp:231-256 | spliced between the script's quotes, the escaped data forms a well-formed string literal whose value is the original data, provided the data holds no backslash and no line break |
| `ScriptEscaping.BackslashQuoteEndsLiteral` | Core/Password/AutoFill/AutoFill.cpp:252-256 | the two-character data `\'` escapes to `\\'`, whose quote ends the script's literal early |
| `ScriptEscaping.DoubleBackslashQuoteChangesValue` | Core/Password/AutoFill/AutoFill.cpp:252-256 | the three-character data `\\'` escapes to `\\\'`, a well-formed literal that stands for `\'` rather than for the data |

## Left out

- Registering the document-ready page script with the web profile (lines 57-65) is a browser-engine call.
- Running the script in the page (line 256) is a browser-engine call. The JavaScript loop that fills the fields (lines 231-250) runs in the browser. The model keeps only the string handed over.
- Reading `QSettings` (line 72) is persisted configuration. The saved value is a constructor and `LoadSettings` parameter.
- SQL preparation and execution are not modelled. The query is a count over a sequence. The asynchronous `execAsync` insert (line 117) is modelled as applied at once, so the window in which a block is not yet visible is not modelled.
- The password manager's internals are not part of this model: `createHost`, storage, encryption, timestamps, and what each write request does to the store.
- `PasswordEntry`'s identifier and last-used timestamp fields are not modelled, since no code in this file reads or sets them.
- UpdateStoredEntry: the `bool` the manager returns for `updateEntry(const PasswordEntry&)` (line 171) is not modelled, because it comes from code that is not part of this model.
- `getAllFormData` (lines 125-128) passes the manager's whole list through. In the model that list is the `entries` field itself.
- The notification object and `view()->addNotification` (lines 216-217) are UI. `SaveForm` returns the outcome instead; what the user then accepts or declines is not modelled.
- SaveForm: the effect of the manager's `updateLastUsed` on the passed entry (line 200) is unseen, so the draft's fields apart from username, password and data are the stored entry's.
- The `exportPasswords` and `importPasswords` stubs (lines 262-277) only show an error dialog and return an empty array or `false`.
- LiteralValueOfEscape: backslashes in the form data are not escaped, so the round trip through the script's string literal is proved only for data without a backslash or line break. `BackslashQuoteEndsLiteral` shows a two-character input for which the literal ends early. `DoubleBackslashQuoteChangesValue` shows a three-character input for which the literal stands for other text. Whether stored post data can hold a backslash depends on the form-capture code, which is not part of this model.
