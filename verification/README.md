# BeautyPro Manager — the salon store and its rules, in Dafny

BeautyPro Manager is a salon back office. It books appointments for clients
with professionals, keeps a catalogue of priced services, and records income
and expenses. It also tracks each client's spend and loyalty points, and sends
marketing messages through WhatsApp links.

This project models the logic behind the screens:

- **`Store.SalonStore`** (`store.dfy`) is the in-memory store of
  `services/dataService.ts`. It is a class with one `seq` field per collection,
  plus the settings and the signed-in user. Each operation is a method that
  replaces the fields it names in its `modifies` clause and no others. Its
  `ensures` gives the new state as a function of the old one.
  - Adding an appointment freezes a price snapshot.
  - Completing an appointment posts one income transaction and updates the
    client's total spent, loyalty points and last visit.
- **`Ledger`** (`ledger.dfy`) holds the functions those methods are specified
  by, and the lemmas that say what the store therefore promises:
  - the snapshot sum;
  - the status rewrite;
  - the income and the stats update of a completion;
  - the partial updates and the removals.
- **`Utils`** (`utils.dfy`) models two helpers of `utils.ts`:
  - the WhatsApp deep link. It strips non-digits, prepends the country code 55,
    and appends the `encodeURIComponent` of the text. The encoding is given
    concretely as UTF-8 followed by percent-encoding of every byte outside the
    unreserved set of ECMAScript's `encodeURIComponent`.
  - the comma-joined service names.
- **`Layout`** is the role-filtered sidebar of `components/Layout.tsx`.
- **`App`** covers the rules of `App.tsx`:
  - screen permissions and the restricted panel;
  - the agenda's click-to-advance status cycle and its hour rows and columns;
  - the team form's specialty toggle, kept in a small form-state class;
  - the finance sums and the client search;
  - the marketing campaign target and link;
  - the shell state (current screen, mobile menu, mode) that navigation,
    sign-in and sign-out change.
- **`Seqs`** holds the list operations all of the above are built from:
  `find`, a `map` that rewrites the matching elements, `filter` and `join`.
- **`Types`** holds the records and enumerations of `types.ts`.

Money is `real`, so sums and the points division `floor(value / (10 / ratio))`
are exact. Random ids, the current time and today's date are parameters of the
operations that use them.

Behaviour of the code worth knowing:

- Completing an appointment whose client is missing still posts the income,
  described 'Serviço - Cliente'; only the stats update is skipped
  (`CompletionPostsOneIncome`).
- The code has no guard against completing the same appointment twice. Both
  completions post income and both update the stats (`CompletingTwiceCountsTwice`).
- Moving away from COMPLETED reverses nothing.
- The only status transitions are the agenda's three-way cycle. There is no
  transition table to NO_SHOW or CANCELLED.
- Spend and points never decrease through a status change only while the
  booked prices are not negative (`StatsNeverDecrease`). The store's
  `updateClient` patch can set them to any value, since it spreads whatever
  fields it is given (`services/dataService.ts:107-109`); the client form of
  `App.tsx` never puts them in its patch, sending only the name, phone, email,
  birth date and notes (`App.tsx:403-414`).
- Over a series of completions a client's total spent grows by the sum of the
  snapshots and its points by the sum of the per-completion floors
  (`CompletionsAccumulate`); the points are rounded down per completion, not
  on the total.

## Model

| member | source | states |
|---|---|---|
| Seqs.FindFirst | services/dataService.ts:59 | `find` returns an element of the list that passes the test, and returns nothing exactly when no element passes |
| Seqs.FindFirstAt | services/dataService.ts:77 | `find` returns the element at the first index that passes the test |
| Seqs.FindFirstIsFirst | utils.ts:19 | `find` returns the element at whichever index is the first to pass the test |
| Seqs.FindFirstMapWhere | services/dataService.ts:73-77 | a rewrite that keeps the test's verdict on every element leaves `find` on the same element, in its rewritten form |
| Seqs.MapWhere | services/dataService.ts:48 | `map(x => test ? update : x)` keeps the length, rewrites exactly the matching elements in place and leaves the rest alone |
| Seqs.FilterMembers | services/dataService.ts:52 | `filter` keeps exactly the elements of the list that pass the test |
| Seqs.FilterAppend | services/dataService.ts:112 | filtering distributes over concatenation, so the kept elements stay in their original relative order |
| Seqs.FilterNone | services/dataService.ts:112 | a filter that no element passes leaves nothing |
| Seqs.FilterAllOrNone | App.tsx:112-113 | a filter that every element passes keeps the list, and one that none passes leaves nothing |
| Seqs.FilterIdempotent | utils.ts:23 | filtering twice by the same test is filtering once |
| Seqs.FilterHeadIsFindFirst | App.tsx:1068-1070 | the first element a filter keeps is the element `find` returns, and the filter is empty exactly when `find` returns nothing |
| Seqs.FilterDistinct | App.tsx:832-833 | filtering a list without repetitions leaves a list without repetitions |
| Seqs.JoinSeparators | utils.ts:19 | n joined segments hold at least the n - 1 separators |
| Seqs.JoinSnoc | utils.ts:19 | joining one more segment appends the separator and that segment |
| Seqs.JoinLength | utils.ts:19 | the joined string is as long as the segments plus one separator between each pair |
| Utils.Digits | utils.ts:23 | the stripped phone is never longer than the phone |
| Utils.DigitsMembers | utils.ts:23 | the stripped phone holds only digits, and every digit the phone holds |
| Utils.DigitsAppend | utils.ts:23 | stripping works piece by piece, so the digits keep their original order |
| Utils.DigitsOfDigits | utils.ts:23 | a string is unchanged by stripping if and only if it is made only of digits |
| Utils.DigitsIdempotent | utils.ts:23 | stripping non-digits twice is stripping once |
| Utils.Utf8 | utils.ts:24 | each character is written as 1 to 4 UTF-8 bytes, and as a single byte exactly when it is ASCII |
| Utils.Utf8RoundTrip | utils.ts:24 | the UTF-8 bytes of a character decode back to its code point |
| Utils.DecodeByteStep | utils.ts:24 | decoding reads one encoded byte off the front and goes on with the rest |
| Utils.EncodeByte | utils.ts:24 | a byte is written as itself exactly when it is in the unescaped set; any other byte becomes `%` and its two hexadecimal digits, high nibble first |
| Utils.PercentRoundTrip | utils.ts:24 | percent-decoding the percent-encoding of any byte string gives the bytes back |
| Utils.EncodeURIComponent | utils.ts:24 | each character of the message becomes 1 to 12 characters of the encoding, so only the empty message encodes to "" |
| Utils.EncodeURIComponentDecodes | utils.ts:24 | the encoded message decodes to the UTF-8 bytes of the message, so the encoding loses nothing |
| Utils.EncodeUnescapedIsIdentity | utils.ts:24 | text made only of unescaped characters (letters, digits, `- _ . ! ~ * ' ( )`) is its own encoding |
| Utils.EncodedHasNoDelimiters | utils.ts:24-25 | the encoded text holds no `?`, `&`, `#` or space, so it stays inside the `text` parameter |
| Utils.GenerateWhatsAppLink | utils.ts:22-26 | the link starts with `https://wa.me/55` and is as long as that prefix, the digits, `?text=` and the encoded message together |
| Utils.WhatsAppLinkRoundTrip | utils.ts:22-26 | parsing the link gives back exactly the phone's digits and the encoded message, and decoding the message gives the text's UTF-8 bytes |
| Utils.DigitsThenPunctuation | utils.ts:23 | characters that are not digits add nothing to the stripped phone |
| Utils.ParseComposed | utils.ts:25 | a link made of the prefix, digits, `?text=` and a text splits back into those digits and that text |
| Utils.FormattedPhoneDigits | utils.ts:23 | a phone written "(AA) NNNNN-NNNN" becomes AANNNNNNNNN |
| Utils.CountryCodeAlwaysPrepended | utils.ts:25 | 55 is prepended unconditionally: a number whose digits already start with 55 yields `https://wa.me/5555…` |
| Utils.WhatsAppLinkExample | utils.ts:22-26 | "(11) 99999-9999" with "Olá" gives `https://wa.me/5511999999999?text=Ol%C3%A1` |
| Utils.ServiceName | utils.ts:19 | a known id yields the name of the first catalogue service with that id; an unknown id yields the empty segment that `undefined` joins as |
| Utils.GetServiceNames | utils.ts:18-20 | no ids give ""; one id gives its name alone; n ids give at least the n - 1 separators ", " |
| Utils.GetServiceNamesSpec | utils.ts:18-20 | no ids give ""; one id gives its name alone; each further id appends ", " and its name, in id order |
| Ledger.TotalValue | services/dataService.ts:58-61 | a single id totals the price of the first service with that id; ids that all price at 0 (missing from the catalogue) total 0 |
| Ledger.TotalValueAppend | services/dataService.ts:58-61 | the snapshot of a concatenation of id lists is the sum of their snapshots |
| Ledger.TotalValueMiddle | services/dataService.ts:58-61 | an id anywhere in the list adds its price to the total of the other ids |
| Ledger.TotalValuePermutation | services/dataService.ts:58-61 | any reordering of the service ids (the same ids with the same repeats) gives the same snapshot |
| Ledger.TotalValueMissingId | services/dataService.ts:59-60 | an id the catalogue lacks adds 0, at either end of the list |
| Ledger.TotalValueExample | services/dataService.ts:58-61 | one missing id and one service priced 100 give 100 |
| Ledger.TotalValueNonNegative | services/dataService.ts:58-61 | with no negative price in the catalogue the snapshot is not negative |
| Ledger.WithStatus | services/dataService.ts:73 | the status update keeps the length, and every appointment keeps its id, client and price snapshot |
| Ledger.WithStatusSpec | services/dataService.ts:73 | the status update keeps the length, changes only the `status` field and only of the appointments with that id, sets it to the new status, and leaves the list unchanged for an unknown id |
| Ledger.FindAfterWithStatus | services/dataService.ts:73 | after the status update, looking the id up gives the same appointment with the new status |
| Ledger.PointsDivisor | services/dataService.ts:121 | the points divisor is always positive, so the rule never divides by zero |
| Ledger.PointsEarnedMonotone | services/dataService.ts:121 | an amount that is not negative earns at least 0 points, and a larger amount never earns fewer |
| Ledger.PointsEarned | services/dataService.ts:121 | the points are the floor of the amount over the divisor, and an amount of 0 earns none |
| Ledger.PointsExamples | services/dataService.ts:121 | a ratio of 1 earns 10 points on 100; a ratio of 0 falls back to the divisor 10 and also earns 10; 99.99 at ratio 1 earns 9 |
| Ledger.ApplyStats | services/dataService.ts:115-127 | the stats update keeps the length and every id; the clients with that id gain the amount and floor(amount / divisor) points, every other client keeps its spend and points |
| Ledger.TransactionsAfter | services/dataService.ts:76-86 | a status change never alters or drops an existing transaction and adds at most one; a transaction is added only for COMPLETED, and it is an INCOME; an unknown appointment id adds nothing |
| Ledger.ClientsAfter | services/dataService.ts:76-91 | a status change keeps the client list's length and changes no client field other than total spent, points and last visit; when the status is not COMPLETED, the appointment id is unknown, or its client is missing, every client stays exactly as it was |
| Ledger.OtherStatusesTouchNothing | services/dataService.ts:76 | any status other than COMPLETED, including a move away from COMPLETED, posts nothing and leaves every client as it was |
| Ledger.CompletionPostsOneIncome | services/dataService.ts:76-91 | completing a found appointment appends exactly one transaction and keeps the earlier ones. The new one is INCOME, carries the stored price snapshot, is in category 'Serviços', and has the given id and date. With no client of that id it is still posted, described 'Serviço - Cliente', and no client changes. |
| Ledger.CompletionNamesClient | services/dataService.ts:79-83 | the income is described 'Serviço - ' followed by the first matching client's name, or 'Cliente' when that name is empty |
| Ledger.CompletionUpdatesClient | services/dataService.ts:88-90 | for the clients with the appointment's client id: total spent grows by the snapshot, points grow by floor(value / divisor), and the last visit becomes today. Nothing else about any client changes. |
| Ledger.ApplyStatsSameRatio | services/dataService.ts:121 | the stats update reads nothing of the settings but the points ratio |
| Ledger.LoyaltyFlagIgnored | services/dataService.ts:115-127 | switching `loyaltyEnabled` on or off changes no outcome of a status change |
| Ledger.StatsNeverDecrease | services/dataService.ts:72-93 | while booked prices are not negative, no client's total spent or points decrease through a status change |
| Ledger.CompletingTwiceCountsTwice | services/dataService.ts:72-93 | completing the same appointment twice posts two incomes of its value, adds its value to the client's total spent twice and its points twice |
| Ledger.ValueForIgnoresStatus | services/dataService.ts:73-77 | a status rewrite does not change which appointment an id finds, nor its client or snapshot |
| Ledger.SpentOnIgnoresStatus | services/dataService.ts:73-77 | the same for the summed spend and points of a series of completions |
| Ledger.CompletionStep | services/dataService.ts:76-91 | one completion adds to a client exactly the snapshot of its own appointment, and its floor points, or nothing when the appointment is someone else's or unknown |
| Ledger.CompletionsAccumulate | services/dataService.ts:72-127 | after completing a series of appointments one by one, a client's total spent has grown by the sum of the snapshots of its appointments among them, and its points by the sum of floor(snapshot / divisor), repeats included |
| Ledger.PatchClientSpec | services/dataService.ts:107-109 | for every client field (id, name, phone, email, photo, birth date, allergies, colour formula, notes, tags, last visit, total spent, points), the patched value is the patch's value when it supplies one and the old value otherwise; an empty patch changes nothing, and applying a patch twice is applying it once |
| Ledger.PatchedClientsSpec | services/dataService.ts:107-109 | a client update keeps the length, rewrites exactly the clients with that id by the spread, and changes nothing for an unknown id |
| Ledger.PatchedServicesSpec | services/dataService.ts:139-141 | the same for a catalogue update |
| Ledger.PatchedProfessionalsSpec | services/dataService.ts:47-49 | the same for a professional update |
| Ledger.RemoveClientSpec | services/dataService.ts:111-113 | removal keeps exactly the clients with another id, in their order, and changes nothing for an unknown id |
| Ledger.RemoveServiceSpec | services/dataService.ts:143-145 | the same for the catalogue |
| Ledger.RemoveProfessionalSpec | services/dataService.ts:51-53 | the same for professionals |
| Ledger.PatchSettings | services/dataService.ts:158-160 | an empty patch changes no setting, a patch without the loyalty keys leaves the points rule alone, and a supplied points ratio replaces the old one |
| Ledger.PatchSettingsTwice | services/dataService.ts:158-160 | applying a settings patch twice is applying it once |
| Store.LoginAccounts | constants.ts:9-32 | the three known addresses sign in as owner, professional and reception; any other address finds no account |
| Store.SalonStore.constructor | services/dataService.ts:15-22 | the store starts signed out, holding the given seed collections and settings |
| Store.SalonStore.Login | services/dataService.ts:25-32 | sign-in succeeds exactly for an address some account has, and then signs in the first such account; otherwise the signed-in user is unchanged |
| Store.SalonStore.Logout | services/dataService.ts:34-36 | after sign-out nobody is signed in |
| Store.SalonStore.AddProfessional | services/dataService.ts:39-45 | the new professional, with the given id, is appended after the existing ones |
| Store.SalonStore.UpdateProfessional | services/dataService.ts:47-49 | the professionals become the patched list of the old ones |
| Store.SalonStore.RemoveProfessional | services/dataService.ts:51-53 | the professionals become the old ones without that id |
| Store.SalonStore.AddAppointment | services/dataService.ts:56-70 | the new appointment is appended after the others, SCHEDULED, with the given client, professional, services, time and notes, and with the snapshot of the current catalogue prices |
| Store.SalonStore.UpdateAppointmentStatus | services/dataService.ts:72-93 | the new appointments, transactions and clients are the status rewrite, the income posting and the stats update of the old state. No other field changes. |
| Store.SalonStore.AddClient | services/dataService.ts:96-105 | the new client is appended with 0 points, 0 spent and the single tag 'Novo' |
| Store.SalonStore.UpdateClient | services/dataService.ts:107-109 | the clients become the patched list of the old ones |
| Store.SalonStore.RemoveClient | services/dataService.ts:111-113 | the clients become the old ones without that id |
| Store.SalonStore.UpdateClientStats | services/dataService.ts:115-127 | the clients with that id get the spend, the points and today's visit; the others stay as they were |
| Store.SalonStore.AddService | services/dataService.ts:130-137 | the new service is appended, ACTIVE unless a status was given |
| Store.SalonStore.UpdateService | services/dataService.ts:139-141 | the catalogue becomes the patched list of the old one |
| Store.SalonStore.RemoveService | services/dataService.ts:143-145 | the catalogue becomes the old one without that id |
| Store.SalonStore.AddTransaction | services/dataService.ts:148-155 | the new transaction, with the given id and date, is appended after the existing ones |
| Store.SalonStore.UpdateSettings | services/dataService.ts:158-160 | the settings become the spread of the patch over the old settings |
| Store.PriceSnapshotScenario | services/dataService.ts:58-67 | an appointment booked at one price posts that price when completed, even after the catalogue price was changed in between |
| Layout.MenuItems | components/Layout.tsx:48-50 | the sidebar never holds more entries than the table |
| Layout.MenuItemsMembers | components/Layout.tsx:48-50 | the sidebar shows exactly the entries of the table whose role list holds the user's role, or every entry when there is no role |
| Layout.MenuWithoutRole | components/Layout.tsx:48-50 | with no role all eight entries are shown |
| Layout.MenuForOwner | components/Layout.tsx:36-50 | the owner sees the whole table |
| Layout.MenuForReceptionist | components/Layout.tsx:36-50 | the reception sees dashboard, agenda and clients, in that order |
| Layout.MenuForProfessional | components/Layout.tsx:36-50 | a professional sees agenda and clients, in that order |
| App.CanAccess | App.tsx:1441-1452 | nobody signed in may open nothing, and the owner may open everything |
| App.OwnerMenuIds | components/Layout.tsx:37-44 | the owner's sidebar ids are the eight screens, in order |
| App.ReceptionistMenuIds | components/Layout.tsx:37-44 | the reception's sidebar ids are dashboard, agenda, clients |
| App.ProfessionalMenuIds | components/Layout.tsx:37-44 | a professional's sidebar ids are agenda, clients |
| App.MenuAgreesWithAccess | App.tsx:1441-1452 | for each role, a screen is in the sidebar exactly when the role may open it. The owner may also open unlisted views. |
| App.RenderContent | App.tsx:1455-1520 | the restricted panel is shown exactly when the user may not open the current view; a view the user may open shows its page when it is one of the eight known screens and the placeholder otherwise |
| App.NextStatus | App.tsx:340-342 | a click confirms exactly the SCHEDULED cards and completes exactly the CONFIRMED ones; it never leads to ARRIVED, NO_SHOW or CANCELLED |
| App.NextStatusCycle | App.tsx:340-342 | three clicks bring SCHEDULED, CONFIRMED and COMPLETED back; any other status goes to SCHEDULED |
| App.ClickPostsIncomeOnlyFromConfirmed | App.tsx:340-343 | a click posts income, of the card's snapshot, exactly when the card was CONFIRMED |
| App.HoursSpan | App.tsx:258 | the agenda has 13 consecutive hour rows, 8 to 20 |
| App.DisplayedProfessionals | App.tsx:263-265 | 'all' shows every professional; any other selection shows exactly those with that id |
| App.Toggled | App.tsx:828-835 | toggling flips whether the id is in the list and leaves every other id in or out as before |
| App.ToggleKeepsOthersInOrder | App.tsx:828-835 | the other ids keep their order |
| App.ToggleTwiceAbsent | App.tsx:828-835 | toggling an absent id twice gives the list back |
| App.ToggleTwicePresent | App.tsx:828-835 | toggling a present id twice removes its copies and puts it at the end |
| App.ToggleTwiceReorders | App.tsx:828-835 | toggling 's1' twice in ['s1', 's2'] gives ['s2', 's1'] |
| App.ToggleNoDuplicates | App.tsx:828-835 | toggling never creates a repetition |
| App.ProfessionalForm.constructor | App.tsx:783-788 | the team form starts with empty name and photo, the given colour (the first preset) and no specialties |
| App.ProfessionalForm.ToggleSpecialty | App.tsx:828-835 | the form's specialties become the toggled list and its other fields stay |
| App.SumValuesAppend | App.tsx:112-113 | the sum over a concatenation is the sum of the sums |
| App.IncomeTotal | App.tsx:112 | the income sum counts only INCOME transactions: none gives 0, and only INCOME gives the sum of all |
| App.ExpenseTotal | App.tsx:113 | the expense sum counts only EXPENSE transactions: none gives 0, and only EXPENSE gives the sum of all |
| App.IncomePlusExpense | App.tsx:963-964 | the income total plus the expense total is the sum of all transaction values |
| App.KindSumsPartition | App.tsx:112-113 | the INCOME sum and the EXPENSE sum together are the sum over all transactions |
| App.CompletionRaisesIncome | App.tsx:112-113 | completing an appointment raises the income total by its snapshot and leaves the expense total as it was |
| App.Lower | App.tsx:384 | lower-casing keeps the length |
| App.LowerIdempotent | App.tsx:384 | lower-casing twice is lower-casing once |
| App.ContainsSpec | App.tsx:384 | the `includes` test holds exactly when the query occurs at some position of the text |
| App.MatchesQuerySpec | App.tsx:384 | every client matches the empty query; a client whose phone holds the query matches; the case of the name does not matter |
| App.SearchClients | App.tsx:384 | the search lists exactly the clients whose lower-cased name contains the lower-cased query, or whose phone contains the query as typed |
| App.SearchKeepsOrder | App.tsx:384 | the matches keep their order in the client list |
| App.EmptyQueryKeepsAll | App.tsx:384 | an empty query lists every client |
| App.SearchIgnoresCaseInNames | App.tsx:384 | lower-casing the query changes nothing about name matches |
| App.CampaignTarget | App.tsx:1066-1070 | there is a target exactly when there are clients, and a target is one of them |
| App.CampaignTargetIsFirstOfGroup | App.tsx:1066-1070 | campaign 1 writes to the first birthday client, if any; campaign 2 to the first inactive client, if any; otherwise the first client |
| App.CampaignLink | App.tsx:1066-1074 | no link is produced exactly when there is no client to write to |
| App.CampaignLinkReachesTarget | App.tsx:1066-1074 | the link holds the target's phone digits and the campaign message |
| App.Shell.constructor | App.tsx:1361-1363 | the app starts on the sign-in screen, with the dashboard as current view and the mobile menu closed |
| App.Shell.HandleNavClick | components/Layout.tsx:52-55 | the clicked screen becomes current and the mobile menu closes |
| App.Shell.HandleLogin | App.tsx:1391-1396 | a known address signs in and opens the dashboard in admin mode; an unknown one changes nothing |
| App.Shell.HandleLogout | App.tsx:1398-1401 | sign-out leaves nobody signed in and returns to the sign-in screen |
| App.Shell.CurrentScreen | App.tsx:1455-1520 | in admin mode the screen is what `renderContent` gives for the signed-in user and the current view, so the restricted panel shows exactly when that user may not open it; in sign-in mode it is the sign-in screen |
| App.ProfessionalCannotOpenFinance | App.tsx:1441-1466 | a professional who signs in gets the restricted panel on the finance screen and the agenda page on the agenda screen |

## Left out

- Random ids and clock reads are parameters. `Math.random` ids and `new Date()` timestamps and dates are supplied by the caller. Nothing assumes the ids are fresh, since the random ids do not guarantee that either.
- React state batching is not modelled. The store's setters mix the closure's arrays with `prev`. Each operation is modelled as one call on the current state, which is what one click does.
- Date and time-zone logic is not modelled: the today-prefix filter of the dashboard, the agenda's day filter and hour bucketing, and the tomorrow-slot construction of the booking flow. The marketing birthday and cut-off tests are parameters `inThisMonth` and `visitedBeforeCutoff`. Only the missing or empty date cases are modelled.
- Formatting is not modelled: the `Intl` currency, date and time formatting of utils.ts.
- Floating point is not modelled. Money is `real`, so sums and the points division are exact where JavaScript would round. This shows in the points: with a ratio of 29 points per currency unit, 10 spent earns 29 points in the model, while double-precision `Math.floor(10 / (10 / 29))` is 28. String-to-number coercion of form input is left out.
- Browser effects and presentation are left out: `window.open`, `alert`, `confirm`, clipboard, charts, and all JSX markup and styling.
- App.Lower: does not cover the whole of Unicode case mapping. Only A–Z and the Latin-1 capitals À–Þ (without ×) are lowered. Characters whose lower case has a different length are not modelled.
- Utils.GenerateWhatsAppLink: `encodeURIComponent` throws on lone surrogates. Dafny characters are Unicode scalar values, so that error path cannot arise in the model.
- The seed data of constants.ts is left out. It is used only for the three sign-in accounts.
- The client booking flow is not part of this model. It always books for the fixed client id 'c1', with the chosen professional, the one chosen service and the chosen slot of tomorrow (`App.tsx:1414-1427`). It then calls the store's `addAppointment`, which is modelled.
- The settings form is not part of this model. It copies each input's raw string into the field of that name (`App.tsx:1124-1127`) and hands the whole object to `updateSettings`. So `pointsPerCurrency` can reach the store as a string, while `PatchSettings` assumes typed fields.
