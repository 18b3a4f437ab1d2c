# Contacts app: cache, list view, form rules and GraphQL request shaping

A Dafny model of the logic of a React contact-management app. The app lists contacts from a
remote GraphQL store, lets the user mark favorites, and adds or edits contacts through a form.
The form checks first names against a local cache kept in browser storage. The model covers four
pieces:

- **Local contact cache** (`src/storage.tsx`, module `Storage`). One persisted slot holds a map
  from string keys to contact snapshots. Every operation reads the whole map; `upsertContact` and
  `deleteContactBySlug` change it and write the whole map back, while `getContacts` and
  `getContactBySlug` only read.
  `LocalStore` is a class whose field `slot` is that slot. `None` stands for an absent or empty
  slot, which reads as the empty map. `upsertContact` and `deleteContactBySlug` use the decimal
  text of the id as the key (`IdKey`). `getContactBySlug` looks up an arbitrary slug.
  `SlugWithNonIdCharMisses` proves the consequence: in a cache written only by `upsertContact`,
  a slug containing a letter never has an entry of its own. A lookup is a property read on a
  plain object, so a slug that names an `Object.prototype` member (`constructor`, `toString`,
  `__proto__`, ...) finds that inherited member, even in an empty cache (`LookupKey`).
- **Contact list view** (`src/components/Contacts.tsx`, module `ContactListing`). Class
  `ContactList` holds the component state `contactsShow`, `successMessage`, `filterMode` and
  `offset`. Pure functions give the list transforms: clearing favorites after a fetch, toggling
  one id, filtering by mode, and choosing the snackbar message. Paging uses the fixed page size
  10. Mode `All` shows only the contacts that are *not* favorites.
- **Add/edit form** (`src/components/AddEditContact.tsx`, modules `TextRules`, `Telephone` and
  `AddEditForm`). These cover the required-field check and the letters-and-white-space name
  filter. They also cover the telephone pattern: a scanning recognizer, proved equal to a
  declarative split of the pattern. Then come add/edit mode detection, the duplicate-name rule,
  the save payload and the create/update dispatch. Class `ContactForm` holds `values` and
  `saved`.
- **GraphQL client** (`src/api_service/apiService.ts`, module `Api`). Each operation's request
  variables are a datatype holding exactly the fields the operation sends. The transport is a
  function parameter returning `Ok(data)` or `Failure`. Any failure becomes `None`, the model of
  `null`.

`Seqs` holds the order-preserving filter shared by the list view and the name filter.
`ContactModel` holds the contact record and `Wrappers` holds `Option`.

Three consequences of the code are worth stating:

- Entries are written under the id and read by slug (see `IdKey`, `SlugWithNonIdCharMisses`).
- Edit mode compares the slug with `match?.params.name`, which the router
  (`src/index.tsx:43-44`) never passes. So edit mode applies the add-mode rule, and a cached
  slug is rejected even for the contact being edited (`AbsentRouteNameMeansAddRule`).
- Saving never writes the local cache (`ContactForm.SaveContact`).

## Model

| member | source | states |
|---|---|---|
| `Storage.IdKey` | src/storage.tsx:40 | the key of an id is non-empty and made only of digits and a minus sign |
| `Storage.DecimalRoundTrip` | src/storage.tsx:40 | the decimal text of a natural number reads back as that number |
| `Storage.IdKeyRoundTrip` | src/storage.tsx:40 | every id key parses back to its id |
| `Storage.IdKeyInjective` | src/storage.tsx:44-46 | distinct ids have distinct keys, so upsert and delete of one id never touch another id's entry |
| `Storage.Upserted` | src/storage.tsx:38-42 | after an upsert the entry at the contact's id key is the contact; the key set gains only that key; every other entry is unchanged |
| `Storage.Deleted` | src/storage.tsx:44-48 | after a delete the id key is absent; every other entry is unchanged; deleting an absent key leaves the map as it was |
| `Storage.UpsertThenDeleteRestores` | src/storage.tsx:38-48 | upserting a contact whose key was free and then deleting its id restores the original map |
| `Storage.UpsertKeepsKeyedByIds` | src/storage.tsx:38-42 | a cache whose keys are all id keys keeps that property after an upsert |
| `Storage.DeleteKeepsKeyedByIds` | src/storage.tsx:44-48 | a cache whose keys are all id keys keeps that property after a delete |
| `Storage.SlugWithNonIdCharMisses` | src/storage.tsx:33-35 | in a cache keyed by ids, a slug holding a character that is not a digit or a minus sign has no own entry |
| `Storage.LookupKey` | src/storage.tsx:34 | a property read on the decoded object gives the own entry when there is one, else the inherited `Object.prototype` member of that name, else `undefined` |
| `Storage.EmptyCacheAnswersInheritedNames` | src/storage.tsx:18 | reading an inherited name from the empty object `{}` finds the inherited member |
| `Storage.IdKeyedLookupFindsOnlyInherited` | src/storage.tsx:33-35 | in a cache keyed by ids, a slug with a non-id character is found exactly when it names an inherited member |
| `Storage.LocalStore.Data` | src/storage.tsx:14-21 | an absent slot reads as the empty map; otherwise the stored map |
| `Storage.LocalStore.SafeGet` | src/storage.tsx:14-21 | returns `{}` for an absent slot and the stored object otherwise |
| `Storage.LocalStore.Save` | src/storage.tsx:24-26 | the slot is overwritten with the whole object |
| `Storage.LocalStore.GetContacts` | src/storage.tsx:29-31 | one element per entry: each listed contact is the value of a distinct key, and every key is listed; an empty slot gives `[]`; nothing is modified |
| `Storage.LocalStore.GetContactBySlug` | src/storage.tsx:33-35 | equals `LookupKey` on the stored object: the entry under exactly that key; otherwise the inherited member named by the slug itself, also for an empty slot; otherwise `undefined`; nothing is modified |
| `Storage.LocalStore.UpsertContact` | src/storage.tsx:38-42 | the slot afterwards holds the old map with the contact stored under its id key |
| `Storage.LocalStore.DeleteContactBySlug` | src/storage.tsx:44-48 | the slot afterwards holds the old map without the id key, and is written even when nothing was removed |
| `Api.Settle` | src/api_service/apiService.ts:56-60 | a caught exception gives `null`; otherwise the selected response field, absent when missing |
| `Api.ListRequest` | src/api_service/apiService.ts:48-54 | the list request forwards limit, offset, order_by and where unchanged and sends an empty `distinct_on` |
| `Api.GetContactList` | src/api_service/apiService.ts:45-60 | a transport failure yields `null`; any list returned is exactly what the server returned for the forwarded request; a successful response's field is passed on unchanged |
| `Api.GetContactDetail` | src/api_service/apiService.ts:77-83 | the request carries only the id; failure yields `null`; a result is the server's record; a successful response's field is passed on unchanged |
| `Api.UpdateRequest` | src/api_service/apiService.ts:98-106 | the id travels as its own variable and `_set` holds exactly the first and last name of the fields |
| `Api.UpdateRequestIgnoresOtherFields` | src/api_service/apiService.ts:98-101 | phones, favorite, id and created_at never influence the update request |
| `Api.UpdateContact` | src/api_service/apiService.ts:103-112 | failure yields `null`; a result is the server's answer to the allowlisted request; a successful response's field is passed on unchanged |
| `Api.CreateRequest` | src/api_service/apiService.ts:143-147 | the create variables are the input's names and phones |
| `Api.CreateRequestIgnoresOtherFields` | src/api_service/apiService.ts:143-147 | favorite, id and created_at never influence the create request |
| `Api.CreatedContact` | src/api_service/apiService.ts:140-153 | the result is the first row of `insert_contact.returning`; it is absent on failure, on a missing field and on an empty list |
| `Api.DeleteContact` | src/api_service/apiService.ts:167-178 | the request carries only the id; failure yields `null`; a result is the server's summary; a successful response's field is passed on unchanged |
| `Seqs.Filter` | src/components/Contacts.tsx:116 | the result is a subsequence of the input, holds only elements satisfying the predicate, and holds every such element |
| `Seqs.FilterCount` | src/components/Contacts.tsx:116 | the result holds every copy of an element that satisfies the predicate and no copy of one that does not |
| `Seqs.FilterCounts` | src/components/AddEditContact.tsx:124 | the per-element counts of `FilterCount`, for every element of the input |
| `Seqs.FilterKeepsAll` | src/components/AddEditContact.tsx:124 | filtering a sequence whose elements all satisfy the predicate returns it unchanged |
| `Seqs.FilterIdempotent` | src/components/AddEditContact.tsx:124 | filtering twice by one predicate equals filtering once |
| `Seqs.FilterPartition` | src/components/Contacts.tsx:114-121 | a predicate and its negation split a sequence into parts whose multisets add up to the sequence's |
| `ContactListing.ResetFavorites` | src/components/Contacts.tsx:80-83 | same length and order, every favorite false, every other field as fetched |
| `ContactListing.ToggledFavorite` | src/components/Contacts.tsx:97-105 | same length; entries with the id have `favorite` negated and nothing else changed; all other entries are identical |
| `ContactListing.ToggleTwiceRestores` | src/components/Contacts.tsx:97-105 | toggling the same id twice restores the list |
| `ContactListing.FirstIndexOf` | src/components/Contacts.tsx:108 | the position `find` stops at is the first entry with the id; none means no entry has it |
| `ContactListing.FirstIndexOfDependsOnIdsOnly` | src/components/Contacts.tsx:97-108 | lists with the same ids at every position agree on where an id first occurs |
| `ContactListing.MessageTextsDiffer` | src/components/Contacts.tsx:109-110 | the "is" and "isn't" messages differ for every name |
| `ContactListing.FavoriteMessage` | src/components/Contacts.tsx:108-110 | the message is the "is" form exactly when the first entry with the id is a favorite, and the "isn't" form otherwise, including when no entry has the id |
| `ContactListing.ToggleMessageReportsNewFlag` | src/components/Contacts.tsx:96-111 | after a toggle the message says "is a favorite" exactly when the first entry with the id was not a favorite before |
| `ContactListing.FilterByMode` | src/components/Contacts.tsx:114-124 | mode `All` gives exactly the non-favorites and mode `Favorites` exactly the favorites, each as a subsequence in list order |
| `ContactListing.FilterModesPartition` | src/components/Contacts.tsx:114-121 | the two modes' results are disjoint and together cover the list, multiplicities included |
| `ContactListing.PageOffset` | src/components/Contacts.tsx:66 | the offset for a page is a multiple of the limit, and dividing it by the limit gives the page back |
| `ContactListing.DisplayedPage` | src/components/Contacts.tsx:158 | the displayed page times the limit is the offset |
| `ContactListing.ContactList.constructor` | src/components/Contacts.tsx:54-57 | the list starts empty, with no message, mode `All` and offset 0 |
| `ContactListing.ContactList.FetchContactList` | src/components/Contacts.tsx:69-93 | the current page is requested newest first and unfiltered; a returned list replaces `contactsShow` with favorites cleared, and a null result leaves it unchanged |
| `ContactListing.ContactList.ToggleFavorite` | src/components/Contacts.tsx:96-112 | `contactsShow` becomes the toggled list and the message is chosen from it; filter mode and offset are unchanged |
| `ContactListing.ContactList.SetFilterMode` | src/components/Contacts.tsx:143 | the filter mode becomes the selected one |
| `ContactListing.ContactList.CloseMessage` | src/components/Contacts.tsx:138 | the message is cleared |
| `ContactListing.ContactList.HandleChangePage` | src/components/Contacts.tsx:62-67 | the offset becomes `newPage * 10`; it stays a multiple of the limit, and the displayed page equals `newPage` |
| `ContactListing.ContactList.Page` | src/components/Contacts.tsx:158 | the page passed to the pagination control, times the limit, is the offset |
| `ContactListing.ContactList.FilteredContacts` | src/components/Contacts.tsx:114-128 | the displayed contacts are `FilterByMode` of `contactsShow` under the current mode: exactly the non-favorites in mode `All` and the favorites in mode `Favorites`, in order |
| `TextRules.TrimStart` | src/components/AddEditContact.tsx:72 | the result is a suffix of the input; everything removed is white space; the result does not start with white space |
| `TextRules.TrimEnd` | src/components/AddEditContact.tsx:72 | the result is a prefix of the input; everything removed is white space; the result does not end with white space |
| `TextRules.Trim` | src/components/AddEditContact.tsx:72 | the result neither starts nor ends with white space, and it is empty exactly when the input is all white space |
| `TextRules.ValidateRequired` | src/components/AddEditContact.tsx:71-73 | holds exactly when the value contains a character that is not white space |
| `TextRules.FilterName` | src/components/AddEditContact.tsx:124 | the result holds only ASCII letters and white space, is a subsequence of the input, and keeps every copy of each letter and white-space character while dropping every other character |
| `TextRules.FilterNameKeepsNames` | src/components/AddEditContact.tsx:124 | a name of letters and white space passes unchanged |
| `TextRules.FilterNameIdempotent` | src/components/AddEditContact.tsx:124 | filtering a filtered name changes nothing |
| `Telephone.Matches` | src/components/AddEditContact.tsx:27 | every accepted string contains a digit |
| `Telephone.MatchesGivesSplit` | src/components/AddEditContact.tsx:27 | every string the recognizer accepts splits into plus signs, an optional `(`, 1 to 4 digits, an optional `)` and a tail of `-`, white space, `.`, `/` and digits |
| `Telephone.SplitGivesMatches` | src/components/AddEditContact.tsx:27 | every string with such a split is accepted |
| `Telephone.MatchesIffFitsPattern` | src/components/AddEditContact.tsx:27 | the recognizer accepts exactly the strings the pattern describes |
| `Telephone.EmptyIsRejected` | src/components/AddEditContact.tsx:27 | the empty string is rejected |
| `AddEditForm.Includes` | src/components/AddEditContact.tsx:75 | holds exactly when the second string occurs in the first at some position |
| `AddEditForm.IsAddMode` | src/components/AddEditContact.tsx:75 | add mode holds exactly when the path contains `/add` |
| `AddEditForm.MissingCharMeansNoOccurrence` | src/components/AddEditContact.tsx:75 | a string lacking one of `t`'s characters contains no occurrence of `t` |
| `AddEditForm.AddRouteIsAddMode` | src/components/AddEditContact.tsx:75 | the `/add` path is in add mode |
| `AddEditForm.EditRouteIsEditMode` | src/components/ContactsTable.tsx:62 | the edit path `/edit/${id}` built for any contact id is not in add mode |
| `AddEditForm.NameAvailable` | src/components/AddEditContact.tsx:142-150 | in add mode the name is valid exactly when the slug finds nothing: no cache entry and no inherited member; in edit mode also when the slug equals the route name parameter |
| `AddEditForm.InheritedSlugIsTaken` | src/components/AddEditContact.tsx:143-149 | a slug naming an inherited property, such as "constructor", is reported as existing even with an empty cache |
| `AddEditForm.AbsentRouteNameMeansAddRule` | src/components/AddEditContact.tsx:148 | with the route parameter absent, edit mode gives the add-mode verdict, so a cached slug is rejected even for the contact being edited |
| `AddEditForm.SavePayload` | src/components/AddEditContact.tsx:162-169 | the payload copies first and last name, favorite, id and created_at, and keeps the phone count, order and numbers |
| `AddEditForm.ContactForm.constructor` | src/components/AddEditContact.tsx:74-86 | mode from the path; empty names, two empty phones, favorite set, id from the route |
| `AddEditForm.ContactForm.FetchContactDetail` | src/components/AddEditContact.tsx:90-102 | a fetched contact replaces the values; a null result keeps them |
| `AddEditForm.ContactForm.HandleChange` | src/components/AddEditContact.tsx:115-128 | a phone edit applies only when the text matches the telephone pattern, and then changes only that phone's number; otherwise first and last name take the filtered text and other fields stay unchanged |
| `AddEditForm.ContactForm.HandleCheckbox` | src/components/AddEditContact.tsx:130-134 | only the favorite flag changes |
| `AddEditForm.ContactForm.IsNameValid` | src/components/AddEditContact.tsx:142-150 | the verdict is the duplicate-name rule applied to the cache and the slug of the current first name |
| `AddEditForm.ContactForm.IsFormValid` | src/components/AddEditContact.tsx:136-139 | valid exactly when the first name has a non-white-space character and the name rule holds |
| `AddEditForm.ContactForm.SaveContact` | src/components/AddEditContact.tsx:160-181 | add mode calls create with the payload; edit mode calls update with the route id and the payload; the form is marked saved either way |
| `AddEditForm.ContactForm.UpdateContactDetails` | src/components/AddEditContact.tsx:183-192 | the update is sent for the route id, and a returned contact's names and phones are written into the values |

## Left out

- Rendering, styling and navigation are not modelled. This includes all JSX, `makeStyles`, the
  snackbar, delete-dialog and not-found components, and the redirect once `saved` is set.
- `src/components/ContactsList.tsx`, `src/components/ContactsTable.tsx` and the search in
  `src/components/MenuBar.tsx` are not modelled. They only display data or call the API
  functions modelled here. The `_like` matching happens on the server.
- Routing and theme setup (`src/index.tsx`) and the Apollo client setup
  (`src/api_service/graphql.ts`) are not part of this model.
- Browser storage and JSON are not modelled. The slot is stored as the decoded map. A slot
  holding text that fails to parse would throw in `JSON.parse`; that case is not modelled.
- `Storage.LocalStore.GetContacts`: the result order is left unspecified. `Object.values`
  lists array-index keys (the decimal text of an integer from 0 to 2^32−2) in ascending order,
  then the other keys, negative ids and larger ids among them, in insertion order. The model
  promises only one element per entry.
- `Storage.IdKey`: ids are modelled as unbounded integers. JavaScript's exponent notation for
  numbers of 10^21 and more, and non-integer ids, are not modelled.
- Apollo, the network and the server are a function parameter. `async`/`await` scheduling and
  the `console.error` logging are not modelled. `null` and `undefined` results are both `None`.
- Query selection sets are not modelled. The transport returns whole records. In the source,
  the list and detail queries do not select `favorite`. The list's flags are cleared anyway. The
  detail's missing flag is not represented.
- A `returning` field that is `null` makes `createdContact` throw and return `null`. The model
  has no such response, but it too would give `None`.
- `slugify` lives in a utility file that is not part of this model. It is a function parameter,
  and nothing is assumed about it.
- `AddEditForm.ContactForm.HandleChange`: the model works on values. The source copies the
  phone list shallowly and then overwrites the number of a phone object that the previous state
  shares. That aliasing is not captured.
- `AddEditForm.ContactForm.HandleCheckbox` covers only the `favorite` field, the only one the
  form wires to a checkbox.
- `AddEditForm.ContactForm.UpdateContactDetails`: the source replaces `values` with the mutation
  response. That response lacks `id`, `created_at` and `favorite`, which become `undefined`.
  The model keeps their previous values. The page navigates away right after saving.
- `AddEditForm.ContactForm.constructor`: `Number(id)` is taken to give an integer. On the add
  route there is no `:id` parameter and the source gets `NaN`.
- `handlePhoneChange` and `phoneValues` (`src/components/AddEditContact.tsx:152-158`),
  `totalContactCount` and the media-query flag are not modelled. No field uses them.
- The unused `emailRegex`, the commented-out `searchContact` and the commented-out redirect
  effect are not modelled.
