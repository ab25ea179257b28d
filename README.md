# Defect report edit form: a Dafny model

This project models the edit form for a stored defect report ("melding") in a
mobile field-technician app. It covers two actions of the form.

- **Save** (`handleOpslaan`). The form builds the updated report from the
  original report, the edited fields and the current time. It reads the list
  stored under the device key `'meldingen'`, where a missing value counts as
  the empty list. It replaces every entry with the edited id, writes the list
  back, and only then calls the caller's `onSave` callback.
- **E-mail** (`sendEmail`). The form refuses to send unless the image,
  description, location and technician name are all present. Otherwise it
  gives the mail composer the subject `"Defect melding - " + category`, a body
  with one line per field, and the image as the only attachment.

Modules:

- `MeldingType` (`melding.dfy`): the report record `Melding<L>` from
  `types/melding.ts:3-11`, and the four category values the picker offers.
  The location is a type parameter `L`, because its coordinates are
  floating-point values from a device library.
- `Replace` (`replace.dfy`): the replace-by-id `map` as a recursive function,
  with lemmas on length, each position, missing ids, idempotence and ids.
- `Store` (`store.dfy`): the stored value under `'meldingen'` (absent, a
  list, or corrupt), the pure specification `SaveSpec` of one save and its
  lemmas, and the class `MeldingStore` whose `Save` method reads, replaces
  and writes, and is proved equal to `SaveSpec`.
- `Mail` (`mail.dfy`): the pre-send guard, subject, body and attachments.
- `Bewerken` (`bewerken.dfy`): the class `MeldingBewerken` holding the form
  state. It has setters for the editable fields, the updated record, the
  save action and the e-mail action.

Inputs from outside the program are parameters. `now` stands for
`Date.now()`. `readOk` and `writeOk` say whether the device store's read and
write succeed. `coords` renders a location's latitude and longitude as text.

## Behaviour of the code

- The subject prefix is `"Defect melding - "` (line 64).
- The edit-save runs no field check. Only the e-mail action checks fields.
- In the edit-save, a stored value that does not parse makes `JSON.parse`
  throw, and the error is caught. Nothing is written and `onSave` is not
  called. The model calls this `ParseFailed`; it is not treated as an empty
  list.

## Model

| member | source | states |
|---|---|---|
| `MeldingType.CategoryChoices` | components/MeldingBewerken.tsx:96-99 | the category picker can hand over exactly "Grondkabels", "Hoogspanningsmasten", "Luchtkabels" and "Schakelkasten", in that order |
| `MeldingType.PickerItemsWellFormed` | components/MeldingBewerken.tsx:96-99 | there are four picker items; each shows the same text it stores; no two store the same category |
| `Replace.ReplaceById` | components/MeldingBewerken.tsx:37-39 | the replace-by-id `map` returns a list of the same length as the list it was given |
| `Replace.ReplaceAt` | components/MeldingBewerken.tsx:37-38 | at every position, the result holds the updated report if the stored id matches, and the stored entry otherwise |
| `Replace.ReplaceSpec` | components/MeldingBewerken.tsx:37-39 | same length; every matching entry becomes the updated report; every other entry stays unchanged at its position |
| `Replace.ReplaceMissing` | components/MeldingBewerken.tsx:37-39 | if no entry has the id, the list is returned unchanged and the report is not appended |
| `Replace.ReplaceIdempotent` | components/MeldingBewerken.tsx:37-39 | replacing twice with the same report gives the same list as replacing once |
| `Replace.ReplaceKeepsIds` | components/MeldingBewerken.tsx:24-39 | when the update keeps the replaced id (it is spread from the original), the sequence of ids does not change, so unique ids stay unique |
| `Replace.ReplaceUnique` | components/MeldingBewerken.tsx:37-39 | with unique ids, the result is the list with only the edited position replaced |
| `Store.Parse` | components/MeldingBewerken.tsx:34-35 | an absent value reads as the empty list, a stored list reads as itself, and only a corrupt value is an error |
| `Store.SaveSpec` | components/MeldingBewerken.tsx:33-45 | one edit-save succeeds exactly when the read, the parse and the write all succeed; a failed save leaves the stored value as it was; a successful one writes a list as long as the one read |
| `Store.SaveSucceedsIff` | components/MeldingBewerken.tsx:33-45 | a save succeeds exactly when the read, parse and write all succeed; each failure is told apart; a failed save leaves the store as it was |
| `Store.SaveReplaces` | components/MeldingBewerken.tsx:34-41 | a successful save writes a list of the length that was read, with matching entries replaced and all others unchanged in place |
| `Store.SaveMissingIsNoop` | components/MeldingBewerken.tsx:34-41 | saving a report whose id is not stored leaves the stored list exactly as it was |
| `Store.SaveAbsentWritesEmpty` | components/MeldingBewerken.tsx:34-41 | when the key was never written, a successful save writes the empty list |
| `Store.SaveUnique` | components/MeldingBewerken.tsx:34-41 | with unique ids, a successful save changes exactly the edited report's position |
| `Store.SaveIdempotent` | components/MeldingBewerken.tsx:34-41 | repeating a successful save of the identical record (same timestamp) leaves the store unchanged, whatever was stored |
| `Store.MeldingStore.constructor` | components/MeldingBewerken.tsx:34 | the store starts with the given value under the key |
| `Store.MeldingStore.GetItem` | components/MeldingBewerken.tsx:34 | a successful read returns the stored value |
| `Store.MeldingStore.SetItem` | components/MeldingBewerken.tsx:41 | a successful write stores the list; a failed write leaves the old value |
| `Store.MeldingStore.Save` | components/MeldingBewerken.tsx:33-45 | the new stored value and the outcome are those of `SaveSpec` applied to the old value |
| `Mail.Subject` | components/MeldingBewerken.tsx:64 | the subject is the prefix `"Defect melding - "` followed by the category |
| `Mail.SubjectInjective` | components/MeldingBewerken.tsx:64 | two subjects are equal exactly when their categories are equal |
| `Mail.LocationText` | components/MeldingBewerken.tsx:54 | the location line holds the latitude after `Latitude: ` and the longitude after `, Longitude: ` |
| `Mail.Body` | components/MeldingBewerken.tsx:55-60 | the body holds the technician name after `Monteur: `, the category after `Categorie: `, the description after `Beschrijving: ` and the location line after `Locatie: ` |
| `Mail.SendEmail` | components/MeldingBewerken.tsx:48-66 | the mail is refused exactly when the image, description or technician name is empty or the location is absent; otherwise the attachments are exactly the image, the subject is the prefix followed by the category, and the body holds the technician name, category and description after their labels |
| `Mail.SendEmailSubjects` | components/MeldingBewerken.tsx:62-66 | a complete form always reaches the composer, and messages about two categories have equal subjects exactly when the categories are equal |
| `Bewerken.MeldingBewerken.constructor` | components/MeldingBewerken.tsx:17-21 | the form state starts with the report's own description, category, technician name, image and location |
| `Bewerken.MeldingBewerken.SetDescription` | components/MeldingBewerken.tsx:104-111 | the description is set and no other field changes |
| `Bewerken.MeldingBewerken.SetCategory` | components/MeldingBewerken.tsx:92-100 | the category is set to the picked value and no other field changes |
| `Bewerken.MeldingBewerken.SetMonteurName` | components/MeldingBewerken.tsx:83-88 | the technician name is set and no other field changes |
| `Bewerken.MeldingBewerken.Updated` | components/MeldingBewerken.tsx:24-31 | the updated record keeps the original id, image and location; it takes description, category and technician name from the form; its timestamp is the save time |
| `Bewerken.MeldingBewerken.Opslaan` | components/MeldingBewerken.tsx:23-46 | the store is updated as `SaveSpec` says with the updated record under the original id; `onSave` runs exactly when read, parse and write all succeed |
| `Bewerken.MeldingBewerken.SendEmail` | components/MeldingBewerken.tsx:48-73 | the form's e-mail reaches the composer exactly when image, description and technician name are non-empty; then the attachment is the report's image and the subject its category after the prefix |

## Left out

- Rendering, styles and the landscape check (components/MeldingBewerken.tsx:15-16, 75-236): user interface only.
- The text encoding of the stored list (`JSON.parse`, `JSON.stringify`). The store holds the list itself. A value that does not parse, or that parses to something without a `map` (such as `null` or an object), is the single value `Corrupt`, and the save fails on it.
- A stored array whose elements are not reports is not represented, because the app only ever writes report lists. In the code, an element without a matching `id` (such as `{"x":1}`) is kept, the list is written back and `onSave` runs. A `null` element makes the save fail when `m.id` is read (line 38), not at `JSON.parse`.
- The device store's read and write. Their success is the parameters `readOk` and `writeOk`. A stored empty string, which the code also treats as "nothing stored", is not a separate case, since the app never writes one.
- `Date.now()`: it is the parameter `now`.
- Rendering the floating-point latitude and longitude as text: `Mail.SendEmail` takes a function `coords` that does it.
- The mail composer, the `alert` messages and `console.error` logging: external capabilities and user interface. The composer's failure is not modelled.
- Mail.Body: the contract states only that each field follows its label. The exact line breaks and indentation of the template are in the function's definition only.
- Mail.SendEmail: a missing image is modelled as the empty string. The form types the image as a string, so `null` and `""` are both falsy there.
- Bewerken.MeldingBewerken.SendEmail: the location always comes from the report, so in this form it is never absent. A report whose stored location is `null` is not modelled.
- Concurrent saves and deletes racing on the stored list: every call runs to completion in this model.
- The other screens (the capture screen in app/(tabs)/index.tsx, the saved-report list and delete in app/(tabs)/meldingen.tsx) and hooks/useScreenPadding.ts are not part of this model.
