# trsderconDash admin console: a Dafny model of the screens' state logic

The console is a React admin dashboard for an events site. Each screen
keeps some React state: a draft form, a list of rows, an open modal, a
selection and a loading flag. Its handlers change that state, and they
build the request bodies (JSON objects or multipart FormData) sent to the
backend. This project models that client-side logic screen by screen, and
proves what each handler does to the state and what exactly goes out on
the wire.

- `Js` models JavaScript values.
  - An object is an ordered association list, `seq<(string, Value)>`.
    Order matters wherever `for … in` or `Object.keys` walks a draft.
  - `{...o, [k]: v}` is `Js.Set`. It replaces the key in place, or appends it when absent.
  - `o[k]` is `Js.Get`, which gives `undefined` for a missing key. `k in o` is `Js.Has`.
  - A multipart body is the list of its appended `(name, value)` entries.
  - An input's change event is a `Target`: name, value, type, checked and the chosen file names.
- `Rows` holds the list transforms the screens share:
  - filtering out rows by `_id`;
  - replacing the row whose `_id` matches;
  - editing, appending and removing a nested offering by position.
- One module per screen. Each screen is a `class` whose fields are the component's state and whose methods are its handlers.
  - Every handler that builds a request body has a specification function for that body (`Body`, `Payload`, `Kept`, …).
  - The method that appends entry by entry is proved equal to it.
  - Lemmas state what the server reads back from the body: which keys, under which names, with which values.
- The home and agenda pages differ only in the name of the edited field (`home` / `agenda`). They share `ContentPage.ContentScreen`, whose `field` is that name.

Network calls are not modelled. Their outcome is a parameter of the handler:
- `ok` is an ok response whose body parsed;
- `result` or `reloaded` is a parsed list, or `None` for a failed fetch;
- `confirmed` is the answer to `window.confirm`.

A handler that starts a reload without awaiting it returns a `refetch` flag. Where the reload is awaited (the event list), the reloaded list is a parameter. The cookie is a field of `Auth.AuthProvider`.

Behaviours of the code that the model records as written:
- `addEventPrice` leaves `loading` on after any response that is not an exception.
- Its reset draft has no `slots` key, so the next create request sends no `slots` unless the input is edited.
- `addSponser` reports success whenever the response body parses, even for a non-ok status, and never resets the form.
- `viewSponser` turns `loading` on before it checks for a selection. Without a selection it stays on.
- `viewSponser`'s `handleEdit` throws on a row whose `isActive` is null or undefined. The selection is already stored by then.
- `ListEventVenue`'s `handleEdit` throws on a row whose date is set but invalid. The selection is already stored by then, and the modal does not open.
- `ListEventVenue`'s closeModal clears the selection and the preview but keeps the draft. `viewSpeaker`'s closeModal keeps both the selection and the draft. Each method's contract states exactly which fields change.

## Model

| member | source | states |
|---|---|---|
| Js.Or | src/pages/Event/ListEventVenue.tsx:104-109 | `a \|\| b`: the first value when it is truthy, the second otherwise |
| Js.Keys | src/components/Speaker/viewSpeaker.tsx:92 | `Object.keys` lists every entry's key, one per entry, in insertion order |
| Js.HasKeys | src/components/Speaker/viewSpeaker.tsx:92 | a key is present (`in`) exactly when `Object.keys` lists it |
| Js.Get | src/pages/Event/addEvent.tsx:36-41 | reading a key that is absent gives `undefined` |
| Js.Set | src/pages/Event/addEventPrice.tsx:42-45 | after a spread update the key holds the new value, every other key keeps its value, an existing key keeps its place and a new one is appended last |
| Js.PickGet | src/pages/Event/addEvent.tsx:35-41 | appending a list of distinct keys one after another gives a body with exactly those keys, in that order, each with the draft's value |
| Js.PickAll | src/components/Speaker/viewSpeaker.tsx:92-98 | walking all keys of an object with distinct keys and appending each one rebuilds the object entry for entry |
| Js.PickIgnores | src/pages/Sponser/addSponser.tsx:37-42 | a draft key that is not appended has no effect on the body |
| Js.SetDistinct | src/pages/Event/addEventPrice.tsx:42-45 | a spread update keeps the keys of an object distinct |
| Js.SetSet | src/pages/navigation.tsx:24 | two updates of the same key leave only the second |
| Js.SetSame | src/pages/navigation.tsx:24 | writing a key's own value back changes nothing |
| Js.FirstFile | src/pages/Event/addEvent.tsx:18-22 | `files[0]` is a truthy file exactly when a file was chosen, and `undefined` otherwise |
| Js.BeforeT | src/pages/Event/ListEventVenue.tsx:108 | `split('T')[0]` is a prefix of the text without a 'T', ending just before the first 'T' when there is one |
| Js.BeforeTIso | src/pages/Event/eventList.tsx:206 | an ISO timestamp `date + 'T' + time` gives back its date part |
| Rows.RemoveById | src/pages/Event/listEventPrice.tsx:86 | `filter(row => row._id !== id)` never makes the list longer |
| Rows.RemoveByIdMembers | src/pages/Event/listEventPrice.tsx:86 | the rows kept are exactly the rows whose `_id` differs from the deleted id |
| Rows.RemoveByIdAppend | src/pages/Event/listEventPrice.tsx:86 | filtering a list is filtering its parts and concatenating, so the kept rows stay in their order |
| Rows.RemoveByIdAbsent | src/pages/Event/ListEventVenue.tsx:129 | deleting an id that no row carries leaves the list as it was |
| Rows.RemoveByIdCount | src/pages/Event/ListEventVenue.tsx:129 | exactly as many rows are dropped as carry the deleted id |
| Rows.RemoveByIdCons | src/pages/Event/listEventPrice.tsx:86 | the filter decides the first row alone and then filters the rest |
| Rows.ReplaceByIdKeepsIds | src/pages/Event/listEventPrice.tsx:151-155 | replacing the updated row never changes the id column |
| Rows.ReplaceByIdAbsent | src/pages/Event/listEventPrice.tsx:151-155 | a returned row whose id is not in the list changes nothing |
| Rows.ReplaceByIdIdempotent | src/pages/Event/listEventPrice.tsx:151-155 | applying the same update twice is applying it once |
| Rows.SetFieldAtSpec | src/pages/Event/addEventPrice.tsx:50-56 | an offering edit changes only the element at the index, and only its named key; an index out of range changes nothing |
| Rows.RemoveAtSpec | src/pages/Event/addEventPrice.tsx:62-65 | removing an offering deletes exactly that position and keeps the order of the rest; out of range it changes nothing |
| Navigation.ToggleEffect | src/pages/navigation.tsx:21-27 | on a matching item the flag becomes the negation of its truthiness and every other property keeps its value; other items are unchanged |
| Navigation.FlipTwice | src/pages/navigation.tsx:24 | flipping a boolean flag twice restores the item |
| Navigation.ToggleTwice | src/pages/navigation.tsx:21-27 | toggling the same id twice restores the list, when every matched flag is a boolean |
| Navigation.ToggleAbsent | src/pages/navigation.tsx:21-27 | toggling an id no item carries changes nothing |
| Navigation.UpdateRequests | src/pages/navigation.tsx:29-45 | one PUT per item, in list order, addressed to the item's `_id`, whose body has the single key `isActive` holding the item's flag |
| Navigation.NavigationSettings.constructor | src/pages/navigation.tsx:4 | the list starts empty |
| Navigation.NavigationSettings.Load | src/pages/navigation.tsx:8-16 | a parsed list replaces the items; a failed fetch leaves them |
| Navigation.NavigationSettings.HandleCheckboxChange | src/pages/navigation.tsx:21-27 | the items become their toggle by that id |
| Navigation.NavigationSettings.HandleUpdate | src/pages/navigation.tsx:29-45 | the requests sent are the per-item requests of the current list, and the list does not change |
| Auth.UseAuth | src/AuthContext.tsx:67-73 | fails with the provider-missing message exactly when no provider value is present, and otherwise returns that value |
| Auth.AuthProvider.constructor | src/AuthContext.tsx:16-18 | starts unauthenticated, loading and with no user |
| Auth.AuthProvider.CheckAuth | src/AuthContext.tsx:21-43 | a non-empty token cookie marks the session authenticated with no server check, the user is untouched, and loading always ends |
| Auth.AuthProvider.Login | src/AuthContext.tsx:48-52 | stores the token, marks the session authenticated and stores the user |
| Auth.AuthProvider.Logout | src/AuthContext.tsx:54-58 | removes the token, clears authentication and the user, whatever the state before |
| Auth.Restore | src/AuthContext.tsx:16-46 | after mounting, the session is authenticated exactly when a non-empty token cookie exists, with no user and loading over |
| EventPriceList.InitialDraft | src/pages/Event/listEventPrice.tsx:11-20 | the draft has the eight form keys, empty text, no offerings and an inactive flag |
| EventPriceList.EditDraft | src/pages/Event/listEventPrice.tsx:48-61 | the draft copies seven row fields, and `event` is the id of the row's event, or '' without one |
| EventPriceList.CoerceKinds | src/pages/Event/listEventPrice.tsx:100-108 | a change stores a boolean or text and nothing else; `isActive` never receives text and its radios store `value === 'true'`; text is stored exactly for a non-checkbox input with another name |
| EventPriceList.UpdatePayload | src/pages/Event/listEventPrice.tsx:142-146 | the PUT body holds every draft field, adds `eventMasterItem` holding the draft's `event`, and adds no other key than it and `isActive` |
| EventPriceList.EventPriceScreen.constructor | src/pages/Event/listEventPrice.tsx:7-21 | closed modal, no selection, no rows, no selectable events, not loading, initial draft |
| EventPriceList.EventPriceScreen.FetchPrices | src/pages/Event/listEventPrice.tsx:24-32 | a parsed list replaces the rows; a failed fetch leaves them |
| EventPriceList.EventPriceScreen.FetchEvents | src/pages/Event/listEventPrice.tsx:38-46 | a parsed list replaces the edit form's selectable events; a failed fetch leaves them, and nothing else changes |
| EventPriceList.EventPriceScreen.HandleEdit | src/pages/Event/listEventPrice.tsx:48-61 | selects the row, fills the draft from it and opens the modal |
| EventPriceList.EventPriceScreen.CloseModal | src/pages/Event/listEventPrice.tsx:63-76 | closes the modal, clears the selection and resets the draft |
| EventPriceList.EventPriceScreen.HandleDelete | src/pages/Event/listEventPrice.tsx:78-98 | the DELETE for the id is sent exactly when the confirm dialog is accepted; a confirmed delete with an ok response drops the rows with that id; any confirmed delete ends with loading off; an unconfirmed one changes nothing |
| EventPriceList.EventPriceScreen.HandleChange | src/pages/Event/listEventPrice.tsx:100-108 | only the named key changes, to the checkbox state, the radio's boolean or the text |
| EventPriceList.EventPriceScreen.HandleOfferingChange | src/pages/Event/listEventPrice.tsx:110-117 | only the description of the offering at the index changes |
| EventPriceList.EventPriceScreen.AddOffering | src/pages/Event/listEventPrice.tsx:119-124 | appends one empty offering and changes nothing else |
| EventPriceList.EventPriceScreen.RemoveOffering | src/pages/Event/listEventPrice.tsx:126-131 | removes the offering at the index and changes nothing else |
| EventPriceList.EventPriceScreen.HandleSubmit | src/pages/Event/listEventPrice.tsx:133-167 | with a selection, sends the update payload to the selected row's `_id`; an ok response replaces the row with the returned one and closes and resets the modal; otherwise nothing else changes; loading ends off |
| EventPriceAdd.InitialDraft | src/pages/Event/addEventPrice.tsx:6-14 | the draft has its seven keys, all empty text |
| EventPriceAdd.ResetDraft | src/pages/Event/addEventPrice.tsx:94-101 | the reset draft has six keys, all empty text, and no `slots` key at all |
| EventPriceAdd.PayloadFields | src/pages/Event/addEventPrice.tsx:71-80 | the create body maps `event` to `eventMasterItem`, copies five fields, sends each offering as just its description in the same order, and sends `isActive` as true only for the text 'true' |
| EventPriceAdd.PayloadAfterReset | src/pages/Event/addEventPrice.tsx:78-101 | after a successful create the next body sends no `slots` and an inactive plan |
| EventPriceAdd.AddEventPriceScreen.constructor | src/pages/Event/addEventPrice.tsx:6-18 | initial draft, not loading, no events, one empty offering |
| EventPriceAdd.AddEventPriceScreen.FetchEvents | src/pages/Event/addEventPrice.tsx:25-37 | a parsed body replaces the events, and loading ends off either way |
| EventPriceAdd.AddEventPriceScreen.HandleChange | src/pages/Event/addEventPrice.tsx:40-46 | only the named key changes, to the raw text |
| EventPriceAdd.AddEventPriceScreen.HandleOfferingChange | src/pages/Event/addEventPrice.tsx:50-56 | the offerings become their edit at the index |
| EventPriceAdd.AddEventPriceScreen.AddOffering | src/pages/Event/addEventPrice.tsx:58-60 | appends one empty offering |
| EventPriceAdd.AddEventPriceScreen.RemoveOffering | src/pages/Event/addEventPrice.tsx:62-65 | the offerings lose the one at the index |
| EventPriceAdd.AddEventPriceScreen.HandleSubmit | src/pages/Event/addEventPrice.tsx:67-112 | sends the payload; a created plan resets the draft and the offerings, a rejected one keeps both; loading stays on unless an exception is thrown |
| EventVenueAdd.InitialDraft | src/pages/Event/addEventVenue.tsx:6-14 | the draft has its seven keys, empty text and no image |
| EventVenueAdd.EmptyOffering | src/pages/Event/addEventVenue.tsx:17 | an offering with empty start date, end date and price |
| EventVenueAdd.BuildBody | src/pages/Event/addEventVenue.tsx:61-69 | the loop appends one entry per draft key in key order, the image under `img`, then the offerings |
| EventVenueAdd.BodyIsLiteral | src/pages/Event/addEventVenue.tsx:61-69 | for a draft of the form's shape the body is the fixed list of wire names with the draft's values, then the offerings JSON |
| EventVenueAdd.BodyForDraft | src/pages/Event/addEventVenue.tsx:61-69 | the server reads every draft field back under its wire name, the image as `img`, and the offerings last |
| EventVenueAdd.BodyOmitsImage | src/pages/Event/addEventVenue.tsx:12 | such a body has no `image` key and no camel-case `isActive` key, only the lowercase `isactive` |
| EventVenueAdd.AddEventVenueScreen.constructor | src/pages/Event/addEventVenue.tsx:6-17 | initial draft, not loading, no events, one empty offering |
| EventVenueAdd.AddEventVenueScreen.FetchEvents | src/pages/Event/addEventVenue.tsx:23-31 | a parsed body replaces the events and nothing else changes |
| EventVenueAdd.AddEventVenueScreen.HandleChange | src/pages/Event/addEventVenue.tsx:33-39 | only the named key changes, to the first file for a file input and the text otherwise |
| EventVenueAdd.AddEventVenueScreen.HandleOfferingChange | src/pages/Event/addEventVenue.tsx:41-47 | the offerings become their edit at the index |
| EventVenueAdd.AddEventVenueScreen.AddOffering | src/pages/Event/addEventVenue.tsx:49-51 | appends one empty offering |
| EventVenueAdd.AddEventVenueScreen.RemoveOffering | src/pages/Event/addEventVenue.tsx:53-55 | the offerings lose the one at the index |
| EventVenueAdd.AddEventVenueScreen.HandleSubmit | src/pages/Event/addEventVenue.tsx:57-100 | sends the walked body; an ok response resets the draft and the offerings, a failure keeps both; loading ends off |
| EventVenueList.InitialDraft | src/pages/Event/ListEventVenue.tsx:14-21 | the draft has its six keys, empty text and an unchecked flag |
| EventVenueList.EditDraftFields | src/pages/Event/ListEventVenue.tsx:101-110 | building the draft throws exactly when the row has a truthy date the host cannot convert; otherwise each field is the row's value when truthy and its default otherwise: the event's id, the text fields, the date part of the timestamp, the flag or false |
| EventVenueList.EditDraftNoMaster | src/pages/Event/ListEventVenue.tsx:104 | a row without an event object edits with an empty event id |
| EventVenueList.BuildBody | src/pages/Event/ListEventVenue.tsx:39-50 | the six appends, then the file the image input holds, if any |
| EventVenueList.BodyFields | src/pages/Event/ListEventVenue.tsx:39-50 | every draft field is sent under its own name, and an `image` entry is sent exactly when a file is chosen |
| EventVenueList.BodyIsDraft | src/pages/Event/ListEventVenue.tsx:39-45 | with no file chosen, the body of a draft of the form's shape is that draft, entry for entry |
| EventVenueList.VenueListScreen.constructor | src/pages/Event/ListEventVenue.tsx:7-21 | closed modal, no selection, no rows, no preview, not loading, initial draft |
| EventVenueList.VenueListScreen.FetchEvents | src/pages/Event/ListEventVenue.tsx:76-84 | a parsed list replaces the venues; a failed fetch leaves them |
| EventVenueList.VenueListScreen.FetchEventList | src/pages/Event/ListEventVenue.tsx:86-94 | a parsed body replaces the selector's events |
| EventVenueList.VenueListScreen.HandleChange | src/pages/Event/ListEventVenue.tsx:23-33 | only the named key changes, to the checkbox state or the text; a chosen file also becomes the preview |
| EventVenueList.VenueListScreen.HandleEdit | src/pages/Event/ListEventVenue.tsx:101-113 | selects the row; when the draft can be built it fills the draft, previews the row's `img` and opens the modal, and when the date conversion throws nothing else changes |
| EventVenueList.VenueListScreen.CloseModal | src/pages/Event/ListEventVenue.tsx:115-119 | closes the modal and clears the selection and the preview; the draft stays |
| EventVenueList.VenueListScreen.HandleDelete | src/pages/Event/ListEventVenue.tsx:121-137 | with no confirmation the DELETE for the id is always sent, and an ok response drops the rows with that id |
| EventVenueList.VenueListScreen.HandleSubmit | src/pages/Event/ListEventVenue.tsx:35-72 | the body is built first; it is sent, to the selected row's `_id`, only with a selection; an ok response closes the modal and reloads; loading ends off |
| EventList.DateInput | src/pages/Event/eventList.tsx:206 | a text value shows as its prefix before the first 'T'; a value that is not text cannot be shown |
| EventList.DateInputShowsDate | src/pages/Event/eventList.tsx:206-216 | a stored ISO timestamp shows as its date, and a date written back by the input shows unchanged |
| EventList.Edited | src/pages/Event/eventList.tsx:90-93 | the named key takes the input's text and every other key keeps its value; with no copy to edit, the edited copy starts empty |
| EventList.EventListScreen.constructor | src/pages/Event/eventList.tsx:7-11 | closed modal, no selection, no rows, not loading, no copy |
| EventList.EventListScreen.FetchEvents | src/pages/Event/eventList.tsx:17-26 | a parsed body replaces the rows; a failed fetch leaves them |
| EventList.EventListScreen.HandleEdit | src/pages/Event/eventList.tsx:28-32 | selects the row, edits a copy of it and opens the modal |
| EventList.EventListScreen.CloseModal | src/pages/Event/eventList.tsx:84-88 | closes the modal and clears both the selection and the copy |
| EventList.EventListScreen.HandleInputChange | src/pages/Event/eventList.tsx:90-93 | the copy becomes its edit by the input |
| EventList.EventListScreen.HandleDelete | src/pages/Event/eventList.tsx:34-56 | the DELETE for the id is sent; only an ok response reloads the list, and the awaited reload's result replaces the rows; loading ends off |
| EventList.EventListScreen.HandleUpdate | src/pages/Event/eventList.tsx:58-82 | the copy is what is sent, to the copy's own `_id`; an ok response with a copy reloads and closes the modal, anything else keeps the modal and the copy; loading ends off |
| EventAdd.InitialDraft | src/pages/Event/addEvent.tsx:6-13 | the draft has its six keys, empty text and no image |
| EventAdd.BuildBody | src/pages/Event/addEvent.tsx:35-41 | the six appends are the draft's fields in fixed order under their own names |
| EventAdd.BodyFields | src/pages/Event/addEvent.tsx:35-41 | the body has exactly the six keys in that order with the draft's values, and for a draft of the form's shape it is the draft itself |
| EventAdd.AddEventScreen.constructor | src/pages/Event/addEvent.tsx:6-14 | initial draft, not loading |
| EventAdd.AddEventScreen.HandleChange | src/pages/Event/addEvent.tsx:16-29 | only the named key changes, to the first file for a file input and the text otherwise |
| EventAdd.AddEventScreen.HandleSubmit | src/pages/Event/addEvent.tsx:31-73 | sends the six-entry body; an ok response resets the draft, anything else keeps it; loading ends off |
| SpeakerView.TransformFields | src/components/Speaker/viewSpeaker.tsx:25-41 | a row has the fixed keys, each copied field from its backend name, `isActive` as the truthiness of the record's flag, `image` from `img`, the display date and the raw timestamp |
| SpeakerView.TransformRenames | src/components/Speaker/viewSpeaker.tsx:26-38 | `_id` is read as `id`, `TwitterLink` as `twitterLink`, `LinkedinLink` as `linkedinLink` and `img` as `image` |
| SpeakerView.BuildBody | src/components/Speaker/viewSpeaker.tsx:92-98 | the walk appends exactly one entry per draft key, in key order, with the draft's value |
| SpeakerView.RowSentAsIs | src/components/Speaker/viewSpeaker.tsx:51-53 | a draft opened from a row is sent as that row, entry for entry |
| SpeakerView.SpeakerListScreen.constructor | src/components/Speaker/viewSpeaker.tsx:10-15 | no rows, closed modal, no selection, empty draft, no preview, not loading |
| SpeakerView.SpeakerListScreen.FetchSpeakers | src/components/Speaker/viewSpeaker.tsx:22-46 | a parsed list of records replaces the rows with their transforms, in count and order |
| SpeakerView.SpeakerListScreen.HandleEdit | src/components/Speaker/viewSpeaker.tsx:51-56 | the draft is the row itself, the preview its image, and the modal opens |
| SpeakerView.SpeakerListScreen.CloseModal | src/components/Speaker/viewSpeaker.tsx:59-62 | closes the modal and clears the preview; the selection and the draft stay |
| SpeakerView.SpeakerListScreen.HandleInputChange | src/components/Speaker/viewSpeaker.tsx:65-71 | only the named key changes, to the text |
| SpeakerView.SpeakerListScreen.HandleImageChange | src/components/Speaker/viewSpeaker.tsx:75-84 | a chosen file becomes the image and the preview; with no file nothing changes |
| SpeakerView.SpeakerListScreen.SetActive | src/components/Speaker/viewSpeaker.tsx:387-398 | each radio sets `isActive` to its own boolean and changes nothing else |
| SpeakerView.SpeakerListScreen.HandleUpdate | src/components/Speaker/viewSpeaker.tsx:86-115 | sends the walked body to the draft's `id`; a resolved request reloads and closes the modal; loading ends off |
| SpeakerView.SpeakerListScreen.HandleDelete | src/components/Speaker/viewSpeaker.tsx:151-163 | the DELETE for the speaker's id is sent exactly when the confirm dialog is accepted, and only a resolved request reloads the list |
| SpeakerAdd.InitialDraft | src/pages/Speaker/addSpeaker.tsx:8-21 | the draft has its twelve keys, empty text and no image |
| SpeakerAdd.ActiveFlag | src/pages/Speaker/addSpeaker.tsx:64 | the flag sent is 'true' exactly when the draft holds 'active', and 'false' for anything else |
| SpeakerAdd.InitialFlagIsFalse | src/pages/Speaker/addSpeaker.tsx:20 | the untouched form sends 'false' |
| SpeakerAdd.BodyFields | src/pages/Speaker/addSpeaker.tsx:53-64 | the body has the twelve wire names in fixed order, each draft field under its renamed key, and the converted flag |
| SpeakerAdd.BuildBody | src/pages/Speaker/addSpeaker.tsx:52-64 | the twelve appends are that body |
| SpeakerAdd.AddSpeakerScreen.constructor | src/pages/Speaker/addSpeaker.tsx:8-22 | initial draft, not loading |
| SpeakerAdd.AddSpeakerScreen.HandleChange | src/pages/Speaker/addSpeaker.tsx:24-37 | only the named key changes, to the first file for a file input and the text otherwise |
| SpeakerAdd.AddSpeakerScreen.HandleBioChange | src/pages/Speaker/addSpeaker.tsx:39-44 | only `bio` changes |
| SpeakerAdd.AddSpeakerScreen.ResetForm | src/pages/Speaker/addSpeaker.tsx:89-104 | restores exactly the initial draft |
| SpeakerAdd.AddSpeakerScreen.HandleSubmit | src/pages/Speaker/addSpeaker.tsx:47-88 | sends the body; an ok response resets the form, a non-ok one keeps it; loading ends off |
| SponsorAdd.InitialDraft | src/pages/Sponser/addSponser.tsx:7-14 | the draft has its five keys, empty text and no image |
| SponsorAdd.BuildBody | src/pages/Sponser/addSponser.tsx:36-42 | the five appends are the draft's fields under their own names |
| SponsorAdd.BodyFields | src/pages/Sponser/addSponser.tsx:36-42 | the body has exactly title, link, image, category and isActive with the draft's values, and the `publishedAt` the date input writes is never sent |
| SponsorAdd.AddSponsorScreen.constructor | src/pages/Sponser/addSponser.tsx:7-15 | initial draft, not loading |
| SponsorAdd.AddSponsorScreen.HandleChange | src/pages/Sponser/addSponser.tsx:16-29 | only the named key changes, to the first file for a file input and the text otherwise |
| SponsorAdd.AddSponsorScreen.HandleSubmit | src/pages/Sponser/addSponser.tsx:31-71 | sends the body; success is reported exactly when the response parses, whatever its status; the draft is never reset; loading ends off |
| SponsorView.InitialDraft | src/pages/Sponser/viewSponser.tsx:12-18 | the draft has its five keys, empty text and no image |
| SponsorView.ToText | src/pages/Sponser/viewSponser.tsx:41 | `toString()` spells a boolean flag as 'true' or 'false' and keeps a text flag |
| SponsorView.EditDraftFields | src/pages/Sponser/viewSponser.tsx:34-44 | the draft copies title, link and category, has no image, and holds the flag as text, 'true' or 'false' for a boolean row |
| SponsorView.BuildBody | src/pages/Sponser/viewSponser.tsx:59-66 | the walk appends, in key order, the entries the filter keeps |
| SponsorView.KeptMembers | src/pages/Sponser/viewSponser.tsx:60-66 | an entry is in the body exactly when its key was walked, its value is the draft's, and it is not an `image` entry with a falsy value |
| SponsorView.ImageSentIffChosen | src/pages/Sponser/viewSponser.tsx:60-66 | every non-image key is sent, and the image is sent exactly when it is present and truthy |
| SponsorView.SponsorListScreen.constructor | src/pages/Sponser/viewSponser.tsx:8-18 | no rows, closed modal, not loading, no selection, initial draft |
| SponsorView.SponsorListScreen.FetchSponsors | src/pages/Sponser/viewSponser.tsx:24-32 | a parsed list replaces the rows; a failed fetch leaves them |
| SponsorView.SponsorListScreen.HandleEdit | src/pages/Sponser/viewSponser.tsx:34-44 | selects the row; with a flag that has `toString` it fills the draft and opens the modal, without one it throws and changes nothing else |
| SponsorView.SponsorListScreen.HandleChange | src/pages/Sponser/viewSponser.tsx:46-52 | only the named key changes, to the first file for a file input and the text otherwise |
| SponsorView.SponsorListScreen.CloseModal | src/pages/Sponser/viewSponser.tsx:94-97 | closes the modal and clears the selection |
| SponsorView.SponsorListScreen.HandleSubmit | src/pages/Sponser/viewSponser.tsx:54-79 | without a selection nothing is sent and loading stays on; otherwise the filtered body is sent to the selected row's `_id`, a resolved request closes the modal and reloads, and loading ends off |
| SponsorView.SponsorListScreen.HandleDelete | src/pages/Sponser/viewSponser.tsx:81-92 | the DELETE for the sponsor's id is sent exactly when the confirm dialog is accepted, and only a resolved request reloads the list |
| GalleryView.InitialDraft | src/pages/gallery/viewGalery.tsx:11-15 | no image, an empty category and an unchecked flag |
| GalleryView.EditDraft | src/pages/gallery/viewGalery.tsx:40-48 | the draft has no image and the row's category and flag as they are |
| GalleryView.BuildBody | src/pages/gallery/viewGalery.tsx:55-60 | the appends are the image when truthy, then the category and the flag |
| GalleryView.BodyFields | src/pages/gallery/viewGalery.tsx:55-60 | the category and the flag are always sent, and an `image` entry exactly when the image is truthy |
| GalleryView.EditWithoutImage | src/pages/gallery/viewGalery.tsx:40-60 | an edit that changes no image sends only the category and the flag |
| GalleryView.GalleryListScreen.constructor | src/pages/gallery/viewGalery.tsx:8-16 | closed modal, no selection, empty list, initial draft, not loading |
| GalleryView.GalleryListScreen.FetchGallery | src/pages/gallery/viewGalery.tsx:22-30 | a parsed body replaces the list; a failed fetch leaves it |
| GalleryView.GalleryListScreen.HandleChange | src/pages/gallery/viewGalery.tsx:32-38 | only the named key changes: the first file for a file input, the checked state for a checkbox, the text otherwise |
| GalleryView.GalleryListScreen.HandleEdit | src/pages/gallery/viewGalery.tsx:40-48 | selects the row, fills the draft from it and opens the modal |
| GalleryView.GalleryListScreen.CloseModal | src/pages/gallery/viewGalery.tsx:92-95 | closes the modal and clears the selection |
| GalleryView.GalleryListScreen.HandleSubmit | src/pages/gallery/viewGalery.tsx:50-77 | without a selection nothing happens, not even loading; otherwise the body is sent to the selected row's `_id`, a resolved request reloads and closes the modal, and loading ends off |
| GalleryView.GalleryListScreen.HandleDelete | src/pages/gallery/viewGalery.tsx:79-90 | the DELETE for the item's id is sent exactly when the confirm dialog is accepted, and only a resolved request reloads the list |
| GalleryAdd.InitialDraft | src/pages/gallery/addGalery.tsx:7-12 | no image, empty date and category, and an unchecked flag |
| GalleryAdd.BuildBody | src/pages/gallery/addGalery.tsx:42-46 | the four appends are the draft's fields under their own names |
| GalleryAdd.BodyFields | src/pages/gallery/addGalery.tsx:42-46 | the body has exactly the four keys in fixed order with the draft's values, and for a draft of the form's shape it is the draft |
| GalleryAdd.AddGalleryScreen.constructor | src/pages/gallery/addGalery.tsx:7-13 | initial draft, not loading |
| GalleryAdd.AddGalleryScreen.HandleChange | src/pages/gallery/addGalery.tsx:16-34 | only the named key changes: the first file for a file input, the checked state for a checkbox, the text otherwise |
| GalleryAdd.AddGalleryScreen.HandleSubmit | src/pages/gallery/addGalery.tsx:37-74 | sends the body; an ok response resets the draft to its initial value, a non-ok one keeps it; loading ends off |
| ContentPage.UpdateBody | src/pages/home.tsx:44 | the JSON body has the single key `home` (or `agenda`) holding the text |
| ContentPage.ContentScreen.constructor | src/pages/home.tsx:6-9 | empty text, no record, not loading, closed modal |
| ContentPage.ContentScreen.Fetch | src/pages/home.tsx:15-33 | a non-empty list selects its first element and loads its `home` (or `agenda`) field; an empty or failed fetch leaves both unset; loading ends off |
| ContentPage.ContentScreen.HandleChange | src/pages/home.tsx:11-13 | only the text changes |
| ContentPage.ContentScreen.OpenModal | src/pages/home.tsx:63-65 | opens the modal and changes nothing else |
| ContentPage.ContentScreen.CloseModal | src/pages/home.tsx:67-69 | closes the modal and changes nothing else |
| ContentPage.ContentScreen.HandleUpdate | src/pages/agenda.tsx:35-61 | with a record, sends the one-key body to its `_id`, so an enabled submit button always sends; only an ok response reloads; without a record nothing is sent; loading ends off |
| About.BuildBody | src/pages/about.tsx:47-51 | the appends are that body |
| About.BodyFields | src/pages/about.tsx:47-51 | `about` is always sent; `image` exactly when the draft's is truthy, including the path remembered from the loaded record |
| About.AboutScreen.constructor | src/pages/about.tsx:6-10 | empty text, no image, no record, not loading, both modals closed |
| About.AboutScreen.Fetch | src/pages/about.tsx:23-42 | only a set `success` flag with a non-empty list selects the first record, whose `about` and `image` become the draft; loading ends off |
| About.AboutScreen.HandleChange | src/pages/about.tsx:12-14 | only the text changes |
| About.AboutScreen.HandleImageChange | src/pages/about.tsx:16-21 | only the image changes, and only when a file was chosen |
| About.AboutScreen.SetModalOpen | src/pages/about.tsx:75-81 | opens or closes the text modal and changes nothing else |
| About.AboutScreen.SetImageModalOpen | src/pages/about.tsx:83-89 | opens or closes the image modal and changes nothing else |
| About.AboutScreen.HandleUpdate | src/pages/about.tsx:44-73 | with a record, sends the body to its `_id`, so an enabled submit button always sends; only an ok response reloads; loading ends off |

## Left out

- HTTP: every request is left out. Response statuses, parsed bodies and failures are parameters. A handler that addresses a row returns the id its URL ends in (`target`, or `sent` for a delete). A create request goes to a fixed collection URL, which is not modelled.
- A JSON body is modelled as the object handed to `JSON.stringify`, not as the text it produces. Stringify drops keys whose value is `undefined`, so `{isActive: undefined}` in navigation or `{home: undefined}` for a record without `home` goes out as `{}`; the model does not say which keys survive in the text.
- Rendering, toasts, `alert`, console logging and the CSS classes are left out. They change no state the handlers read.
- The submit buttons' `disabled` attribute is modelled as `SubmitEnabled` on the home, agenda and about pages. On the other screens the handlers are modelled as callable at any time.
- Host-computed text is not reproduced. It is a `HostString` naming the operation and its argument: `JSON.stringify`, `toLocaleDateString`, `URL.createObjectURL`, and `toString` of non-boolean, non-text values. The `toISOString` text in ListEventVenue's handleEdit is an optional string parameter, absent when the date is invalid and the call throws a RangeError.
- FormData turns appended values to text. The model keeps the appended value itself.
- The `Promise.all` in navigation's handleUpdate runs its requests concurrently. The model gives only the list of requests.
- The reloads that are not awaited (`fetchSpeakers()`, `fetchHomeData()`, …) are a `refetch` result. What they load is a separate `Fetch…` call.
- `dataURLtoBlob` in viewSpeaker is never called and is left out.
- The page that registers for events, the query page, the sign-in page, the router and the build configuration are not part of this model.
- JSON values from the backend are taken to be objects and lists of objects. A response of any other shape (for example `data.length` on a non-list) is not modelled.
- `Object`s are association lists. A spread update keeps distinct keys distinct (`Js.SetDistinct`), but an object with a repeated key is not ruled out by its type.
- EventPriceList.EventPriceScreen.HandleOfferingChange: requires an offerings array and an index into it, which are what the rendered list supplies; a row without an `offerings` array, which makes the spread throw, is not modelled.
- EventPriceList.EventPriceScreen.AddOffering: requires an offerings array, which is what the rendered list supplies.
- EventPriceList.EventPriceScreen.RemoveOffering: requires an offerings array, which is what the rendered list supplies.
- EventPriceList.UpdatePayload: states each key's value and which keys exist, but not the key order of the JSON text.
- The offering handlers of addEventVenue are not connected to any input in its markup. They are modelled as written, and the modelled screen starts from one empty offering that is still sent.
- Js.Fields: the properties copied from a non-object value (a string's characters, say) are taken to be none.
