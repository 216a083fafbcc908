# Imperial Estates listing console: a Dafny model of its core

The console lets an operator browse, create, edit and delete real-estate
listings. This project models four parts of it:

- **The listing synchronisation service** (`services/propertyservices.ts`),
  as the class `PropertyService.ListingStore`. It keeps a cache of listings in
  memory (`localProperties`) and mirrors it into one persisted key
  (`imperial_estates_db`).
  - A read asks the remote system of record for the collection. A usable
    reply overwrites the cache and the key. Any other reply leaves both as
    they were.
  - Create, update and delete change the cache and persist it, then post to
    the remote. They report success whatever the remote does.
  - The remote's answer, the success or failure of the storage write, and
    what the key held at start-up are all inputs.
  - The field `effects` records, in order, every write to the key and every
    request sent. The contracts can therefore state that the local write
    comes before the remote call.
- **The inventory screen** (`Components/PropertyManager.tsx`), as the class
  `PropertyManager.Inventory`. It holds the React state that the handlers
  change, the search and type filter, and the id offered to a new listing.
  The screen imports `../services/propertyService`; this model takes that
  module to be `services/propertyservices.ts`.
- **The listing form** (`Components/PropertyForm.tsx`), as the class
  `PropertyForm.ListingForm`. It holds the edited fields, the five
  image-address inputs, the rule that chooses the id, and the listing it
  submits.
- **The details view** (`Components/PropertyDetails.tsx`). It parses the
  comma-separated feature list, chooses the banner image and lays out the
  gallery.

Helper modules:

- `Seqs` models JavaScript's `filter` and `map`, and the relation "is an
  order-preserving selection of".
- `Text` models the JavaScript string built-ins the code uses: `trim`,
  `toLowerCase`, `includes`, and `split` on one character with its inverse,
  `join`.
- `Types` holds the listing record. The source's field `type` is called
  `kind` here, because `type` is a Dafny keyword.

Two behaviours of the code that the model keeps as written:

- When a read fails, the service returns the in-memory cache
  (`services/propertyservices.ts:82`). It does not read the persisted key
  again; the key is read only once, at start-up (`:30`).
- Update replaces every listing with a matching id (`:107` uses `map`), not
  only the first.

The lemmas also record behaviour of the code as written:

- Create makes no duplicate check. `PropertyService.CreateTakenIdDuplicates`
  shows that two listings can end up with one id.
- The offered id depends only on the number of listings on screen.
  `PropertyManager.NextIdCanBeTaken` shows that after a delete, the next
  offered id can belong to a listing that is still there.

## Model

| member | source | states |
|---|---|---|
| `PropertyService.LoadStored` | services/propertyservices.ts:8-16 | reading the key gives a collection only for text that parses; a missing, empty or corrupt entry gives nothing, never an error |
| `PropertyService.AfterSave` | services/propertyservices.ts:18-24 | after a write that succeeds, reading the key gives back exactly the written collection; a write that throws leaves what a read gives unchanged |
| `PropertyService.Fetched` | services/propertyservices.ts:58-70 | a reply is usable exactly when it is OK and its body is an array, or an object with an array under `properties`; the collection is that array, and an empty array counts |
| `PropertyService.Replaced` | services/propertyservices.ts:107 | same length; `p` at every index whose id is `p.id`; every other index unchanged; ids stay where they were |
| `PropertyService.Removed` | services/propertyservices.ts:126 | no listing with the id is left; every other listing is kept, as many times as it occurs, and the kept ones stay in their original order |
| `PropertyService.UpdateWithoutMatch` | services/propertyservices.ts:107 | an update whose id is absent leaves the collection unchanged (no insert) |
| `PropertyService.UpdateIdempotent` | services/propertyservices.ts:107 | updating twice with the same listing equals updating once |
| `PropertyService.UpdateKeepsUniqueIds` | services/propertyservices.ts:107 | update keeps unique ids unique |
| `PropertyService.DeleteIdempotent` | services/propertyservices.ts:126 | deleting an id twice equals deleting it once |
| `PropertyService.DeleteWithoutMatch` | services/propertyservices.ts:126 | deleting an absent id leaves the collection unchanged |
| `PropertyService.DeleteKeepsUniqueIds` | services/propertyservices.ts:126 | delete keeps unique ids unique |
| `PropertyService.CreateFreshKeepsUniqueIds` | services/propertyservices.ts:87 | appending a listing whose id is new keeps ids unique |
| `PropertyService.CreateTakenIdDuplicates` | services/propertyservices.ts:87 | appending a listing whose id is present always leaves a duplicate id (no check is made) |
| `PropertyService.ListingStore.constructor` | services/propertyservices.ts:30 | the cache starts as the stored collection if one loads and empty otherwise; it mirrors the key when the key held a collection |
| `PropertyService.ListingStore.SaveStored` | services/propertyservices.ts:18-24 | writes the whole cache to the key, or leaves the key as it was when the write throws; the cache is unchanged |
| `PropertyService.ListingStore.FetchAll` | services/propertyservices.ts:53-83 | a usable reply becomes the cache and is persisted, with no merge; any other reply, including a thrown request or timeout, changes neither cache nor key; the result is the cache |
| `PropertyService.ListingStore.Create` | services/propertyservices.ts:85-103 | cache becomes old cache + [p]; the key is written before the post is sent; the result is true for every remote outcome |
| `PropertyService.ListingStore.Update` | services/propertyservices.ts:105-122 | cache becomes `Replaced(old cache, p)`; persisted before the post; the result is true for every remote outcome |
| `PropertyService.ListingStore.Delete` | services/propertyservices.ts:124-141 | cache becomes `Removed(old cache, id)`; persisted before the post of the id; the result is true for every remote outcome |
| `PropertyService.OfflineReadServesStored` | services/propertyservices.ts:77-82 | with a stored collection and a failed read, the read returns exactly the stored collection |
| `PropertyService.ReadsAreAuthoritative` | services/propertyservices.ts:64-74 | two reads that get A and then B return A and then B, and leave exactly B persisted |
| `PropertyService.OfflineCreateIsKept` | services/propertyservices.ts:85-103 | a create whose remote call throws reports success, and the listing is in the cache and in the persisted key |
| `PropertyManager.Filtered` | Components/PropertyManager.tsx:98-105 | order-preserving selection; a listing is kept iff its type matches (or the filter is 'all') and its lower-cased title, location or id includes the lower-cased query; a kept listing appears as many times as in the input, a dropped one not at all |
| `PropertyManager.ClearedFiltersShowAll` | Components/PropertyManager.tsx:99-104 | with 'all' and an empty query every listing is kept, in order |
| `PropertyManager.PadStart` | Components/PropertyManager.tsx:107 | pads on the left to the width with the fill character and never truncates |
| `PropertyManager.Decimal` | Components/PropertyManager.tsx:107 | `String(n)`: decimal digits only, at least as many as the magnitude needs, and no leading zero for a positive number |
| `PropertyManager.DecimalRoundTrip` | Components/PropertyManager.tsx:107 | the digits read back as the number they were made from |
| `PropertyManager.PaddedDecimal` | Components/PropertyManager.tsx:107 | `padStart(3, '0')` of the digits of n, for n ≥ 10 (the only numbers the code pads): three digits below 100, otherwise exactly the digits, and they still denote the number |
| `PropertyManager.NextIdDenotes` | Components/PropertyManager.tsx:107 | the offered id is "PROP" followed by digits that denote count + 10: length 4 + max(3, digit count), and no leading zero from 100 on |
| `PropertyManager.NextIdInjective` | Components/PropertyManager.tsx:107 | different counts give different offered ids |
| `PropertyManager.NextIdCanBeTaken` | Components/PropertyManager.tsx:107 | after PROP010 is deleted from [PROP010, PROP011], the offered id is PROP011, which is still in use |
| `PropertyManager.Inventory.constructor` | Components/PropertyManager.tsx:15-26 | the initial screen state: no listings, loading, empty query, type 'all', no form, details view or confirmation open |
| `PropertyManager.Inventory.LoadProperties` | Components/PropertyManager.tsx:32-37 | the screen shows what the service's read returns, and loading ends |
| `PropertyManager.Inventory.ClearFilters` | Components/PropertyManager.tsx:205 | resets query and type, after which every listing is visible |
| `PropertyManager.Inventory.RequestDelete` | Components/PropertyManager.tsx:65-68 | records the id awaiting confirmation, except in read-only mode, where nothing changes |
| `PropertyManager.Inventory.ExecuteDelete` | Components/PropertyManager.tsx:70-83 | with a non-empty pending id on an editable screen: removes its listings from the screen and the service, closes a details view of that id, and clears the confirmation; otherwise no state changes |
| `PropertyManager.Inventory.OpenAddForm` | Components/PropertyManager.tsx:85-89 | opens an empty form, except in read-only mode, where nothing changes |
| `PropertyManager.Inventory.OpenEditForm` | Components/PropertyManager.tsx:91-96 | opens the form on the listing and closes the details view, except in read-only mode, where nothing changes |
| `PropertyManager.Inventory.HandleCreateOrUpdate` | Components/PropertyManager.tsx:39-63 | sends an update when a listing is being edited and a create otherwise, then reloads; the cache ends as the reload's collection, or as the written one when the reload fails; the key holds the written collection and then, after a usable reload, the reloaded one (each subject to its write succeeding); the full effect sequence is persist, send the change, send the read, and persist again only after a usable reload; the form closes and a details view of the same id shows the saved listing |
| `PropertyForm.Set` | Components/PropertyForm.tsx:64-66 | the changed field holds the new value and every other field holds its old value |
| `PropertyForm.FromProperty` | Components/PropertyForm.tsx:39 | the form data carries the listing's id and images, and submitting it under that id gives the listing back with the submitted images |
| `PropertyForm.InitialFormData` | Components/PropertyForm.tsx:14-29 | without a listing, the blank form dated today; with one, its id, its images or an empty list when it has none, and every other field taken from it, so that submitting gives the listing back with the submitted images |
| `PropertyForm.InitialId` | Components/PropertyForm.tsx:34 | the edited listing's id if non-empty, else the offered id if non-empty, else the empty string |
| `PropertyForm.ValidImages` | Components/PropertyForm.tsx:60 | the inputs whose trimmed text is non-empty, untrimmed and in input order; each such input appears as many times as it was typed, a blank one not at all |
| `PropertyForm.PopulateSlots` | Components/PropertyForm.tsx:43-48 | exactly five inputs; input i holds image i when there is one and is empty otherwise; images past the fifth are dropped |
| `PropertyForm.SlotsSubmitShownImages` | Components/PropertyForm.tsx:43-48 | the five inputs filled from a listing submit exactly the non-blank ones among its first five images, in order |
| `PropertyForm.CleanImagesSubmitted` | Components/PropertyForm.tsx:60 | images that are all non-blank are submitted unchanged |
| `PropertyForm.ListingForm.constructor` | Components/PropertyForm.tsx:14-34 | five empty image inputs, the initial form data and the id chosen by precedence |
| `PropertyForm.ListingForm.Reset` | Components/PropertyForm.tsx:37-55 | loading a listing sets form data, id and the five inputs from it; a new id clears title, location and images; with neither nothing changes; five inputs remain |
| `PropertyForm.ListingForm.Change` | Components/PropertyForm.tsx:64-66 | only the named field of the form data changes |
| `PropertyForm.ListingForm.ChangeImage` | Components/PropertyForm.tsx:68-72 | input i takes the value, the other inputs keep theirs, and there are still five |
| `PropertyForm.ListingForm.Submit` | Components/PropertyForm.tsx:57-62 | the submitted listing carries the form's id and at most five non-blank image addresses, taken from the inputs |
| `PropertyForm.EditRoundTrip` | Components/PropertyForm.tsx:14-62 | opening the form on a listing and submitting it untouched gives back the listing with the non-blank ones among its first five images; with at most five non-blank images it is the listing itself |
| `PropertyForm.AddRoundTrip` | Components/PropertyForm.tsx:14-62 | opening the form for a new listing under an offered id and submitting it untouched gives a blank listing under that id, dated today, with no images (an empty offered id included) |
| `PropertyDetails.Features` | Components/PropertyDetails.tsx:20 | empty text gives no features; no feature is empty, has surrounding whitespace or holds a comma; at most commas + 1 features, in text order; each non-blank trimmed piece appears as many times as it occurs among the trimmed pieces, a blank one not at all |
| `PropertyDetails.FeaturesKeepNonBlankPieces` | Components/PropertyDetails.tsx:20 | every piece between commas that is not blank appears, trimmed, among the features, as many times as it occurs among the trimmed pieces |
| `PropertyDetails.HeroImage` | Components/PropertyDetails.tsx:21-28 | there is a banner image exactly when the image list is present and non-empty, and it is the first image |
| `PropertyDetails.LaterTilesAreSingle` | Components/PropertyDetails.tsx:95 | every gallery tile after the first takes one grid cell |
| `PropertyDetails.GalleryFillsRows` | Components/PropertyDetails.tsx:94-98 | the gallery's tiles take an even number of cells of the two-column grid (count + count mod 2), so the last row is full |

## Left out

- `fetchWithTimeout` (services/propertyservices.ts:35-49): the timer, the `AbortController` and asynchronous cancellation are not modelled. Each remote call is an input `Reply`, and a timeout arrives as `Threw`.
- `fetch`, `response.json()`, `JSON.stringify` and `JSON.parse` are not modelled as text. The persisted key is the datatype `Slot`, and a body is the datatype `Body`. Listings read from the server or from storage are taken as listing-shaped, because the code does not validate them.
- Stored text that parses to a JSON value other than an array counts as `Corrupt`, which gives an empty cache. In the source (services/propertyservices.ts:10, :30), only a falsy parse result (`null`, `0`, `""`, `false`) gives an empty cache; a truthy non-array (an object, a non-zero number, a non-empty string, `true`) would become the cache as it is.
- Console logging is left out, and so are the endpoint URLs in constant.ts.
- React's scheduling is left out. Each handler's state updates happen at once and in order, and no two handlers overlap. `executeDelete` waits for the service only after its screen updates; the model applies both before it returns.
- Typing in the search box and clicking a type button (Components/PropertyManager.tsx:151, :161) only assign `searchQuery` or `selectedType`, so they are not modelled as separate methods.
- `PropertyManager.Filtered`: case folding covers ASCII letters only. `toLowerCase` also folds other scripts.
- Numbers are modelled as reals. `Number(...)` of a non-numeric input (NaN), `formatPrice` and `formatDuration` are left out, because they need floating point and locale formatting.
- The service does not check that ids are non-empty or unique, that a listing has at most five images, or that numbers are non-negative (services/propertyservices.ts:85-141), and the model does not impose these conditions on its inputs. Uniqueness is studied in the lemmas instead; the five-image bound holds for what the form submits (`PropertyForm.ListingForm.Submit`).
- services/vapiServices.ts, Components/Settings.tsx, Components/Sidebar.tsx, Components/CallHistory.tsx, Components/PropertyCard.tsx, App.tsx and all JSX and CSS markup are rendering, navigation or a third-party call, and are not part of this model.
