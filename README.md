# Coffee-shop locator: the shop store, in Dafny

A model of the data core of the coffee-shop locator service: the in-memory
shop store `ShopDao`, the shop record `ShopModel` and the item record
`ItemModel`, with proofs about how they behave.

- **Loading** (`parseCSVFile`, `initData`). The database is a text file
  of five-column lines `id,name,address,lat,lng`. It is split on `'\n'`
  and each line on `','`. A line without exactly five columns aborts the
  whole load with "malformed location data". Every other line becomes a
  params object of the five trimmed columns and then a `ShopModel`.
  `initData` loads once: it re-wraps every parsed shop in a new `ShopModel`
  and stores it in the list `db` and in the index `idmap`, keyed by id.
  Later calls return the stored list and index unchanged.
- **`ShopModel`** normalises a params object:
  - a truthy id is coerced with `parseInt`;
  - `version` defaults to 0 and `status` to `"active"`;
  - `lat` and `lng` go through `Number.parseFloat`;
  - a coordinate that is NaN forces the status `"invalid"`.
  The status names are the constants `Active`, `Deleted` and `Invalid`.
- **Lookup and query**:
  - `findById` returns the shop stored under exactly that key, whatever
    its status, or fails with "model not found".
  - `queryByGeo` (as corrected; see "## Findings") keeps, in list order,
    the shops the distance check places within 50 miles (50 × 1.609344 km)
    of the target. It does not filter on status either.
  - `locToGeo` relabels `[lat, long]` as `{ latitude, longitude }`.
- **`ItemModel`** unwraps Mongo-style `{ $oid }` ids and `{ $date }` dates.
  It defaults `loc` to `[]`, `description` to `''`, `price` to 0 and
  `status` to `"unknown"`.

Status filtering: deleted and invalid shops are not kept out of lookups or
geo queries. No status is tested anywhere in `ShopDao.js`, and the model
does the same.

Modules:
- `JsValues`: the JavaScript values involved, ToBoolean and `||`.
- `JsStrings`: `trim` and one-character `split`.
- `JsNumbers`: decimal `parseInt` and `parseFloat`.
- `ShopModel`, `ItemModel` and `ShopDao`: the three source files.
  `ShopDao.Dao` is a class whose fields `db` and `idmap` the loading
  method updates.

## Model

| member | source | states |
|---|---|---|
| JsValues.Or | src/ShopModel.js:15 | `a \|\| b` is `a` when `a` is truthy and `b` otherwise, and it is truthy exactly when one of them is |
| JsStrings.TrimStartShape | src/ShopDao.js:98 | dropping leading white space leaves the suffix that starts at the first non-space character; everything dropped is white space |
| JsStrings.TrimEndShape | src/ShopDao.js:98 | dropping trailing white space leaves the prefix that ends at the last non-space character; everything dropped is white space |
| JsStrings.TrimShape | src/ShopDao.js:98 | `trim` returns an infix of the string with only white space removed around it; it neither starts nor ends with white space, and it is empty exactly when the string is all white space |
| JsStrings.TrimIdempotent | src/ShopDao.js:98 | trimming a trimmed string changes nothing |
| JsStrings.Split | src/ShopDao.js:89 | `split` yields one more piece than there are separators |
| JsStrings.SplitPiecesAvoidSep | src/ShopDao.js:91 | no piece of a split contains the separator |
| JsStrings.JoinOfSplit | src/ShopDao.js:89 | joining the pieces with the separator gives back the original string |
| JsStrings.SplitWithoutSep | src/ShopDao.js:91 | a string without the separator splits into itself alone |
| JsStrings.SplitAfterPiece | src/ShopDao.js:91 | splitting a separator-free piece followed by the separator and a rest gives that piece followed by the split of the rest |
| JsStrings.SplitOfJoin | src/ShopDao.js:89 | splitting the join of separator-free pieces gives back the pieces |
| JsStrings.SplitEndsWithSep | src/ShopDao.js:89 | a string that ends with the separator splits with an empty last piece |
| JsNumbers.DigitPrefixLen | src/ShopModel.js:11 | the length of the longest run of decimal digits at the front, with the character after it not a digit |
| JsNumbers.Trunc | src/ShopModel.js:11 | truncation toward zero lies within 1 of the number on the side of zero |
| JsNumbers.ReadInteger | src/ShopModel.js:11 | after the sign, the digit scan yields a whole number exactly when a digit follows the optional sign, and NaN otherwise |
| JsNumbers.ParseIntText | src/ShopModel.js:11 | `parseInt` of text yields a whole number exactly when, after white space and sign, a digit comes first; NaN otherwise |
| JsNumbers.ReadDecimal | src/ShopModel.js:19-20 | the decimal scan yields a number exactly when a digit, or a point and a digit, follows the optional sign |
| JsNumbers.ParseFloatText | src/ShopModel.js:19-20 | `parseFloat` of text yields a number exactly when, after white space and sign, a digit or a point then a digit comes first |
| JsNumbers.ParseInt | src/ShopModel.js:11 | `parseInt` always gives a whole number or NaN; a string is read as text and a finite number is truncated toward zero |
| JsNumbers.ParseFloat | src/ShopModel.js:19-20 | only a string, a number or an array can give a finite result, so a coordinate that is missing, null, a boolean, an object or a date parses to NaN and marks the shop invalid; a number passes through unchanged, so a parsed coordinate parses again to itself |
| JsNumbers.ParseIntOfWhole | src/ShopModel.js:11 | in the model, `parseInt` of a whole number or NaN is that same value, so re-coercing a coerced id changes nothing (in JavaScript only below 10^21, see "## Left out") |
| JsNumbers.TrimStartSkipsSpace | src/ShopModel.js:19-20 | white space put in front of a string is removed with the rest of the leading white space |
| JsNumbers.LeadingSpaceIgnored | src/ShopModel.js:19-20 | leading white space never changes what `parseInt` or `parseFloat` reads |
| ShopModel.Make | src/ShopModel.js:9-27 | every constructed shop is normalised: a truthy id is a whole number or NaN, the version is truthy or 0, the status is truthy, and a NaN coordinate comes with "invalid"; the field-by-field rules are `MakeFields` |
| ShopModel.MakeFields | src/ShopModel.js:9-27 | the constructor coerces a truthy id to `parseInt(id)`, a whole number or NaN, and keeps a falsy one, defaults the version to 0, copies name, address and timestamps, parses the coordinates, forces "invalid" when a coordinate is NaN and otherwise keeps a truthy status or uses "active"; the result is normalised |
| ShopModel.RebuildFixesNormalised | src/ShopModel.js:9-27 | constructing a shop from its own properties gives the same shop exactly when it is normalised (whole-number or falsy id, truthy version or 0, truthy status, "invalid" whenever a coordinate is NaN) |
| ShopModel.MakeIdempotent | src/ShopModel.js:9-27 | in the model, re-wrapping a constructed shop in a new `ShopModel` gives the same shop (in JavaScript only for ids below 10^21) |
| ItemModel.ConvertMongoId | src/ItemModel.js:10-14 | the result is defined exactly for an object with a truthy `$oid`, and is then that `$oid` |
| ItemModel.ConvertMongoDate | src/ItemModel.js:16-20 | the result is defined exactly for an object with a truthy `$date`, and is then `new Date($date)` |
| ItemModel.Make | src/ItemModel.js:22-32 | a truthy id wins over the unwrapped `_id`, so the id is truthy or undefined; user id and creation date are unwrapped; price is always a number (the supplied one or 0); loc and status are always truthy, with `[]`, `''` and "unknown" as fallbacks |
| ItemModel.RebuildKeepsDefaultsDropsMongoFields | src/ItemModel.js:22-32 | re-wrapping a built item keeps its id and defaulted fields but loses the creation date and a non-object user id, because the converted forms carry no `$date` or `$oid` |
| ShopDao.ReadParams | src/ShopDao.js:96-99 | the column loop assigns the five trimmed columns to `id`, `name`, `address`, `lat`, `lng` and sets nothing else |
| ShopDao.ReadShop | src/ShopDao.js:96-100 | a row's shop is the `ShopModel` of its trimmed columns |
| ShopDao.RowShopFields | src/ShopDao.js:96-100 | a loaded row has the trimmed name and address, an id that is "" or parsed, parsed coordinates, version 0 and no timestamps; its status is "invalid" exactly when a coordinate is NaN and "active" otherwise |
| ShopDao.SplitRows | src/ShopDao.js:90-94 | every row of a successful split has five columns |
| ShopDao.SplitRowsShape | src/ShopDao.js:90-94 | the split succeeds exactly when every line has five columns, and then holds each line's columns in order; otherwise it reports a malformed line of the input |
| ShopDao.SplitRowsReportsFirstMalformed | src/ShopDao.js:90-94 | the reported line is the first malformed one: every earlier line is well formed |
| ShopDao.ParseLines | src/ShopDao.js:89-103 | the line loop returns the shops of all lines in order, or the error for the first malformed line |
| ShopDao.ParseCsv | src/ShopDao.js:80-106 | the load fails as unreadable exactly when the file cannot be read; every other failure is a malformed line (details in `ParseCsvShape`) |
| ShopDao.ParseCsvShape | src/ShopDao.js:80-106 | an unreadable file fails; a readable one loads exactly when every line has five columns, giving one shop per line (separator count plus one), each built from its own line, and otherwise fails with "malformed" and a malformed line |
| ShopDao.TrailingNewlineRejected | src/ShopDao.js:89-94 | a file ending in a newline always fails to load, because its empty last line has one column |
| ShopDao.LoadRoundTrip | src/ShopDao.js:89-103 | rendering rows of five fields free of ',' and '\n' as CSV and loading the text gives back one shop per row, in order |
| ShopDao.ParsedShopsNormalised | src/ShopDao.js:100 | every shop a load produces is normalised |
| ShopDao.RewrapNormalised | src/ShopDao.js:69-73 | in the model, re-wrapping a list of normalised shops changes nothing, so `db` holds exactly the parsed shops (in JavaScript only for ids below 10^21) |
| ShopDao.Remodel | src/ShopDao.js:69-73 | the list is the re-wrapped shops in order, and the index sets each of them under its id in list order |
| ShopDao.Index | src/ShopDao.js:71 | every key of the index maps to a shop carrying that id (keys, values and size in the three lemmas below) |
| ShopDao.IndexKeysAndValues | src/ShopDao.js:71 | the index keys are exactly the shops' ids, and each key maps to a shop of the list with that id |
| ShopDao.IndexLastWins | src/ShopDao.js:71 | with repeated ids the index keeps the last shop carrying the id |
| ShopDao.IndexSize | src/ShopDao.js:71 | the index never has more entries than the list, and has as many exactly when the ids are distinct |
| ShopDao.GeoFilter | src/ShopDao.js:43-47 | the filter keeps an in-order subsequence of the shops, every kept shop passes the distance check, and each shop occurs in the result as often as in the list when it passes and not at all otherwise |
| ShopDao.AsWrittenQueryIsAllOrNothing | src/ShopDao.js:46 | with `item.loc` as written, the query returns every shop or none, depending only on the target |
| ShopDao.LocToGeo | src/ShopDao.js:59-63 | `[lat, long]` becomes `{ latitude: lat, longitude: long }`; extra elements are ignored and missing ones read undefined |
| ShopDao.Dao.constructor | src/ShopDao.js:21-22 | a new store has no `db` and an empty index |
| ShopDao.Dao.ParseCSVFile | src/ShopDao.js:80-106 | the method returns the load of the file, as characterised by the load lemmas above |
| ShopDao.Dao.InitData | src/ShopDao.js:65-77 | a first successful call sets `db` to the parsed shops and `idmap` to their index, and a failed one leaves the store empty; once `db` is set, a call changes nothing; it returns `db` and `idmap` |
| ShopDao.Dao.FindById | src/ShopDao.js:24-36 | lookup succeeds exactly when the key is in the index, and then returns a shop of `db` with that id whatever its status; otherwise it fails with "not found" for that id |
| ShopDao.Dao.QueryByGeo | src/ShopDao.js:38-56 | the query fails only before loading; after loading it returns, in order, exactly the shops of `db` that the distance check places within 50 miles of the target at their own `[lat, lng]`, each as many times as it occurs in `db` |

## Left out

- Reading the file, and logging. The file is a parameter: its text, or nothing when it cannot be read. `Unreadable` stands for the exception `fs.readFileSync` throws then, which `parseCSVFile` lets escape; `fs.readFileSync` is not part of this model. The "cannot locate database file" error at src/ShopDao.js:85-87 is never raised, because the buffer a successful read returns is always truthy, so the model has no separate case for it.
- Promises. `findById` and `queryByGeo` return a result value instead of a resolved or rejected promise.
- The distance check. `isDistanceWithin` is not defined in `ShopDao.js`; it is a parameter of the geo query, and its geometry (great-circle distance, floating point, the `geolib` library) is not modelled.
- Operations the code does not have: creating, updating, soft-deleting and counting shops, version bumps and id generation. `ShopDao.js` defines none of them.
- JsNumbers.ParseIntText: does not model the `0x` hexadecimal prefix that `parseInt` without a radix accepts; such text reads as 0.
- JsNumbers.ParseFloatText: does not read `Infinity`, and the value is the exact decimal rather than the nearest double.
- JsNumbers.ParseInt: a number argument is truncated directly. JavaScript first renders it as text, which differs for numbers written with an exponent (`1e21`, `5e-7`).
- JsValues: numbers have no infinities and no negative zero, and arithmetic is exact.
- ItemModel.Make: `new ItemModel()` with no params throws in the original; the model always has a params object. `new Date` is kept symbolic, as `DateObj` of its argument; date parsing is not modelled.
- ShopModel.MakeFields: the params are the nine properties the constructor reads, so getters, prototypes and a `null` argument are not modelled.
- ShopDao.Dao.constructor: the check that a log object was supplied, and the default file name, are not modelled.
- ShopDao.Dao.FindById: keys compare as values. `Map` compares objects by identity, which the model does not track.
- ShopDao.Dao.InitData: `db` equals the parsed shops only in the model. JavaScript's `parseInt` of a number reads its text rendering, so an id of 10^21 or more (a 22-digit id column) renders with an exponent and is re-coerced to a different number (`parseInt(1e21)` is 1) when `initData` re-wraps the shop.
- ShopModel.MakeIdempotent: holds for ids below 10^21 only, for the same reason: the model's `ParseInt` truncates a number directly instead of reading its exponent rendering.
- ShopDao.Dao.InitData: the index is built in a local map and then stored. The original sets entries on `idmap` in place; since `idmap` is empty before the first load, the result is the same.
- ShopDao.LocToGeo: only arrays are modelled; destructuring other iterables, such as strings, and the error for non-iterables are left out.

## Findings

| source | as written | input that shows it | evidently intended | confidence | as-written member | corrected member |
|---|---|---|---|---|---|---|
| src/ShopDao.js:46 | the distance check receives `item.loc`, which `ShopModel` never sets, so every shop is checked at `undefined` | a store with one shop near the target and one far from it: the query returns both or neither | check each shop at its own `[lat, lng]`, the location form `locToGeo` takes | medium, not executed | ShopDao.AsWrittenQueryIsAllOrNothing | ShopDao.Dao.QueryByGeo |
