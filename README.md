# Hotel record normaliser and batch aggregator

A Dafny model of `HotelDataProcessor` (`scraping/data_processor.py`), the part of the
hotel-search pipeline that turns loosely typed, scraped hotel records into canonical
hotel records. The model covers:

- text cleaning (`_clean_text`);
- star-rating normalisation (`_normalize_rating`);
- contact-information cleaning (`_process_contact_info`);
- price-range defaulting (`_process_price_range`);
- amenity filtering (`_process_amenities`);
- the validation gate of `_process_hotel`;
- the aggregation loop of `process_all_files`.

Raw input is a JSON value (`Py.Value`): null, bool, number, string, list or dict.
A Python exception is the `Err` arm of a `Result`. A rejected record is `Ok(None)`.

Three things the Python runtime supplies are parameters, bundled in `Py.Runtime`:

- `isWord`: the regular-expression class `\w`;
- `parseFloat`: `float()` applied to a string;
- `now`: the text of `datetime.now().isoformat()`.

Whitespace (`\s` and `str.strip()`) is modelled exactly, as the character set of
`str.isspace()`. Each input file is given as the outcome of `json.load`: the parsed
value, or the error that reading or parsing raised.

Modules, in dependency order:

- `Py`: values, truthiness, `dict.get`, `float()` and `round()`.
- `CleanText`: `_clean_text`.
- `Fields`: rating, contact info, price range and amenities.
- `HotelRecord`: `_process_hotel`.
- `Batch`: `process_all_files`.

`_process_amenities` and the loop of `process_all_files` are methods with loops. Each
is proved equal to a recursive specification function, and the properties are proved
about that function.

Behaviour of the code worth noting, some of it easy to miss:

- Cleaning is not idempotent. `CleanText.CleanNotIdempotent` shows this, and
  `CleanText.CleanFixedPoint` says exactly which strings cleaning leaves unchanged.
- Prices are not kept non-negative or ordered. See `Fields.PricesNotValidated`.
- A text field holding a truthy non-string does not default to `""`. It makes
  `re.sub` raise, so the whole record is rejected. See
  `HotelRecord.RaisingFieldsReject`.
- A numeric rating `0` is falsy and gives 3, while the string `"0"` gives 1. See
  `Fields.RatingEdgeCases`.
- A record that is not a dict is not turned into a rejection. The `hotel.get` in the
  `except` handler raises again, so the error escapes `_process_hotel` and the
  whole file is dropped. See `HotelRecord.ProcessHotel` and `Batch.Contribution`.

## Model

| member | source | states |
|---|---|---|
| Py.Truthy | scraping/data_processor.py:74 | The falsy values are exactly None, False, 0, "", [] and {}; everything else is truthy. The same test decides the defaults at lines 84, 108, 117-118 and 133. |
| Py.Get | scraping/data_processor.py:49-58 | `dict.get(key, default)`: the entry when the key is present, otherwise the default. |
| Py.ToFloat | scraping/data_processor.py:87 | `float(x)`: a number converts to itself, a bool to 1.0 or 0.0, and a string that parses to its parsed value. None, a list, a dict, or a string that does not parse raise, and only the string case raises something other than TypeError. |
| Py.Round | scraping/data_processor.py:88 | `round(x)` is within 0.5 of `x`, and on a tie it is even. |
| Py.RoundUnique | scraping/data_processor.py:88 | Those two properties fix the result: half-to-even rounding has exactly one answer. |
| CleanText.IsSpace | scraping/data_processor.py:77-80 | The characters `\s` and `str.strip()` treat as whitespace: those for which `str.isspace()` holds. |
| CleanText.Allowed | scraping/data_processor.py:79 | The characters the class `[\w\s.,-]` matches. |
| CleanText.CollapseSpaces | scraping/data_processor.py:77 | The whitespace substitution never lengthens the text and leaves no whitespace except the plain space. `CollapseKeepsNonSpaces` states that the visible characters survive in order. `CollapseRun` and `CollapseTrailingRun` state that each whitespace run becomes exactly one space. |
| CleanText.KeepAllowed | scraping/data_processor.py:79 | The deletion step leaves only characters of `[\w\s.,-]` and adds no whitespace. `KeepAllowedMembers` and `KeepAllowedAppend` state that it is an order-preserving filter. |
| CleanText.DropSpaces | scraping/data_processor.py:80 | Removes exactly the leading run of whitespace: the result is a suffix, everything removed is whitespace, and the result does not start with whitespace. |
| CleanText.DropTrailingSpaces | scraping/data_processor.py:80 | Removes exactly the trailing run of whitespace: the result is a prefix, everything removed is whitespace, and the result does not end with whitespace. |
| CleanText.CleanString | scraping/data_processor.py:76-80 | The result of the three steps is no longer than the input. Every character is a word character, a plain space, `.`, `,` or `-`, and neither end is whitespace. `CleanStringKeepsVisible` states which visible characters remain. |
| CleanText.Clean | scraping/data_processor.py:72-80 | A falsy value gives `""`. Cleaning succeeds exactly for falsy values and strings; any other value raises TypeError. A non-empty string gives the result of the three steps, and every result has the clean shape. |
| CleanText.NonSpaces | scraping/data_processor.py:77-80 | The non-whitespace characters of a text, in order: none of them is whitespace, and there are no more of them than characters. |
| CleanText.NonSpacesAppend | scraping/data_processor.py:77-80 | Taking the non-whitespace characters distributes over concatenation. |
| CleanText.KeepAllowedMembers | scraping/data_processor.py:79 | The deletion step keeps exactly the allowed characters: a character is in the result if and only if it is in the input and allowed. |
| CleanText.KeepAllowedAppend | scraping/data_processor.py:79 | The deletion step works character by character and keeps order: it distributes over concatenation. |
| CleanText.DropSpacesKeepsNonSpaces | scraping/data_processor.py:80 | Stripping leading whitespace keeps every non-whitespace character. |
| CleanText.DropTrailingKeepsNonSpaces | scraping/data_processor.py:80 | Stripping trailing whitespace keeps every non-whitespace character. |
| CleanText.CollapseKeepsNonSpaces | scraping/data_processor.py:77 | The whitespace substitution keeps every non-whitespace character, in order. |
| CleanText.CollapseSingleSpaces | scraping/data_processor.py:77 | After the substitution no two whitespace characters are adjacent. |
| CleanText.DropRun | scraping/data_processor.py:77 | Once the first whitespace character of a run has matched, `\s+` consumes the rest of the run and stops at the first visible character. |
| CleanText.CollapseRun | scraping/data_processor.py:77 | A whitespace run of any kind and length before a visible character becomes one plain space before that character, and the rest of the text is collapsed on its own. Together with `CollapseNonSpace` and `CollapseTrailingRun` this fixes the substitution on every input, so `"a\tb c"` gives `"a b c"`. |
| CleanText.CollapseTrailingRun | scraping/data_processor.py:77 | A whitespace run at the end of the text becomes one plain space. |
| CleanText.KeepAllowedNonSpaces | scraping/data_processor.py:79 | Deleting disallowed characters and taking the non-whitespace ones commute. |
| CleanText.CleanStringKeepsVisible | scraping/data_processor.py:76-80 | The non-whitespace characters of the cleaned text are exactly the allowed non-whitespace characters of the input, in order. |
| CleanText.CleanStringEmpty | scraping/data_processor.py:76-80 | Cleaning gives the empty string if and only if the input holds no allowed non-whitespace character. |
| CleanText.CleanEmpty | scraping/data_processor.py:72-80 | The same for `_clean_text` on a string value. This decides when the name or city check at line 62 rejects a record. |
| CleanText.CollapseIdentity | scraping/data_processor.py:77 | Text with only plain spaces and no two adjacent whitespace characters is unchanged by the substitution. |
| CleanText.CollapseShrinks | scraping/data_processor.py:77 | Text with two adjacent whitespace characters is strictly shortened by it. |
| CleanText.KeepAllowedIdentity | scraping/data_processor.py:79 | Text of allowed characters only is unchanged by the deletion step. |
| CleanText.CleanStringFixedPoint | scraping/data_processor.py:76-80 | Cleaning returns a string unchanged if and only if it already has the clean shape and no adjacent whitespace. |
| CleanText.CleanFixedPoint | scraping/data_processor.py:72-80 | The same holds for `_clean_text` applied to a string value. |
| CleanText.CleanNotIdempotent | scraping/data_processor.py:77-80 | For word characters `a`, `b` and a character `x` outside `[\w\s.,-]`, the text `a x b` (single spaces around `x`) cleans to `a`, two spaces, `b`. Cleaning that again gives `a b`, so cleaning twice differs from cleaning once. |
| CleanText.CleanFirstPass | scraping/data_processor.py:76-80 | The first pass of the counterexample: `a x b` with single spaces cleans to `a`, two spaces, `b`. |
| CleanText.CleanSecondPass | scraping/data_processor.py:76-80 | The second pass: `a`, two spaces, `b` cleans to `a b`. |
| CleanText.CleanNotIdempotentExample | scraping/data_processor.py:77-80 | The instance: `"a ! b"` cleans to `"a  b"`, which cleans to `"a b"`. |
| Fields.Clamp | scraping/data_processor.py:88 | `max(1, min(5, n))` lies in 1..5, equals `n` inside that range, and is 1 below it and 5 above it. |
| Fields.NormalizeRating | scraping/data_processor.py:82-90 | The rating is always in 1..5. A falsy input, or one `float()` rejects, gives 3. Any other input gives its half-to-even rounding, clamped. |
| Fields.RatingEdgeCases | scraping/data_processor.py:84-88 | A numeric 0 gives 3, the string "0" gives 1, 2.5 gives 2, 3.5 gives 4, None gives 3 and `True` gives 1. |
| Fields.ProcessContactInfo | scraping/data_processor.py:92-101 | A non-dict raises AttributeError. A dict succeeds exactly when all six text fields clean without raising, and each output field is the cleaned entry of that name, default "". |
| Fields.ProcessPriceRange | scraping/data_processor.py:103-121 | A non-dict raises AttributeError. A dict succeeds exactly when each bound is falsy or convertible. Both bounds falsy gives (0.0, 0.0, "PKR", True), ignoring any currency or flag. Otherwise a falsy min is 0.0, a falsy max is `min * 1.2`, a truthy bound is its float, and currency and flag pass through with defaults "PKR" and True. |
| Fields.MaxFromMin | scraping/data_processor.py:116-121 | `{min_price: 100}` gives (100.0, 120.0, "PKR", True). |
| Fields.PricesNotValidated | scraping/data_processor.py:116-118 | A negative minimum passes through, with a negative derived maximum, and a maximum below the minimum is kept. |
| Fields.ProcessAmenity | scraping/data_processor.py:130-134 | One dict entry succeeds exactly when its name and description clean without raising. The output holds those cleaned texts, and `is_available` is the truthiness of the entry's value, default True. |
| Fields.Dicts | scraping/data_processor.py:126-128 | The dict entries of a list are never more than its entries, and every entry is kept exactly when every entry is a dict. |
| Fields.DictsAppend | scraping/data_processor.py:126-128 | Selecting dict entries keeps order: the dicts of a concatenation are the concatenated dicts. |
| Fields.DictsAreTheObjects | scraping/data_processor.py:126-128 | The selected entries are exactly the dict entries of the list. |
| Fields.ProcessEntries | scraping/data_processor.py:123-135 | A list is processed exactly when every dict entry is. The result then has one amenity per dict entry, in order, and the k-th amenity is the processing of the k-th dict. |
| Fields.ErrorStops | scraping/data_processor.py:126-134 | Once a prefix of the list raises, the whole list raises with the same error. |
| Fields.Amenities | scraping/data_processor.py:123-135 | None, a bool or a number is not iterable and raises TypeError. A string or a dict iterates over strings only, so it gives no amenities. A list gives the result of processing its entries, so `ProcessEntries`' count and k-th-entry facts apply. |
| Fields.NonDictEntryDropped | scraping/data_processor.py:126-134 | `[junk string, {name: n}]` with a clean `n` gives exactly one amenity: name `n`, empty description, available. |
| Fields.ProcessAmenities | scraping/data_processor.py:123-135 | The loop that skips non-dicts and appends one amenity per dict returns exactly `Amenities`, including the error of the first dict that raises. |
| HotelRecord.Candidate | scraping/data_processor.py:48-59 | Building the dict literal raises exactly when one of the cleaned or processed fields raises. |
| HotelRecord.ProcessHotel | scraping/data_processor.py:44-70 | A non-dict record raises AttributeError, and a dict never raises. A dict is rejected exactly when a field raises, its cleaned name is empty, or its cleaned city is empty. An accepted hotel holds the processed fields, a rating in 1..5, `id`, `images` and `source` passed through with defaults "", [] and "unknown", and `scraped_at` defaulting to `now`; its name and city are non-empty and clean. |
| HotelRecord.AcceptedAs | scraping/data_processor.py:48-66 | A dict is accepted as `h` if and only if its fields process to those of `h` and `h` has a non-empty name and city. |
| HotelRecord.RaisingFieldsReject | scraping/data_processor.py:68-70 | A `min_price` that `float()` cannot parse, a null `contact_info`, and a numeric name each make the record rejected rather than raise. |
| HotelRecord.MinimalRecordAccepted | scraping/data_processor.py:48-66 | A record with only a clean non-empty name and a contact city is accepted, with every default filled in. |
| HotelRecord.AbsentFieldDefaults | scraping/data_processor.py:50-55 | The defaults of absent fields process to `""`, the default price range, no amenities and rating 3. |
| HotelRecord.MinimalRecordFields | scraping/data_processor.py:49-58 | The `get` calls on such a record return its name and contact, or each field's default. |
| HotelRecord.MinimalContactInfo | scraping/data_processor.py:92-101 | A contact dict holding only a clean city gives that city and five empty fields. |
| Batch.Collect | scraping/data_processor.py:34-35 | The list comprehension followed by the `None` filter: it keeps at most one result per element. |
| Batch.ConcatMap | scraping/data_processor.py:36 | The `extend` accumulation: the parts of the items concatenated in order. |
| Batch.CollectOk | scraping/data_processor.py:34-35 | Processing a list of records in order succeeds exactly when no record raises; otherwise the error is that of some record. |
| Batch.CollectMembers | scraping/data_processor.py:34-35 | The kept results are exactly the non-None results of the records. |
| Batch.CollectAppend | scraping/data_processor.py:34-35 | Processing a concatenation is processing each part and concatenating, in order, and the first part's error wins. |
| Batch.ConcatMapAppend | scraping/data_processor.py:28-36 | Extending per item and concatenating commute: the result for a concatenation is the concatenation of the results. |
| Batch.ConcatMapMembers | scraping/data_processor.py:28-36 | An element is in the concatenation exactly when it is in the part of some item. |
| Batch.ProcessRecords | scraping/data_processor.py:34-35 | A file's record list is processed exactly when every record is a dict, and otherwise raises AttributeError. The hotels kept are exactly those its records are accepted as, and each is acceptable. |
| Batch.ProcessRecordsAppend | scraping/data_processor.py:34-35 | Record order is kept: processing a concatenation is concatenating the processed parts, and raises if either part raises. |
| Batch.ProcessRecordsSingle | scraping/data_processor.py:34-35 | One record gives its error, no hotel, or exactly its accepted hotel. With `Batch.ProcessRecordsAppend` this fixes the result of any list, each accepted record appearing once and in order. |
| Batch.ProcessFile | scraping/data_processor.py:32-36 | Only a list, the empty string or the empty dict can be processed without raising, and every hotel kept is acceptable. |
| Batch.Contribution | scraping/data_processor.py:29-39 | A file contributes all of its accepted records or none. A file that raised contributes nothing. A file that contributes something is a list whose records processed to exactly that contribution, and a list of dicts always contributes its accepted records. |
| Batch.AllHotels | scraping/data_processor.py:26-36 | Every hotel in the aggregate is acceptable. |
| Batch.AllHotelsSingle | scraping/data_processor.py:28-39 | The aggregate of one file is that file's contribution. With `Batch.AllHotelsAppend` this fixes the aggregate of any list of files, each hotel appearing once per file that yields it, in file order. |
| Batch.AllHotelsAppend | scraping/data_processor.py:28-39 | Files are independent and keep their order: the aggregate of two lists of files is the concatenation of their aggregates. |
| Batch.FailedFileSkipped | scraping/data_processor.py:38-39 | A file that raised contributes nothing and does not stop the files after it. |
| Batch.AllHotelsMembers | scraping/data_processor.py:28-39 | A hotel is in the aggregate exactly when some file parsed to a list of dict records, one of which is accepted as that hotel. |
| Batch.ProcessAllFiles | scraping/data_processor.py:23-42 | The loop that extends `all_hotels` file by file, skipping a file that raises, returns exactly the aggregate `AllHotels`. |

## Left out

- Directory listing, file reading and `json.load` (lines 25, 31-32) are not modelled: each file is given as its already-parsed value or the error raised. The order of files is the order of the input sequence.
- `_save_processed_data` and the `mkdir` in `__init__` write files and build a pandas table; they are not part of this model, nor are the two directory fields of the class.
- Batch.ProcessAllFiles: `_save_processed_data` is called at line 41, outside the per-file `try`, so a failure to write the output propagates out of `process_all_files` and the aggregate is never returned. The method returns the aggregate unconditionally, which covers only the path where saving succeeds.
- Logging calls are observability only and are not modelled.
- `datetime.now().isoformat()` is the parameter `now`, one value for every record of a run. The source evaluates it as the argument of `hotel.get` at line 58, so it reads the clock again for every dict record whose earlier fields did not raise, whether or not `scraped_at` is present; only the use of the value depends on its absence.
- `\w` is the parameter `isWord`: the Unicode tables behind it are not modelled.
- `float()` on a string is the parameter `parseFloat`; which strings it accepts is not modelled.
- Py.ToFloat: numbers are exact reals, so floating-point rounding, infinities, NaN and overflow are not modelled. This includes the OverflowError that `round(float('inf'))` raises and that the rating code does not catch.
- Python's `int` and `float` are both the real-valued `Num`; the distinction between `100` and `100.0` is not kept.
