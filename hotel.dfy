/** `_process_hotel`: one raw record becomes a canonical hotel, a rejection
    (`None`), or, when the record is not a dict at all, an exception that
    escapes the method's own handler. */
module HotelRecord {
  import opened Py
  import opened CleanText
  import opened Fields

  /** The canonical record. `id`, `images`, `source` and `scraped_at` are
      passed through as whatever value the input holds (or the default). */
  datatype Hotel = Hotel(
    id: Value,
    name: string,
    description: string,
    starRating: int,
    contactInfo: ContactInfo,
    priceRange: PriceRange,
    amenities: seq<Amenity>,
    images: Value,
    source: Value,
    scrapedAt: Value)

  function NameOf(m: map<string, Value>): Value { TextField(m, "name") }
  function DescriptionOf(m: map<string, Value>): Value { TextField(m, "description") }
  function ContactOf(m: map<string, Value>): Value { Get(m, "contact_info", Obj(map[])) }
  function PriceOf(m: map<string, Value>): Value { Get(m, "price_range", Obj(map[])) }
  function AmenitiesOf(m: map<string, Value>): Value { Get(m, "amenities", Arr([])) }

  /** Some field of the dict literal raises while it is being built. The
      rating never raises, and the pass-through fields cannot. */
  predicate FieldRaises(rt: Runtime, m: map<string, Value>) {
    || Clean(rt, NameOf(m)).Err?
    || Clean(rt, DescriptionOf(m)).Err?
    || ProcessContactInfo(rt, ContactOf(m)).Err?
    || ProcessPriceRange(rt, PriceOf(m)).Err?
    || Amenities(rt, AmenitiesOf(m)).Err?
  }

  /** The dict literal of `_process_hotel`, built field by field in source
      order; the first field that raises ends it. */
  function Candidate(rt: Runtime, m: map<string, Value>): (r: Result<Hotel>)
    ensures r.Err? <==> FieldRaises(rt, m)
  {
    var name := Clean(rt, NameOf(m));
    var description := Clean(rt, DescriptionOf(m));
    var contact := ProcessContactInfo(rt, ContactOf(m));
    var price := ProcessPriceRange(rt, PriceOf(m));
    var amenities := Amenities(rt, AmenitiesOf(m));
    if name.Err? then Err(name.error)
    else if description.Err? then Err(description.error)
    else if contact.Err? then Err(contact.error)
    else if price.Err? then Err(price.error)
    else if amenities.Err? then Err(amenities.error)
    else Ok(Hotel(
      Get(m, "id", Str("")),
      name.value,
      description.value,
      NormalizeRating(rt, Get(m, "star_rating", Null)),
      contact.value,
      price.value,
      amenities.value,
      Get(m, "images", Arr([])),
      Get(m, "source", Str("unknown")),
      Get(m, "scraped_at", Str(rt.now))))
  }

  /** What every hotel the processor emits satisfies. */
  predicate Acceptable(rt: Runtime, h: Hotel) {
    && h.name != ""
    && h.contactInfo.city != ""
    && 1 <= h.starRating <= 5
    && CleanShape(rt.isWord, h.name)
    && CleanShape(rt.isWord, h.contactInfo.city)
  }

  /** `h` holds the cleaned and normalised fields of `m`, and its
      pass-through fields with their defaults. */
  predicate Accepted(rt: Runtime, m: map<string, Value>, h: Hotel) {
    && Clean(rt, NameOf(m)) == Ok(h.name)
    && Clean(rt, DescriptionOf(m)) == Ok(h.description)
    && ProcessContactInfo(rt, ContactOf(m)) == Ok(h.contactInfo)
    && ProcessPriceRange(rt, PriceOf(m)) == Ok(h.priceRange)
    && Amenities(rt, AmenitiesOf(m)) == Ok(h.amenities)
    && h.starRating == NormalizeRating(rt, Get(m, "star_rating", Null))
    && h.id == Get(m, "id", Str(""))
    && h.images == Get(m, "images", Arr([]))
    && h.source == Get(m, "source", Str("unknown"))
    && h.scrapedAt == Get(m, "scraped_at", Str(rt.now))
  }

  /** `_process_hotel(hotel)`: a record that is not a dict fails `.get`
      inside the exception handler too, so the AttributeError escapes; a
      dict gives a hotel that passed validation, or `None`. */
  function ProcessHotel(rt: Runtime, v: Value): (r: Result<Option<Hotel>>)
    ensures r.Err? <==> !v.Obj?
    ensures r.Err? ==> r.error == AttributeError
    ensures r.Ok? && r.value.Some? ==> Acceptable(rt, r.value.value)
    ensures v.Obj? ==> (r == Ok(None) <==>
      || FieldRaises(rt, v.fields)
      || Clean(rt, NameOf(v.fields)) == Ok("")
      || ProcessContactInfo(rt, ContactOf(v.fields)).value.city == "")
    ensures r.Ok? && r.value.Some? ==> Accepted(rt, v.fields, r.value.value)
  {
    match v
    case Obj(m) =>
      (match Candidate(rt, m)
       case Err(_) => Ok(None)
       case Ok(h) => if h.name == "" || h.contactInfo.city == "" then Ok(None) else Ok(Some(h)))
    case _ => Err(AttributeError)
  }

  /** Three ways a field raises, each turned into a rejection rather than an
      exception: a `min_price` string `float()` cannot parse, a null
      `contact_info`, and a truthy name that is not a string. */
  lemma RaisingFieldsReject(rt: Runtime, m: map<string, Value>)
    ensures PriceOf(m) == Obj(map["min_price" := Str("abc")]) && rt.parseFloat("abc").None? ==>
      ProcessHotel(rt, Obj(m)) == Ok(None)
    ensures "contact_info" in m && m["contact_info"] == Null ==>
      ProcessHotel(rt, Obj(m)) == Ok(None)
    ensures "name" in m && m["name"] == Num(5.0) ==>
      ProcessHotel(rt, Obj(m)) == Ok(None)
  {
    if PriceOf(m) == Obj(map["min_price" := Str("abc")]) && rt.parseFloat("abc").None? {
      assert Get(PriceOf(m).fields, "min_price", Null) == Str("abc");
      assert ProcessPriceRange(rt, PriceOf(m)).Err?;
    }
  }

  /** A dict record is accepted as `h` exactly when its fields process to
      those of `h` and `h` has a name and a city. */
  lemma AcceptedAs(rt: Runtime, m: map<string, Value>, h: Hotel)
    ensures ProcessHotel(rt, Obj(m)) == Ok(Some(h)) <==> Accepted(rt, m, h) && h.name != "" && h.contactInfo.city != ""
  {
    if Accepted(rt, m, h) && h.name != "" && h.contactInfo.city != "" {
      assert !FieldRaises(rt, m);
      var r := ProcessHotel(rt, Obj(m));
      assert r.Ok? && r.value.Some?;
      assert Accepted(rt, m, r.value.value);
    }
  }

  /** A record whose name and city are plain words, and whose other
      fields are absent, is accepted with every default filled in. */
  lemma MinimalRecordAccepted(rt: Runtime, name: string, city: string)
    requires IsClean(rt.isWord, name) && name != ""
    requires IsClean(rt.isWord, city) && city != ""
    ensures ProcessHotel(rt, Obj(map["name" := Str(name), "contact_info" := Obj(map["city" := Str(city)])])) ==
      Ok(Some(Hotel(
        Str(""), name, "", 3,
        ContactInfo("", "", "", "", city, ""),
        DefaultPriceRange, [], Arr([]), Str("unknown"), Str(rt.now))))
  {
    var contact := map["city" := Str(city)];
    var m := map["name" := Str(name), "contact_info" := Obj(contact)];
    var h := Hotel(
        Str(""), name, "", 3,
        ContactInfo("", "", "", "", city, ""),
        DefaultPriceRange, [], Arr([]), Str("unknown"), Str(rt.now));
    MinimalRecordFields(m, name, contact, rt.now);
    CleanFixedPoint(rt, name);
    MinimalContactInfo(rt, city);
    AbsentFieldDefaults(rt);
    assert Accepted(rt, m, h);
    AcceptedAs(rt, m, h);
  }

  /** The processed values of the defaults `""`, `{}`, `[]` and None. */
  lemma AbsentFieldDefaults(rt: Runtime)
    ensures Clean(rt, Str("")) == Ok("")
    ensures ProcessPriceRange(rt, Obj(map[])) == Ok(DefaultPriceRange)
    ensures Amenities(rt, Arr([])) == Ok([])
    ensures NormalizeRating(rt, Null) == 3
  {
  }

  lemma MinimalRecordFields(m: map<string, Value>, name: string, contact: map<string, Value>, now: string)
    requires m == map["name" := Str(name), "contact_info" := Obj(contact)]
    ensures NameOf(m) == Str(name) && ContactOf(m) == Obj(contact)
    ensures DescriptionOf(m) == Str("") && PriceOf(m) == Obj(map[]) && AmenitiesOf(m) == Arr([])
    ensures Get(m, "star_rating", Null) == Null && Get(m, "id", Str("")) == Str("")
    ensures Get(m, "images", Arr([])) == Arr([]) && Get(m, "source", Str("unknown")) == Str("unknown")
    ensures Get(m, "scraped_at", Str(now)) == Str(now)
  {
  }

  lemma MinimalContactInfo(rt: Runtime, city: string)
    requires IsClean(rt.isWord, city) && city != ""
    ensures ProcessContactInfo(rt, Obj(map["city" := Str(city)])) == Ok(ContactInfo("", "", "", "", city, ""))
  {
    CleanFixedPoint(rt, city);
    MinimalContactFields(map["city" := Str(city)], city);
  }

  lemma MinimalContactFields(contact: map<string, Value>, city: string)
    requires contact == map["city" := Str(city)]
    ensures TextField(contact, "city") == Str(city)
    ensures TextField(contact, "phone") == Str("") && TextField(contact, "email") == Str("")
    ensures TextField(contact, "website") == Str("") && TextField(contact, "address") == Str("")
    ensures TextField(contact, "region") == Str("")
  {
  }
}
