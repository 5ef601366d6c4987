/** The per-field normalisers of `HotelDataProcessor`: star rating, contact
    information, price range and amenities. */
module Fields {
  import opened Py
  import opened CleanText

  // ---------------------------------------------------------------------
  // Star rating

  /** `max(1, min(5, n))`. */
  function Clamp(n: int): (r: int)
    ensures 1 <= r <= 5
    ensures 1 <= n <= 5 ==> r == n
    ensures n < 1 ==> r == 1
    ensures n > 5 ==> r == 5
  {
    if n < 1 then 1 else if n > 5 then 5 else n
  }

  /** `_normalize_rating`: a falsy rating, or one `float()` rejects, gives 3;
      any other is rounded half-to-even and clamped to 1..5. */
  function NormalizeRating(rt: Runtime, v: Value): (r: int)
    ensures 1 <= r <= 5
    ensures !Truthy(v) ==> r == 3
    ensures ToFloat(rt, v).Err? ==> r == 3
    ensures Truthy(v) && ToFloat(rt, v).Ok? ==> r == Clamp(Round(ToFloat(rt, v).value))
  {
    if !Truthy(v) then 3
    else match ToFloat(rt, v)
      case Err(_) => 3
      case Ok(x) => Clamp(Round(x))
  }

  /** A numeric 0 is falsy and gives the default 3, while the truthy string
      "0" converts to 0.0 and is clamped up to 1; 2.5 rounds to the even 2,
      and 3.5 to 4. */
  lemma RatingEdgeCases(rt: Runtime)
    requires rt.parseFloat("0") == Some(0.0)
    ensures NormalizeRating(rt, Num(0.0)) == 3
    ensures NormalizeRating(rt, Str("0")) == 1
    ensures NormalizeRating(rt, Num(2.5)) == 2
    ensures NormalizeRating(rt, Num(3.5)) == 4
    ensures NormalizeRating(rt, Null) == 3
    ensures NormalizeRating(rt, Bool(true)) == 1
  {
  }

  // ---------------------------------------------------------------------
  // Contact information

  datatype ContactInfo = ContactInfo(
    phone: string, email: string, website: string,
    address: string, city: string, region: string)

  /** `d.get(key, "")` on a dict, the argument of each `_clean_text` call. */
  function TextField(m: map<string, Value>, key: string): Value {
    Get(m, key, Str(""))
  }

  /** `_process_contact_info`: each of the six fields is the cleaned text
      of the entry of that name; anything but a dict raises AttributeError
      at `.get`, and a field `_clean_text` rejects raises in turn. */
  function ProcessContactInfo(rt: Runtime, v: Value): (r: Result<ContactInfo>)
    ensures !v.Obj? ==> r == Err(AttributeError)
    ensures v.Obj? ==> (r.Ok? <==>
      && Clean(rt, TextField(v.fields, "phone")).Ok?
      && Clean(rt, TextField(v.fields, "email")).Ok?
      && Clean(rt, TextField(v.fields, "website")).Ok?
      && Clean(rt, TextField(v.fields, "address")).Ok?
      && Clean(rt, TextField(v.fields, "city")).Ok?
      && Clean(rt, TextField(v.fields, "region")).Ok?)
    ensures r.Ok? ==>
      && Clean(rt, TextField(v.fields, "phone")) == Ok(r.value.phone)
      && Clean(rt, TextField(v.fields, "email")) == Ok(r.value.email)
      && Clean(rt, TextField(v.fields, "website")) == Ok(r.value.website)
      && Clean(rt, TextField(v.fields, "address")) == Ok(r.value.address)
      && Clean(rt, TextField(v.fields, "city")) == Ok(r.value.city)
      && Clean(rt, TextField(v.fields, "region")) == Ok(r.value.region)
  {
    match v
    case Obj(m) =>
      var phone := Clean(rt, TextField(m, "phone"));
      var email := Clean(rt, TextField(m, "email"));
      var website := Clean(rt, TextField(m, "website"));
      var address := Clean(rt, TextField(m, "address"));
      var city := Clean(rt, TextField(m, "city"));
      var region := Clean(rt, TextField(m, "region"));
      if phone.Err? then Err(phone.error)
      else if email.Err? then Err(email.error)
      else if website.Err? then Err(website.error)
      else if address.Err? then Err(address.error)
      else if city.Err? then Err(city.error)
      else if region.Err? then Err(region.error)
      else Ok(ContactInfo(phone.value, email.value, website.value, address.value, city.value, region.value))
    case _ => Err(AttributeError)
  }

  // ---------------------------------------------------------------------
  // Price range

  /** `currency` and `price_per_night` are passed through as whatever value
      the input holds (or the default), without conversion. */
  datatype PriceRange = PriceRange(minPrice: real, maxPrice: real, currency: Value, pricePerNight: Value)

  const DefaultPriceRange := PriceRange(0.0, 0.0, Str("PKR"), Bool(true))

  /** `price_range.get(key)`, whose default is None. */
  function PriceField(v: Value, key: string): Value {
    if v.Obj? then Get(v.fields, key, Null) else Null
  }

  /** A price entry that does not make `float()` raise: falsy, or convertible. */
  predicate Convertible(rt: Runtime, p: Value) {
    !Truthy(p) || ToFloat(rt, p).Ok?
  }

  /** `_process_price_range`. */
  function ProcessPriceRange(rt: Runtime, v: Value): (r: Result<PriceRange>)
    ensures !v.Obj? ==> r == Err(AttributeError)
    ensures r.Ok? <==>
      v.Obj? && Convertible(rt, PriceField(v, "min_price")) && Convertible(rt, PriceField(v, "max_price"))
    // both bounds falsy: the fixed default, whatever currency or flag is given
    ensures v.Obj? && !Truthy(PriceField(v, "min_price")) && !Truthy(PriceField(v, "max_price")) ==>
      r == Ok(DefaultPriceRange)
    // a falsy bound that is not the only falsy one
    ensures r.Ok? && !Truthy(PriceField(v, "min_price")) ==> r.value.minPrice == 0.0
    ensures r.Ok? && !Truthy(PriceField(v, "max_price")) ==> r.value.maxPrice == r.value.minPrice * 1.2
    // a truthy bound is its float value
    ensures r.Ok? && Truthy(PriceField(v, "min_price")) ==>
      r.value.minPrice == ToFloat(rt, PriceField(v, "min_price")).value
    ensures r.Ok? && Truthy(PriceField(v, "max_price")) ==>
      r.value.maxPrice == ToFloat(rt, PriceField(v, "max_price")).value
    // currency and per-night flag pass through unless both bounds are falsy
    ensures r.Ok? && (Truthy(PriceField(v, "min_price")) || Truthy(PriceField(v, "max_price"))) ==>
      && r.value.currency == Get(v.fields, "currency", Str("PKR"))
      && r.value.pricePerNight == Get(v.fields, "price_per_night", Bool(true))
  {
    match v
    case Obj(m) =>
      var lo := Get(m, "min_price", Null);
      var hi := Get(m, "max_price", Null);
      if !Truthy(lo) && !Truthy(hi) then Ok(DefaultPriceRange)
      else
        var minPrice := if Truthy(lo) then ToFloat(rt, lo) else Ok(0.0);
        if minPrice.Err? then Err(minPrice.error)
        else
          var maxPrice :=
            if Truthy(hi) then ToFloat(rt, hi)
            else if Truthy(lo) then
              (match ToFloat(rt, lo)
               case Ok(x) => Ok(x * 1.2)
               case Err(e) => Err(e))
            else Ok(0.0);
          if maxPrice.Err? then Err(maxPrice.error)
          else Ok(PriceRange(minPrice.value, maxPrice.value,
                             Get(m, "currency", Str("PKR")),
                             Get(m, "price_per_night", Bool(true))))
    case _ => Err(AttributeError)
  }

  /** A minimum alone gives a maximum 20% above it, and the default
      currency and per-night flag. */
  lemma MaxFromMin(rt: Runtime)
    ensures ProcessPriceRange(rt, Obj(map["min_price" := Num(100.0)])) ==
      Ok(PriceRange(100.0, 120.0, Str("PKR"), Bool(true)))
  {
  }

  /** Nothing keeps prices non-negative or ordered: a negative minimum
      passes through, and a maximum below the minimum is kept. */
  lemma PricesNotValidated(rt: Runtime)
    ensures ProcessPriceRange(rt, Obj(map["min_price" := Num(-5.0)])) ==
      Ok(PriceRange(-5.0, -6.0, Str("PKR"), Bool(true)))
    ensures ProcessPriceRange(rt, Obj(map["min_price" := Num(10.0), "max_price" := Num(1.0)])).value.maxPrice <
      ProcessPriceRange(rt, Obj(map["min_price" := Num(10.0), "max_price" := Num(1.0)])).value.minPrice
  {
  }

  // ---------------------------------------------------------------------
  // Amenities

  datatype Amenity = Amenity(name: string, description: string, isAvailable: bool)

  /** The loop body of `_process_amenities` for one dict entry. */
  function ProcessAmenity(rt: Runtime, m: map<string, Value>): (r: Result<Amenity>)
    ensures r.Ok? <==> Clean(rt, TextField(m, "name")).Ok? && Clean(rt, TextField(m, "description")).Ok?
    ensures r.Ok? ==>
      && Clean(rt, TextField(m, "name")) == Ok(r.value.name)
      && Clean(rt, TextField(m, "description")) == Ok(r.value.description)
      && r.value.isAvailable == Truthy(Get(m, "is_available", Bool(true)))
  {
    var name := Clean(rt, TextField(m, "name"));
    var description := Clean(rt, TextField(m, "description"));
    if name.Err? then Err(name.error)
    else if description.Err? then Err(description.error)
    else Ok(Amenity(name.value, description.value, Truthy(Get(m, "is_available", Bool(true)))))
  }

  /** The dict entries of a list, in order. */
  function Dicts(xs: seq<Value>): (r: seq<map<string, Value>>)
    ensures |r| <= |xs|
    ensures |r| == |xs| <==> forall k :: 0 <= k < |xs| ==> xs[k].Obj?
  {
    if xs == [] then []
    else
      var last := xs[|xs| - 1];
      Dicts(xs[..|xs| - 1]) + if last.Obj? then [last.fields] else []
  }

  lemma {:induction false} DictsAppend(xs: seq<Value>, ys: seq<Value>)
    ensures Dicts(xs + ys) == Dicts(xs) + Dicts(ys)
    decreases |ys|
  {
    if ys == [] {
      assert xs + ys == xs;
    } else {
      var zs := xs + ys;
      assert zs[..|zs| - 1] == xs + ys[..|ys| - 1];
      assert zs[|zs| - 1] == ys[|ys| - 1];
      DictsAppend(xs, ys[..|ys| - 1]);
    }
  }

  /** The dicts of a list are exactly its `Obj` entries. */
  lemma {:induction false} DictsAreTheObjects(xs: seq<Value>)
    ensures forall m :: m in Dicts(xs) <==> Obj(m) in xs
  {
    if xs != [] {
      var init := xs[..|xs| - 1];
      DictsAreTheObjects(init);
      assert xs == init + [xs[|xs| - 1]];
    }
  }

  /** `_process_amenities` on a list: one processed amenity per dict entry,
      in order; the first entry whose text fields `_clean_text` rejects
      makes the whole call raise. */
  function ProcessEntries(rt: Runtime, xs: seq<Value>): (r: Result<seq<Amenity>>)
    ensures r.Ok? <==> forall k :: 0 <= k < |Dicts(xs)| ==> ProcessAmenity(rt, Dicts(xs)[k]).Ok?
    ensures r.Ok? ==> |r.value| == |Dicts(xs)|
    ensures r.Ok? ==> forall k :: 0 <= k < |r.value| ==> Ok(r.value[k]) == ProcessAmenity(rt, Dicts(xs)[k])
  {
    if xs == [] then Ok([])
    else
      var init, last := xs[..|xs| - 1], xs[|xs| - 1];
      assert forall k :: 0 <= k < |Dicts(init)| ==> Dicts(xs)[k] == Dicts(init)[k];
      match ProcessEntries(rt, init)
      case Err(e) => Err(e)
      case Ok(done) =>
        if !last.Obj? then Ok(done)
        else match ProcessAmenity(rt, last.fields)
          case Err(e) =>
            assert Dicts(xs)[|Dicts(xs)| - 1] == last.fields;
            Err(e)
          case Ok(a) => Ok(done + [a])
  }

  /** Once a prefix raises, so does the whole list, with the same error. */
  lemma {:induction false} ErrorStops(rt: Runtime, xs: seq<Value>, i: nat)
    requires i <= |xs| && ProcessEntries(rt, xs[..i]).Err?
    ensures ProcessEntries(rt, xs) == ProcessEntries(rt, xs[..i])
    decreases |xs| - i
  {
    if i < |xs| {
      assert xs[..i + 1][..i] == xs[..i];
      ErrorStops(rt, xs, i + 1);
    } else {
      assert xs[..i] == xs;
    }
  }

  /** `_process_amenities(amenities)` as a value: a list is processed entry
      by entry; a string or a dict iterates over characters or keys, all of
      them strings and so all skipped; None, a bool or a number is not
      iterable and raises TypeError. */
  function Amenities(rt: Runtime, v: Value): (r: Result<seq<Amenity>>)
    ensures v.Null? || v.Bool? || v.Num? ==> r == Err(TypeError)
    ensures v.Str? || v.Obj? ==> r == Ok([])
    ensures v.Arr? ==> r == ProcessEntries(rt, v.items)
  {
    match v
    case Arr(xs) => ProcessEntries(rt, xs)
    case Str(_) => Ok([])
    case Obj(_) => Ok([])
    case _ => Err(TypeError)
  }

  /** A non-dict entry before a dict entry with only a clean name is
      dropped, and the dict gets an empty description and is available. */
  lemma NonDictEntryDropped(rt: Runtime, junk: string, name: string)
    requires IsClean(rt.isWord, name)
    ensures Amenities(rt, Arr([Str(junk), Obj(map["name" := Str(name)])])) == Ok([Amenity(name, "", true)])
  {
    NameOnlyAmenity(rt, map["name" := Str(name)], name);
    SkipThenDict(rt, Str(junk), map["name" := Str(name)]);
  }

  lemma NameOnlyAmenity(rt: Runtime, m: map<string, Value>, name: string)
    requires IsClean(rt.isWord, name) && m == map["name" := Str(name)]
    ensures ProcessAmenity(rt, m) == Ok(Amenity(name, "", true))
  {
    CleanFixedPoint(rt, name);
    NameOnlyFields(m, name);
    assert Clean(rt, Str("")) == Ok("");
  }

  lemma NameOnlyFields(m: map<string, Value>, name: string)
    requires m == map["name" := Str(name)]
    ensures TextField(m, "name") == Str(name) && TextField(m, "description") == Str("")
    ensures Get(m, "is_available", Bool(true)) == Bool(true)
  {
  }

  lemma SkipThenDict(rt: Runtime, x: Value, m: map<string, Value>)
    requires !x.Obj? && ProcessAmenity(rt, m).Ok?
    ensures ProcessEntries(rt, [x, Obj(m)]) == Ok([ProcessAmenity(rt, m).value])
  {
    var xs := [x, Obj(m)];
    assert xs[..1] == [x] && xs[..1][..0] == [];
    assert ProcessEntries(rt, xs[..1]) == Ok([]);
    assert xs[..|xs| - 1] == xs[..1] && xs[|xs| - 1] == Obj(m);
    var a := ProcessAmenity(rt, m).value;
    assert [] + [a] == [a];
  }

  /** `_process_amenities`: the loop that skips non-dict entries and appends
      one processed amenity per dict. */
  method ProcessAmenities(rt: Runtime, v: Value) returns (r: Result<seq<Amenity>>)
    ensures r == Amenities(rt, v)
  {
    match v {
      case Arr(xs) =>
        var processed: seq<Amenity> := [];
        var i := 0;
        while i < |xs|
          invariant 0 <= i <= |xs|
          invariant ProcessEntries(rt, xs[..i]) == Ok(processed)
        {
          assert xs[..i + 1][..i] == xs[..i];
          var amenity := xs[i];
          i := i + 1;
          if !amenity.Obj? {
            continue;
          }
          var a := ProcessAmenity(rt, amenity.fields);
          if a.Err? {
            // the exception leaves the loop; the remaining entries are never read
            ErrorStops(rt, xs, i);
            return Err(a.error);
          }
          processed := processed + [a.value];
        }
        assert xs[..i] == xs;
        r := Ok(processed);
      case Str(_) =>
        r := Ok([]);
      case Obj(_) =>
        r := Ok([]);
      case _ =>
        r := Err(TypeError);
    }
  }
}
