/** The aggregation loop of `process_all_files`: each file's accepted
    records, file after file, with a file that raises skipped whole.

    A file is given as the outcome of `json.load` on it: the parsed value,
    or the error that reading or parsing raised. */
module Batch {
  import opened Py
  import opened HotelRecord

  // ---------------------------------------------------------------------
  // The two list shapes of the processor, for any step function

  /** Applies `f` to each element in order and keeps the `Some` results;
      the first element for which `f` raises makes the whole raise. */
  function Collect<A, B>(f: A -> Result<Option<B>>, xs: seq<A>): (r: Result<seq<B>>)
    ensures r.Ok? ==> |r.value| <= |xs|
  {
    if xs == [] then Ok([])
    else
      match Collect(f, xs[..|xs| - 1])
      case Err(e) => Err(e)
      case Ok(done) =>
        match f(xs[|xs| - 1])
        case Err(e) => Err(e)
        case Ok(None) => Ok(done)
        case Ok(Some(y)) => Ok(done + [y])
  }

  /** `Collect` succeeds exactly when no element raises, and otherwise
      fails with the error of some element. */
  lemma {:induction false} CollectOk<A, B>(f: A -> Result<Option<B>>, xs: seq<A>)
    ensures Collect(f, xs).Ok? <==> forall i :: 0 <= i < |xs| ==> f(xs[i]).Ok?
    ensures Collect(f, xs).Err? ==> exists i :: 0 <= i < |xs| && f(xs[i]) == Err(Collect(f, xs).error)
  {
    if xs != [] {
      var init := xs[..|xs| - 1];
      CollectOk(f, init);
      assert forall i :: 0 <= i < |init| ==> init[i] == xs[i];
    }
  }

  /** The results of `Collect` are exactly the `Some` values of its elements. */
  lemma {:induction false} CollectMembers<A, B>(f: A -> Result<Option<B>>, xs: seq<A>)
    requires Collect(f, xs).Ok?
    ensures forall y :: y in Collect(f, xs).value <==> exists i :: 0 <= i < |xs| && f(xs[i]) == Ok(Some(y))
  {
    if xs != [] {
      var init := xs[..|xs| - 1];
      CollectMembers(f, init);
      assert forall i :: 0 <= i < |init| ==> init[i] == xs[i];
      forall y | exists i :: 0 <= i < |xs| && f(xs[i]) == Ok(Some(y))
        ensures y in Collect(f, xs).value
      {
        var i :| 0 <= i < |xs| && f(xs[i]) == Ok(Some(y));
        if i < |init| {
          assert f(init[i]) == Ok(Some(y));
        }
      }
    }
  }

  /** `Collect` over a concatenation is the concatenation of the results,
      in order; the first part's error, if any, wins. */
  lemma {:induction false} CollectAppend<A, B>(f: A -> Result<Option<B>>, xs: seq<A>, ys: seq<A>)
    ensures Collect(f, xs + ys) ==
      if Collect(f, xs).Err? then Collect(f, xs)
      else if Collect(f, ys).Err? then Collect(f, ys)
      else Ok(Collect(f, xs).value + Collect(f, ys).value)
    decreases |ys|
  {
    if ys == [] {
      assert xs + ys == xs;
      assert Collect(f, ys) == Ok([]);
      if Collect(f, xs).Ok? {
        assert Collect(f, xs).value + [] == Collect(f, xs).value;
      }
    } else {
      var zs, init := xs + ys, ys[..|ys| - 1];
      assert zs[..|zs| - 1] == xs + init;
      assert zs[|zs| - 1] == ys[|ys| - 1];
      CollectAppend(f, xs, init);
      if Collect(f, xs).Ok? && Collect(f, init).Ok? && Collect(f, ys).Ok? {
        var a, b := Collect(f, xs).value, Collect(f, init).value;
        match f(ys[|ys| - 1])
        case Ok(None) =>
        case Ok(Some(y)) =>
          assert a + b + [y] == a + (b + [y]);
      }
    }
  }

  /** The concatenation of `f(x)` over the elements, in order. */
  function ConcatMap<A, B>(f: A -> seq<B>, xs: seq<A>): seq<B>
  {
    if xs == [] then [] else ConcatMap(f, xs[..|xs| - 1]) + f(xs[|xs| - 1])
  }

  lemma {:induction false} ConcatMapAppend<A, B>(f: A -> seq<B>, xs: seq<A>, ys: seq<A>)
    ensures ConcatMap(f, xs + ys) == ConcatMap(f, xs) + ConcatMap(f, ys)
    decreases |ys|
  {
    if ys == [] {
      assert xs + ys == xs;
    } else {
      var zs := xs + ys;
      assert zs[..|zs| - 1] == xs + ys[..|ys| - 1];
      assert zs[|zs| - 1] == ys[|ys| - 1];
      ConcatMapAppend(f, xs, ys[..|ys| - 1]);
    }
  }

  lemma {:induction false} ConcatMapMembers<A, B>(f: A -> seq<B>, xs: seq<A>)
    ensures forall y :: y in ConcatMap(f, xs) <==> exists i :: 0 <= i < |xs| && y in f(xs[i])
  {
    if xs != [] {
      var init := xs[..|xs| - 1];
      ConcatMapMembers(f, init);
      assert forall i :: 0 <= i < |init| ==> init[i] == xs[i];
      forall y | exists i :: 0 <= i < |xs| && y in f(xs[i])
        ensures y in ConcatMap(f, xs)
      {
        var i :| 0 <= i < |xs| && y in f(xs[i]);
        if i < |init| {
          assert y in f(init[i]);
        }
      }
    }
  }

  // ---------------------------------------------------------------------
  // The records of one file

  function HotelStep(rt: Runtime): Value -> Result<Option<Hotel>> {
    v => ProcessHotel(rt, v)
  }

  /** `[self._process_hotel(h) for h in hotels]` followed by the filter
      that drops `None`. A record that is not a dict raises, and so does
      the list. */
  function ProcessRecords(rt: Runtime, xs: seq<Value>): (r: Result<seq<Hotel>>)
    ensures r.Ok? <==> forall i :: 0 <= i < |xs| ==> xs[i].Obj?
    ensures r.Err? ==> r.error == AttributeError
    ensures r.Ok? ==> forall h :: h in r.value <==> exists i :: 0 <= i < |xs| && ProcessHotel(rt, xs[i]) == Ok(Some(h))
    ensures r.Ok? ==> forall h :: h in r.value ==> Acceptable(rt, h)
  {
    CollectOk(HotelStep(rt), xs);
    if Collect(HotelStep(rt), xs).Ok? then
      CollectMembers(HotelStep(rt), xs);
      Collect(HotelStep(rt), xs)
    else
      Collect(HotelStep(rt), xs)
  }

  /** Records keep their order: processing a concatenation is processing
      each part and concatenating. */
  lemma ProcessRecordsAppend(rt: Runtime, xs: seq<Value>, ys: seq<Value>)
    ensures ProcessRecords(rt, xs + ys) ==
      if ProcessRecords(rt, xs).Ok? && ProcessRecords(rt, ys).Ok?
      then Ok(ProcessRecords(rt, xs).value + ProcessRecords(rt, ys).value)
      else Err(AttributeError)
  {
    CollectAppend(HotelStep(rt), xs, ys);
  }

  /** One record: raised, rejected or accepted. With `ProcessRecordsAppend`
      this fixes the result of any list, each accepted record appearing
      once, at its place. */
  lemma ProcessRecordsSingle(rt: Runtime, x: Value)
    ensures ProcessRecords(rt, [x]) ==
      match ProcessHotel(rt, x)
      case Err(e) => Err(e)
      case Ok(None) => Ok([])
      case Ok(Some(h)) => Ok([h])
  {
    var xs := [x];
    assert xs[..|xs| - 1] == [] && xs[|xs| - 1] == x;
    assert HotelStep(rt)(x) == ProcessHotel(rt, x);
    assert Collect(HotelStep(rt), []) == Ok([]);
    if ProcessHotel(rt, x).Ok? && ProcessHotel(rt, x).value.Some? {
      var h := ProcessHotel(rt, x).value.value;
      assert [] + [h] == [h];
    }
  }

  // ---------------------------------------------------------------------
  // Files

  /** The body of the `try` block for one parsed file: iterate over the
      parsed value and process each record. Iterating a string or a dict
      yields strings, each of which makes `_process_hotel` raise, so such a
      file contributes nothing; None, a bool or a number is not iterable. */
  function ProcessFile(rt: Runtime, parsed: Value): (r: Result<seq<Hotel>>)
    ensures r.Ok? ==> parsed.Arr? || parsed == Str("") || parsed == Obj(map[])
    ensures r.Ok? ==> forall h :: h in r.value ==> Acceptable(rt, h)
  {
    match parsed
    case Arr(xs) => ProcessRecords(rt, xs)
    case Str(s) => if s == "" then Ok([]) else Err(AttributeError)
    case Obj(m) => if m == map[] then Ok([]) else Err(AttributeError)
    case _ => Err(TypeError)
  }

  /** What one file adds to the aggregate: all its accepted records, or
      nothing when reading, parsing or processing it raised. */
  function Contribution(rt: Runtime, file: Result<Value>): (r: seq<Hotel>)
    ensures forall h :: h in r ==> Acceptable(rt, h)
    ensures file.Err? ==> r == []
    ensures r != [] ==> file.Ok? && file.value.Arr? && ProcessRecords(rt, file.value.items) == Ok(r)
    ensures file.Ok? && file.value.Arr? && (forall i :: 0 <= i < |file.value.items| ==> file.value.items[i].Obj?) ==>
      ProcessRecords(rt, file.value.items) == Ok(r)
  {
    match file
    case Err(_) => []
    case Ok(parsed) =>
      match ProcessFile(rt, parsed)
      case Err(_) => []
      case Ok(hotels) => hotels
  }

  function FileStep(rt: Runtime): Result<Value> -> seq<Hotel> {
    file => Contribution(rt, file)
  }

  /** The aggregate over a list of files, in file order. */
  function AllHotels(rt: Runtime, files: seq<Result<Value>>): (r: seq<Hotel>)
    ensures forall h :: h in r ==> Acceptable(rt, h)
  {
    ConcatMapMembers(FileStep(rt), files);
    ConcatMap(FileStep(rt), files)
  }

  /** Aggregating two lists of files is aggregating each and concatenating:
      files are independent and their order is kept. */
  lemma AllHotelsAppend(rt: Runtime, fs: seq<Result<Value>>, gs: seq<Result<Value>>)
    ensures AllHotels(rt, fs + gs) == AllHotels(rt, fs) + AllHotels(rt, gs)
  {
    ConcatMapAppend(FileStep(rt), fs, gs);
  }

  /** One file contributes exactly its own hotels. */
  lemma AllHotelsSingle(rt: Runtime, f: Result<Value>)
    ensures AllHotels(rt, [f]) == Contribution(rt, f)
  {
    var fs := [f];
    assert fs[..|fs| - 1] == [] && fs[|fs| - 1] == f;
    assert FileStep(rt)(f) == Contribution(rt, f);
    assert ConcatMap(FileStep(rt), []) == [];
    assert [] + Contribution(rt, f) == Contribution(rt, f);
  }

  /** A file that raises contributes nothing and does not stop the files
      after it. */
  lemma FailedFileSkipped(rt: Runtime, before: seq<Result<Value>>, e: Error, after: seq<Result<Value>>)
    ensures AllHotels(rt, before + [Err(e)] + after) == AllHotels(rt, before) + AllHotels(rt, after)
  {
    var failed: seq<Result<Value>> := [Err(e)];
    AllHotelsAppend(rt, before + failed, after);
    AllHotelsAppend(rt, before, failed);
    assert failed[..0] == [];
  }

  /** A hotel is in the aggregate exactly when some file parsed to a list
      of dict records one of which is accepted as that hotel. */
  lemma AllHotelsMembers(rt: Runtime, files: seq<Result<Value>>, h: Hotel)
    ensures h in AllHotels(rt, files) <==>
      exists i :: 0 <= i < |files| && files[i].Ok? && files[i].value.Arr? &&
        ProcessRecords(rt, files[i].value.items).Ok? && h in ProcessRecords(rt, files[i].value.items).value
  {
    ConcatMapMembers(FileStep(rt), files);
  }

  /** `process_all_files`, without the directory listing and the output
      files: the loop that extends `all_hotels` file by file. */
  method ProcessAllFiles(rt: Runtime, files: seq<Result<Value>>) returns (allHotels: seq<Hotel>)
    ensures allHotels == AllHotels(rt, files)
  {
    allHotels := [];
    var i := 0;
    while i < |files|
      invariant 0 <= i <= |files|
      invariant allHotels == AllHotels(rt, files[..i])
    {
      assert files[..i + 1][..i] == files[..i];
      match files[i] {
        case Err(_) =>
          // reading or parsing raised: logged, and the loop goes on
        case Ok(parsed) =>
          var processed := ProcessFile(rt, parsed);
          if processed.Ok? {
            allHotels := allHotels + processed.value;
          }
      }
      i := i + 1;
    }
    assert files[..i] == files;
  }
}
