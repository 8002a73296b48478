/** The values that flow through the loading stages of the data pipeline:
    the sample record (a string-keyed mapping), the abstract images it
    carries, and the errors a stage raises. */
module Values {

  datatype Option<+T> = None | Some(value: T)

  datatype Result<+T, +E> = Ok(value: T) | Err(error: E)

  /** An exception raised by code outside the model: the storage backend,
      the image decoder, the resize routine or a mask geometry routine. */
  datatype Fault = Fault(kind: string, message: string)

  /** The exceptions the loading stages raise themselves, and the foreign
      ones they let through unchanged. */
  datatype Error =
    | MissingKey(key: string)        // KeyError on the record or on the mask configuration
    | NotAList(found: string)        // TypeError: the list loader's path value is not a list
    | NotPathLike(found: string)     // TypeError: pathlib.Path of something other than str or a path
    | InvalidAlpha(name: string)     // AssertionError: a decoded alpha matte of height zero
    | NoAxis                         // IndexError: indexing an axis the array does not have
    | NotIterable(found: string)     // TypeError: unpacking a value that cannot be iterated
    | UnpackCount(count: nat)        // ValueError: unpacking into two names a sequence of another length
    | EmptyRange                     // ValueError: numpy's randint over an empty range
    | NotImplemented(mode: string)   // NotImplementedError: an unknown mask mode
    | Raised(fault: Fault)           // propagated from a collaborator

  /** The dimensions of an array, outermost first (height, width, channels). */
  type Shape = seq<nat>

  /** Pixel content is not modelled; a token records where an array came
      from: a decode, channel 0 of another array, or one row of another
      array. */
  datatype Pixels = Raw(token: nat) | FirstChannel(of: Pixels) | Row(rowOf: Pixels, index: nat)

  datatype Image = Image(shape: Shape, pixels: Pixels)

  /** The Python objects a sample record or a configuration holds. */
  datatype Value =
    | VStr(s: string)
    | VPath(p: string)                // a pathlib.Path, by its (already normalised) text
    | VInt(i: int)
    | VTuple(items: seq<Value>)
    | VList(items: seq<Value>)
    | VImage(img: Image)              // a numpy array
    | VObject(kind: string, id: nat)  // any other object, by its type name

  type Record = map<string, Value>

  type Config = map<string, Value>

  /** The outcome of one pipeline stage: the stage's state afterwards (its
      lazily built client), the record afterwards (Python mutates it in
      place, so it exists on failure too) and the exception raised, if any. */
  datatype Step<S> = Step(state: S, record: Record, error: Option<Error>)

  /** The name `type(v).__name__` gives. */
  function TypeName(v: Value): string
  {
    match v
    case VStr(_) => "str"
    case VPath(_) => "PosixPath"
    case VInt(_) => "int"
    case VTuple(_) => "tuple"
    case VList(_) => "list"
    case VImage(_) => "ndarray"
    case VObject(kind, _) => kind
  }

  /** `after` is `before` with exactly the keys in `written` set and every
      other entry untouched. */
  predicate WritesExactly(before: Record, after: Record, written: set<string>)
  {
    && after.Keys == before.Keys + written
    && forall k :: k in before && k !in written ==> after[k] == before[k]
  }

  /** An array's `.shape` as the record stores it: a tuple of ints. */
  function ShapeValue(shape: Shape): (v: Value)
    ensures v.VTuple? && |v.items| == |shape|
  {
    VTuple(seq(|shape|, i requires 0 <= i < |shape| => VInt(shape[i])))
  }

  /** Reads a value back as a shape: a tuple of non-negative ints. */
  function AsShape(v: Value): Option<Shape>
  {
    if v.VTuple? && forall i :: 0 <= i < |v.items| ==> v.items[i].VInt? && v.items[i].i >= 0
    then Some(seq(|v.items|, i requires 0 <= i < |v.items| && v.items[i].VInt? && v.items[i].i >= 0 =>
                                (v.items[i].i as nat)))
    else None
  }

  /** Storing a shape in the record loses nothing, and the shape values are
      exactly the tuples of non-negative ints. */
  lemma ShapeValueRoundTrip(shape: Shape, v: Value)
    ensures AsShape(ShapeValue(shape)) == Some(shape)
    ensures AsShape(v).Some? ==> ShapeValue(AsShape(v).value) == v
  {
    var sv := ShapeValue(shape);
    assert forall i :: 0 <= i < |sv.items| ==> sv.items[i] == VInt(shape[i]);
    assert AsShape(sv).value == shape;
    if AsShape(v).Some? {
      assert ShapeValue(AsShape(v).value).items == v.items;
    }
  }

  /** Row `i` of an array: the array with its first axis dropped. */
  function RowOf(img: Image, i: nat): (r: Image)
    requires |img.shape| > 0 && i < img.shape[0]
    ensures r.shape == img.shape[1..]
  {
    Image(img.shape[1..], Row(img.pixels, i))
  }

  /** What iterating over a value yields, when it can be iterated: the
      characters of a string, the items of a tuple or list, the rows of an
      array with at least one axis (a 0-d array cannot be iterated). */
  function Items(v: Value): (r: Option<seq<Value>>)
    ensures v.VImage? ==>
              && (r.Some? <==> |v.img.shape| > 0)
              && (r.Some? ==> |r.value| == v.img.shape[0]
                              && forall i :: 0 <= i < |r.value| ==> r.value[i] == VImage(RowOf(v.img, i)))
  {
    match v
    case VStr(s) => Some(seq(|s|, i requires 0 <= i < |s| => VStr([s[i]])))
    case VTuple(items) => Some(items)
    case VList(items) => Some(items)
    case VImage(img) =>
      if |img.shape| == 0 then None
      else Some(seq(img.shape[0], i requires 0 <= i < img.shape[0] => VImage(RowOf(img, i))))
    case _ => None
  }

  /** Unpacking an array into two names succeeds exactly when its first
      axis has length two, and yields its two rows. */
  lemma UnpackArray(img: Image)
    ensures |img.shape| > 0 && img.shape[0] == 2 <==> Unpack2(VImage(img)).Ok?
    ensures Unpack2(VImage(img)).Ok? ==>
              Unpack2(VImage(img)).value == (VImage(RowOf(img, 0)), VImage(RowOf(img, 1)))
    ensures |img.shape| == 0 ==> Unpack2(VImage(img)) == Err(NotIterable("ndarray"))
  {
    if |img.shape| > 0 && img.shape[0] == 2 {
      var rows := Items(VImage(img)).value;
      assert rows[0] == VImage(RowOf(img, 0)) && rows[1] == VImage(RowOf(img, 1));
    }
  }

  /** The assignment `a, b = v`. */
  function Unpack2(v: Value): (r: Result<(Value, Value), Error>)
    ensures Items(v).None? <==> r == Err(NotIterable(TypeName(v)))
    ensures Items(v).Some? && |Items(v).value| != 2 ==> r == Err(UnpackCount(|Items(v).value|))
    ensures r.Ok? <==> Items(v).Some? && |Items(v).value| == 2
    ensures r.Ok? ==> [r.value.0, r.value.1] == Items(v).value
  {
    match Items(v)
    case None => Err(NotIterable(TypeName(v)))
    case Some(xs) => if |xs| == 2 then Ok((xs[0], xs[1])) else Err(UnpackCount(|xs|))
  }
}
