/** The collaborators the loading stages call but that are not modelled:
    the storage client, the image decoder, Python's `str()` of arbitrary
    objects, the resize routine, reading the manifest file and the mask
    geometry routines. Each is a total function supplied by the caller. */
module Oracles {
  import opened Values

  /** A storage client as built by `FileClient(backend, **options)`. */
  datatype Client = Client(backend: Value, options: Value)

  datatype Io = Io(
    connect: (Value, Value) -> Result<Client, Fault>,        // FileClient(backend, **options)
    fetch: (Client, string) -> Result<seq<bv8>, Fault>,      // client.get(path)
    decode: (seq<bv8>, Value) -> Result<Image, Fault>,       // mmcv.imfrombytes(bytes, flag)
    show: Value -> string,                                   // str(v) of a value that is not a str or a path
    resize: (Image, (Value, Value)) -> Result<Image, Fault>, // mmcv.imresize(img, (w, h), 'bicubic')
    readText: Value -> Result<string, Fault>,                // open(file).read(), newlines translated
    randomBbox: Config -> Result<Value, Fault>,              // random_bbox(**config)
    bboxToMask: (Value, Value) -> Result<Image, Fault>,      // bbox2mask(img_shape, bbox)
    irregularMask: Config -> Result<Image, Fault>,           // get_irregular_mask(**config)
    brushStrokeMask: Config -> Result<Image, Fault>          // brush_stroke_mask(**config)
  )

  /** Python's `str(v)`: the identity on strings, the text of a path. */
  function Str(io: Io, v: Value): string
  {
    match v
    case VStr(s) => s
    case VPath(p) => p
    case _ => io.show(v)
  }

  /** The text `pathlib.Path(v)` is built from; anything but a string or a
      path is a TypeError. */
  function PathText(v: Value): Result<string, Error>
  {
    match v
    case VStr(s) => Ok(s)
    case VPath(p) => Ok(p)
    case _ => Err(NotPathLike(TypeName(v)))
  }

  /** Fetches the bytes at `path` and decodes them with `flag`; a failure of
      either step is propagated as it is. */
  function Load(io: Io, client: Client, path: string, flag: Value): (r: Result<Image, Error>)
    ensures io.fetch(client, path).Err? ==> r == Err(Raised(io.fetch(client, path).error))
    ensures io.fetch(client, path).Ok? && io.decode(io.fetch(client, path).value, flag).Err? ==>
              r == Err(Raised(io.decode(io.fetch(client, path).value, flag).error))
    ensures r.Ok? <==> io.fetch(client, path).Ok? && io.decode(io.fetch(client, path).value, flag).Ok?
    ensures r.Ok? ==> r.value == io.decode(io.fetch(client, path).value, flag).value
    ensures r.Err? ==> r.error.Raised?
  {
    match io.fetch(client, path)
    case Err(f) => Err(Raised(f))
    case Ok(bytes) =>
      match io.decode(bytes, flag)
      case Err(f) => Err(Raised(f))
      case Ok(img) => Ok(img)
  }
}
