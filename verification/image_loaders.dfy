/** The file-image loaders: `LoadImageFromFile` (one image),
    `LoadImageFromFileList` (a list of images) and `LoadAlpha` (an alpha
    matte). Each reads `{key}_path` from the sample record, fetches and
    decodes the image through its lazily built client and writes its keys. */
module ImageLoaders {
  import opened Values
  import opened Oracles
  import opened LazyClient
  import Paths

  /** The constructor arguments `io_backend`, `key`, `flag`,
      `save_original_img` and the client keyword options. */
  datatype LoaderConfig = LoaderConfig(
    ioBackend: Value,
    key: string,
    flag: Value,
    saveOriginal: bool,
    clientOptions: Value)

  datatype ImageLoader = ImageLoader(config: LoaderConfig, client: Option<Client>)

  /** `LoadImageFromFile.__init__`, which the list and alpha loaders
      inherit, with its default arguments; `clientOptions` is the
      `**kwargs` mapping handed to the client. A freshly constructed loader
      has not built its client yet. */
  function NewImageLoader(clientOptions: Value, ioBackend: Value := VStr("disk"), key: string := "gt",
                          flag: Value := VStr("color"), saveOriginal: bool := false): (loader: ImageLoader)
    ensures loader.config == LoaderConfig(ioBackend, key, flag, saveOriginal, clientOptions)
    ensures loader.client.None?
  {
    ImageLoader(LoaderConfig(ioBackend, key, flag, saveOriginal, clientOptions), None)
  }

  /** The defaults: the disk backend, key 'gt', the 'color' flag and no
      copy of the original image. */
  lemma DefaultLoader(clientOptions: Value)
    ensures var c := NewImageLoader(clientOptions).config;
            && c.ioBackend == VStr("disk") && c.key == "gt" && c.flag == VStr("color") && !c.saveOriginal
            && c.clientOptions == clientOptions
            && LoaderKeys(c) == {"gt", "gt_path", "gt_ori_shape"}
  {
    assert PathKey("gt") == "gt_path" && OriShapeKey("gt") == "gt_ori_shape";
  }

  function PathKey(key: string): string { key + "_path" }

  function OriShapeKey(key: string): string { key + "_ori_shape" }

  function OriginalKey(key: string): string { "ori_" + key }

  /** The keys the single and the list loader write. */
  function LoaderKeys(config: LoaderConfig): set<string>
  {
    {config.key, PathKey(config.key), OriShapeKey(config.key)}
    + (if config.saveOriginal then {OriginalKey(config.key)} else {})
  }

  /** The writes of a successful single or list load: the image under
      `key`, the path under `{key}_path`, the shape under `{key}_ori_shape`
      and, when asked for, the image again under `ori_{key}`. The four keys
      differ in length, so no write overwrites another. */
  function WriteLoaded(rec: Record, config: LoaderConfig, image: Value, path: Value, shape: Value): (out: Record)
    ensures WritesExactly(rec, out, LoaderKeys(config))
    ensures out[config.key] == image
    ensures out[PathKey(config.key)] == path
    ensures out[OriShapeKey(config.key)] == shape
    ensures config.saveOriginal ==> out[OriginalKey(config.key)] == image
  {
    var key := config.key;
    var out := rec[key := image][PathKey(key) := path][OriShapeKey(key) := shape];
    if config.saveOriginal then out[OriginalKey(key) := image] else out
  }

  /** `np.expand_dims(img, axis=2)` when `img.ndim == 2`: a grey image
      gains a trailing channel axis of size one; any other rank is kept. */
  function AddChannelAxis(img: Image): (r: Image)
    ensures r.pixels == img.pixels
    ensures |img.shape| == 2 ==> r.shape == img.shape + [1]
    ensures |img.shape| != 2 ==> r.shape == img.shape
  {
    if |img.shape| == 2 then Image(img.shape + [1], img.pixels) else img
  }

  /** The decoder yields two- or three-dimensional arrays; after the
      channel axis is added every one of them is (H, W, C), and adding it
      again changes nothing. */
  lemma ChannelLast(img: Image)
    requires 2 <= |img.shape| <= 3
    ensures |AddChannelAxis(img).shape| == 3
    ensures AddChannelAxis(img).shape[..2] == img.shape[..2]
    ensures AddChannelAxis(AddChannelAxis(img)) == AddChannelAxis(img)
  {
  }

  /** `LoadImageFromFile.__call__`. */
  function LoadImage(io: Io, loader: ImageLoader, rec: Record): (r: Step<ImageLoader>)
    ensures r.state.config == loader.config
    ensures Reuses(io, loader.config.ioBackend, loader.config.clientOptions, loader.client, r.state.client)
    ensures r.error.Some? ==> r.record == rec
    ensures r.state.client.None? ==>
              r.error == Some(Raised(io.connect(loader.config.ioBackend, loader.config.clientOptions).error))
    ensures r.state.client.Some? && PathKey(loader.config.key) !in rec ==>
              r.error == Some(MissingKey(PathKey(loader.config.key)))
    ensures r.state.client.Some? && PathKey(loader.config.key) in rec ==>
              var loaded := Load(io, r.state.client.value, Str(io, rec[PathKey(loader.config.key)]), loader.config.flag);
              loaded.Err? ==> r.error == Some(loaded.error)
    ensures r.error.None? <==>
              && r.state.client.Some?
              && PathKey(loader.config.key) in rec
              && Load(io, r.state.client.value, Str(io, rec[PathKey(loader.config.key)]), loader.config.flag).Ok?
    ensures r.error.None? ==>
              var key := loader.config.key;
              var path := Str(io, rec[PathKey(key)]);
              var img := AddChannelAxis(Load(io, r.state.client.value, path, loader.config.flag).value);
              && WritesExactly(rec, r.record, LoaderKeys(loader.config))
              && r.record[key] == VImage(img)
              && r.record[PathKey(key)] == VStr(path)
              && r.record[OriShapeKey(key)] == ShapeValue(img.shape)
              && (loader.config.saveOriginal ==> r.record[OriginalKey(key)] == VImage(img))
  {
    var c := loader.config;
    var acquired := Acquire(io, loader.client, c.ioBackend, c.clientOptions);
    var state := loader.(client := acquired.0);
    if acquired.1.Err? then Step(state, rec, Some(acquired.1.error))
    else if PathKey(c.key) !in rec then Step(state, rec, Some(MissingKey(PathKey(c.key))))
    else
      var path := Str(io, rec[PathKey(c.key)]);
      match Load(io, acquired.1.value, path, c.flag)
      case Err(e) => Step(state, rec, Some(e))
      case Ok(raw) =>
        var img := AddChannelAxis(raw);
        Step(state, WriteLoaded(rec, c, VImage(img), VStr(path), ShapeValue(img.shape)), None)
  }

  /** Loading the same record again, with the same loader, changes nothing:
      the path is already a string and the client is reused. */
  lemma LoadImageIdempotent(io: Io, loader: ImageLoader, rec: Record)
    requires LoadImage(io, loader, rec).error.None?
    ensures var r := LoadImage(io, loader, rec);
            LoadImage(io, r.state, r.record) == r
  {
    var r := LoadImage(io, loader, rec);
    var key := loader.config.key;
    assert r.record[PathKey(key)] == VStr(Str(io, rec[PathKey(key)]));
  }

  /** `[str(v) for v in filepaths]`. */
  function Strs(io: Io, vs: seq<Value>): (paths: seq<string>)
    ensures |paths| == |vs|
    ensures forall i :: 0 <= i < |vs| ==> paths[i] == Str(io, vs[i])
  {
    seq(|vs|, i requires 0 <= i < |vs| => Str(io, vs[i]))
  }

  /** The record values the list loader stores. */
  function StrValues(paths: seq<string>): (vs: seq<Value>)
    ensures |vs| == |paths| && forall i :: 0 <= i < |paths| ==> vs[i] == VStr(paths[i])
  {
    seq(|paths|, i requires 0 <= i < |paths| => VStr(paths[i]))
  }

  /** The index of the first of `paths[from..]` that fails to load, or
      `|paths|` when every one of them loads. */
  function FirstFailure(io: Io, client: Client, paths: seq<string>, flag: Value, from: nat := 0): (k: nat)
    requires from <= |paths|
    ensures from <= k <= |paths|
    ensures forall j :: from <= j < k ==> Load(io, client, paths[j], flag).Ok?
    ensures k < |paths| ==> Load(io, client, paths[k], flag).Err?
    decreases |paths| - from
  {
    if from == |paths| || Load(io, client, paths[from], flag).Err? then from
    else FirstFailure(io, client, paths, flag, from + 1)
  }

  /** The loop of `LoadImageFromFileList.__call__`: loads every path in
      order and stops at the first that fails, whose error it raises. */
  method LoadAll(io: Io, client: Client, paths: seq<string>, flag: Value) returns (r: Result<(seq<Value>, seq<Value>), Error>)
    ensures r.Ok? <==> FirstFailure(io, client, paths, flag) == |paths|
    ensures r.Err? ==> r.error == Load(io, client, paths[FirstFailure(io, client, paths, flag)], flag).error
    ensures r.Ok? ==>
              && |r.value.0| == |paths| && |r.value.1| == |paths|
              && forall j :: 0 <= j < |paths| ==>
                   && r.value.0[j] == VImage(AddChannelAxis(Load(io, client, paths[j], flag).value))
                   && r.value.1[j] == ShapeValue(AddChannelAxis(Load(io, client, paths[j], flag).value).shape)
  {
    var imgs: seq<Value> := [];
    var shapes: seq<Value> := [];
    var i := 0;
    while i < |paths|
      invariant 0 <= i <= FirstFailure(io, client, paths, flag)
      invariant |imgs| == i && |shapes| == i
      invariant forall j :: 0 <= j < i ==>
                  && imgs[j] == VImage(AddChannelAxis(Load(io, client, paths[j], flag).value))
                  && shapes[j] == ShapeValue(AddChannelAxis(Load(io, client, paths[j], flag).value).shape)
    {
      var loaded := Load(io, client, paths[i], flag);
      if loaded.Err? {
        return Err(loaded.error);
      }
      var img := AddChannelAxis(loaded.value);
      imgs := imgs + [VImage(img)];
      shapes := shapes + [ShapeValue(img.shape)];
      i := i + 1;
    }
    r := Ok((imgs, shapes));
  }

  /** `LoadImageFromFileList.__call__`: every image is loaded before any key
      is written, so a failure part-way leaves the record as it was. */
  method LoadImageList(io: Io, loader: ImageLoader, rec: Record) returns (r: Step<ImageLoader>)
    ensures r.state.config == loader.config
    ensures Reuses(io, loader.config.ioBackend, loader.config.clientOptions, loader.client, r.state.client)
    ensures r.error.Some? ==> r.record == rec
    ensures r.state.client.Some? && PathKey(loader.config.key) !in rec ==>
              r.error == Some(MissingKey(PathKey(loader.config.key)))
    ensures r.state.client.None? ==>
              r.error == Some(Raised(io.connect(loader.config.ioBackend, loader.config.clientOptions).error))
    ensures r.state.client.Some? && PathKey(loader.config.key) in rec && !rec[PathKey(loader.config.key)].VList? ==>
              r.error == Some(NotAList(TypeName(rec[PathKey(loader.config.key)])))
    ensures r.state.client.Some? && PathKey(loader.config.key) in rec && rec[PathKey(loader.config.key)].VList? ==>
              var inputs := rec[PathKey(loader.config.key)].items;
              var k := FirstFailure(io, r.state.client.value, Strs(io, inputs), loader.config.flag);
              k < |inputs| ==> r.error == Some(Load(io, r.state.client.value, Str(io, inputs[k]), loader.config.flag).error)
    ensures r.error.None? <==>
              && r.state.client.Some?
              && PathKey(loader.config.key) in rec
              && rec[PathKey(loader.config.key)].VList?
              && forall v :: v in rec[PathKey(loader.config.key)].items ==>
                   Load(io, r.state.client.value, Str(io, v), loader.config.flag).Ok?
    ensures r.error.None? ==>
              var key := loader.config.key;
              var inputs := rec[PathKey(key)].items;
              && WritesExactly(rec, r.record, LoaderKeys(loader.config))
              && r.record[PathKey(key)] == VList(StrValues(Strs(io, inputs)))
              && r.record[key].VList? && |r.record[key].items| == |inputs|
              && r.record[OriShapeKey(key)].VList? && |r.record[OriShapeKey(key)].items| == |inputs|
              && (forall i :: 0 <= i < |inputs| ==>
                    var img := AddChannelAxis(Load(io, r.state.client.value, Str(io, inputs[i]), loader.config.flag).value);
                    && r.record[key].items[i] == VImage(img)
                    && r.record[OriShapeKey(key)].items[i] == ShapeValue(img.shape))
              && (loader.config.saveOriginal ==> r.record[OriginalKey(key)] == r.record[key])
  {
    var c := loader.config;
    var acquired := Acquire(io, loader.client, c.ioBackend, c.clientOptions);
    var state := loader.(client := acquired.0);
    if acquired.1.Err? {
      return Step(state, rec, Some(acquired.1.error));
    }
    var client := acquired.1.value;
    if PathKey(c.key) !in rec {
      return Step(state, rec, Some(MissingKey(PathKey(c.key))));
    }
    var given := rec[PathKey(c.key)];
    if !given.VList? {
      return Step(state, rec, Some(NotAList(TypeName(given))));
    }
    var paths := Strs(io, given.items);
    var loaded := LoadAll(io, client, paths, c.flag);
    if loaded.Err? {
      assert given.items[FirstFailure(io, client, paths, c.flag)] in given.items;
      return Step(state, rec, Some(loaded.error));
    }
    var (imgs, shapes) := loaded.value;
    r := Step(state, WriteLoaded(rec, c, VList(imgs), VList(StrValues(paths)), VList(shapes)), None);
  }

  /** The keys the alpha loader writes, whatever its `key`. */
  const AlphaKeys: set<string> := {"alpha", "img_name", "ori_alpha", "ori_shape", "img_shape"}

  /** The writes of a successful alpha load. */
  function WriteAlpha(rec: Record, alpha: Image, name: string): (out: Record)
    ensures WritesExactly(rec, out, AlphaKeys)
    ensures out["alpha"] == out["ori_alpha"] == VImage(alpha)
    ensures out["ori_shape"] == out["img_shape"] == ShapeValue(alpha.shape)
    ensures out["img_name"] == VStr(name)
  {
    rec["alpha" := VImage(alpha)]["img_name" := VStr(name)]["ori_alpha" := VImage(alpha)]
       ["ori_shape" := ShapeValue(alpha.shape)]["img_shape" := ShapeValue(alpha.shape)]
  }

  /** Writing the same matte twice is writing it once. */
  lemma WriteAlphaTwice(rec: Record, alpha: Image, name: string)
    ensures WriteAlpha(WriteAlpha(rec, alpha, name), alpha, name) == WriteAlpha(rec, alpha, name)
  {
  }

  /** No `{key}_path` is one of the alpha loader's keys: they do not end in 'h'. */
  lemma PathKeyNotAlphaKey(key: string)
    ensures PathKey(key) !in AlphaKeys
  {
    var pk := PathKey(key);
    assert pk[|pk| - 1] == 'h';
  }

  /** The checked part of an alpha load: decode the matte at `given`, name
      it after the path's final segment and reject a matte of height zero. */
  function ReadAlpha(io: Io, client: Client, given: Value, flag: Value): (r: Result<(Image, string), Error>)
  {
    match Load(io, client, Str(io, given), flag)
    case Err(e) => Err(e)
    case Ok(alpha) =>
      match PathText(given)
      case Err(e) => Err(e)
      case Ok(text) =>
        var name := Paths.Name(text);
        if |alpha.shape| == 0 then Err(NoAxis)
        else if alpha.shape[0] == 0 then Err(InvalidAlpha(name))
        else Ok((alpha, name))
  }

  /** `LoadAlpha.__call__`: reads `{key}_path` but always writes the
      `alpha` keys; the decoded matte is stored without a channel axis. */
  function LoadAlpha(io: Io, loader: ImageLoader, rec: Record): (r: Step<ImageLoader>)
    ensures r.state.config == loader.config
    ensures Reuses(io, loader.config.ioBackend, loader.config.clientOptions, loader.client, r.state.client)
    ensures r.error.Some? ==> r.record == rec
    ensures r.state.client.None? ==>
              r.error == Some(Raised(io.connect(loader.config.ioBackend, loader.config.clientOptions).error))
    ensures r.state.client.Some? && PathKey(loader.config.key) !in rec ==>
              r.error == Some(MissingKey(PathKey(loader.config.key)))
    ensures r.state.client.Some? && PathKey(loader.config.key) in rec ==>
              var loaded := Load(io, r.state.client.value, Str(io, rec[PathKey(loader.config.key)]), loader.config.flag);
              var named := PathText(rec[PathKey(loader.config.key)]);
              && (loaded.Err? ==> r.error == Some(loaded.error))
              && (loaded.Ok? && named.Err? ==> r.error == Some(named.error))
              && (loaded.Ok? && named.Ok? && |loaded.value.shape| == 0 ==> r.error == Some(NoAxis))
    ensures r.error.None? <==>
              && r.state.client.Some?
              && PathKey(loader.config.key) in rec
              && var loaded := Load(io, r.state.client.value, Str(io, rec[PathKey(loader.config.key)]), loader.config.flag);
              && loaded.Ok?
              && PathText(rec[PathKey(loader.config.key)]).Ok?
              && |loaded.value.shape| > 0 && loaded.value.shape[0] > 0
    ensures r.state.client.Some? && PathKey(loader.config.key) in rec ==>
              var loaded := Load(io, r.state.client.value, Str(io, rec[PathKey(loader.config.key)]), loader.config.flag);
              var named := PathText(rec[PathKey(loader.config.key)]);
              loaded.Ok? && named.Ok? && |loaded.value.shape| > 0 && loaded.value.shape[0] == 0 ==>
                r.error == Some(InvalidAlpha(Paths.Name(named.value)))
    ensures r.error.None? ==>
              var pk := PathKey(loader.config.key);
              var alpha := Load(io, r.state.client.value, Str(io, rec[pk]), loader.config.flag).value;
              && WritesExactly(rec, r.record, AlphaKeys)
              && r.record["alpha"] == r.record["ori_alpha"] == VImage(alpha)
              && r.record["ori_shape"] == r.record["img_shape"] == ShapeValue(alpha.shape)
              && r.record["img_name"] == VStr(Paths.Name(PathText(rec[pk]).value))
              && r.record[pk] == rec[pk]
  {
    var c := loader.config;
    var acquired := Acquire(io, loader.client, c.ioBackend, c.clientOptions);
    var state := loader.(client := acquired.0);
    if acquired.1.Err? then Step(state, rec, Some(acquired.1.error))
    else if PathKey(c.key) !in rec then Step(state, rec, Some(MissingKey(PathKey(c.key))))
    else
      var found := ReadAlpha(io, acquired.1.value, rec[PathKey(c.key)], c.flag);
      if found.Err? then Step(state, rec, Some(found.error))
      else
        PathKeyNotAlphaKey(c.key);
        Step(state, WriteAlpha(rec, found.value.0, found.value.1), None)
  }

  /** Loading the same matte again changes nothing: `{key}_path` is never
      rewritten and the client is reused. */
  lemma LoadAlphaIdempotent(io: Io, loader: ImageLoader, rec: Record)
    ensures var r := LoadAlpha(io, loader, rec);
            r.error.None? ==> LoadAlpha(io, r.state, r.record) == r
  {
    var r := LoadAlpha(io, loader, rec);
    if r.error.Some? { return; }
    var c := loader.config;
    var pk := PathKey(c.key);
    var acquired := Acquire(io, loader.client, c.ioBackend, c.clientOptions);
    var client := acquired.1.value;
    var found := ReadAlpha(io, client, rec[pk], c.flag).value;
    assert r.state == loader.(client := Some(client));
    assert r.record == WriteAlpha(rec, found.0, found.1);
    PathKeyNotAlphaKey(c.key);
    assert r.record[pk] == rec[pk];
    WriteAlphaTwice(rec, found.0, found.1);
  }

  /** A loader built with the defaults reads the matte's path from
      `gt_path`, whatever other path keys the record holds: the alpha
      loader keeps the inherited default key 'gt'. */
  lemma DefaultAlphaReadsGtPath(io: Io, clientOptions: Value, rec: Record)
    requires "gt_path" !in rec
    ensures var r := LoadAlpha(io, NewImageLoader(clientOptions), rec);
            && (r.state.client.Some? ==> r.error == Some(MissingKey("gt_path")))
            && r.record == rec
  {
    assert PathKey("gt") == "gt_path";
  }
}
