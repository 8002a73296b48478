/** `RandomLoadResizeBg`: draws one file from a directory listing taken at
    construction, loads it and resizes it to the record's `img_shape`. */
module Background {
  import opened Values
  import opened Oracles
  import opened LazyClient
  import Paths
  import ImageLoaders

  datatype BgSampler = BgSampler(
    bgDir: string,
    bgList: seq<string>,   // list(mmcv.scandir(bg_dir)), fixed for the sampler's lifetime
    ioBackend: Value,
    flag: Value,
    clientOptions: Value,
    client: Option<Client>)

  /** `RandomLoadResizeBg.__init__`, given the directory listing, with its
      default arguments; `clientOptions` is the `**kwargs` mapping handed
      to the client. An empty listing is accepted here and only fails when
      a background is drawn. */
  function NewBgSampler(bgDir: string, listing: seq<string>, clientOptions: Value,
                        ioBackend: Value := VStr("disk"), flag: Value := VStr("color")): (s: BgSampler)
    ensures s.bgDir == bgDir && s.bgList == listing && s.client.None?
    ensures s.ioBackend == ioBackend && s.flag == flag && s.clientOptions == clientOptions
  {
    BgSampler(bgDir, listing, ioBackend, flag, clientOptions, None)
  }

  /** The defaults: the disk backend and the 'color' flag. */
  lemma DefaultSampler(bgDir: string, listing: seq<string>, clientOptions: Value)
    ensures var s := NewBgSampler(bgDir, listing, clientOptions);
            s.ioBackend == VStr("disk") && s.flag == VStr("color")
  {
  }

  /** The path of the drawn background: `Path(bg_dir).joinpath(bg_list[idx])`. */
  function BgPath(s: BgSampler, draw: nat): string
    requires draw < |s.bgList|
  {
    Paths.Join(s.bgDir, s.bgList[draw])
  }

  /** `RandomLoadResizeBg.__call__` with `draw` the index numpy's
      `randint(len(bg_list))` returns; it lies in [0, len(bg_list)) whenever
      that range is not empty. Only `bg` is written, resized to `(w, h)`:
      width first, the reverse of the order of `img_shape`. */
  function SampleBackground(io: Io, s: BgSampler, rec: Record, draw: nat): (r: Step<BgSampler>)
    requires |s.bgList| > 0 ==> draw < |s.bgList|
    ensures r.state == s.(client := r.state.client)
    ensures Reuses(io, s.ioBackend, s.clientOptions, s.client, r.state.client)
    ensures r.error.Some? ==> r.record == rec
    ensures r.state.client.None? ==> r.error == Some(Raised(io.connect(s.ioBackend, s.clientOptions).error))
    ensures r.state.client.Some? && "img_shape" !in rec ==> r.error == Some(MissingKey("img_shape"))
    ensures r.state.client.Some? && "img_shape" in rec && Unpack2(rec["img_shape"]).Err? ==>
              r.error == Some(Unpack2(rec["img_shape"]).error)
    ensures r.state.client.Some? && "img_shape" in rec && Unpack2(rec["img_shape"]).Ok? && |s.bgList| == 0 ==>
              r.error == Some(EmptyRange)
    ensures r.state.client.Some? && "img_shape" in rec && Unpack2(rec["img_shape"]).Ok? && |s.bgList| > 0 ==>
              var hw := Unpack2(rec["img_shape"]).value;
              var src := Load(io, r.state.client.value, BgPath(s, draw), s.flag);
              && (src.Err? ==> r.error == Some(src.error))
              && (src.Ok? && io.resize(src.value, (hw.1, hw.0)).Err? ==>
                    r.error == Some(Raised(io.resize(src.value, (hw.1, hw.0)).error)))
    ensures r.error.None? <==>
              && r.state.client.Some?
              && "img_shape" in rec && Unpack2(rec["img_shape"]).Ok?
              && |s.bgList| > 0
              && var src := Load(io, r.state.client.value, BgPath(s, draw), s.flag);
              && src.Ok?
              && io.resize(src.value, (Unpack2(rec["img_shape"]).value.1, Unpack2(rec["img_shape"]).value.0)).Ok?
    ensures r.error.None? ==>
              var hw := Unpack2(rec["img_shape"]).value;
              var src := Load(io, r.state.client.value, BgPath(s, draw), s.flag).value;
              && WritesExactly(rec, r.record, {"bg"})
              && r.record["bg"] == VImage(io.resize(src, (hw.1, hw.0)).value)
  {
    var acquired := Acquire(io, s.client, s.ioBackend, s.clientOptions);
    var state := s.(client := acquired.0);
    if acquired.1.Err? then Step(state, rec, Some(acquired.1.error))
    else if "img_shape" !in rec then Step(state, rec, Some(MissingKey("img_shape")))
    else
      match Unpack2(rec["img_shape"])
      case Err(e) => Step(state, rec, Some(e))
      case Ok(hw) =>
        if |s.bgList| == 0 then Step(state, rec, Some(EmptyRange))
        else
          match Load(io, acquired.1.value, BgPath(s, draw), s.flag)
          case Err(e) => Step(state, rec, Some(e))
          case Ok(img) =>
            match io.resize(img, (hw.1, hw.0))
            case Err(f) => Step(state, rec, Some(Raised(f)))
            case Ok(bg) => Step(state, rec["bg" := VImage(bg)], None)
  }

  /** The file drawn is the listing's entry: its final path segment is
      `bg_list[idx]` when that entry is a single file name. */
  lemma DrawnFileName(s: BgSampler, draw: nat)
    requires draw < |s.bgList| && s.bgList[draw] != "" && Paths.NoSlash(s.bgList[draw])
    ensures Paths.Name(BgPath(s, draw)) == s.bgList[draw]
  {
    Paths.NameOfJoin(s.bgDir, s.bgList[draw]);
  }

  /** Unpacking a stored shape into `h, w` succeeds exactly for the
      two-dimensional shapes, and yields their height and width. */
  lemma UnpackShape(shape: Shape)
    ensures Unpack2(ShapeValue(shape)) ==
              if |shape| == 2 then Ok((VInt(shape[0]), VInt(shape[1]))) else Err(UnpackCount(|shape|))
  {
    var v := ShapeValue(shape);
    assert Items(v) == Some(v.items);
    if |shape| == 2 {
      assert v.items == [VInt(shape[0]), VInt(shape[1])];
    }
  }

  /** The alpha loader feeds the sampler: the `img_shape` of a
      two-dimensional matte of shape (H, W) unpacks into h = H, w = W, so
      the background is resized to (W, H); a matte decoded with a channel
      axis leaves a three-entry `img_shape` that cannot be unpacked. */
  lemma AlphaThenBackground(io: Io, loader: ImageLoaders.ImageLoader, rec: Record)
    ensures var r := ImageLoaders.LoadAlpha(io, loader, rec);
            r.error.None? ==>
              var alpha := r.record["alpha"].img;
              Unpack2(r.record["img_shape"]) ==
                if |alpha.shape| == 2 then Ok((VInt(alpha.shape[0]), VInt(alpha.shape[1])))
                else Err(UnpackCount(|alpha.shape|))
  {
    var r := ImageLoaders.LoadAlpha(io, loader, rec);
    if r.error.Some? { return; }
    var out := r.record;
    UnpackShape(out["alpha"].img.shape);
  }

  /** Drawing the same index twice writes the same background. */
  lemma SampleBackgroundIdempotent(io: Io, s: BgSampler, rec: Record, draw: nat)
    requires |s.bgList| > 0 ==> draw < |s.bgList|
    requires SampleBackground(io, s, rec, draw).error.None?
    ensures var r := SampleBackground(io, s, rec, draw);
            SampleBackground(io, r.state, r.record, draw) == r
  {
    var r := SampleBackground(io, s, rec, draw);
    assert r.record["img_shape"] == rec["img_shape"];
    assert r.record["bg" := r.record["bg"]] == r.record;
  }
}
