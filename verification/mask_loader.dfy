/** `LoadMask`: writes a hole mask under `mask` by one of four modes fixed
    at construction. `bbox`, `irregular` and `ff` call the mask geometry
    routines on the configuration; `set` draws a mask file from a corpus
    listed by a manifest read at construction, through a lazily built
    client. */
module MaskLoading {
  import opened Values
  import opened Oracles
  import opened LazyClient
  import Manifest

  /** The state `_init_info` sets up in `set` mode. */
  datatype MaskCorpus = MaskCorpus(
    maskList: seq<string>,
    size: nat,             // mask_set_size
    ioBackend: Value,
    flag: Value,
    clientOptions: Value,
    client: Option<Client>)

  datatype MaskLoader = MaskLoader(mode: string, config: Config, corpus: Option<MaskCorpus>)

  const MaskModes: set<string> := {"bbox", "irregular", "ff", "set"}

  /** What construction establishes: exactly the `set` mode has a corpus,
      and the corpus size is the number of listed masks. */
  predicate Valid(m: MaskLoader)
  {
    && (m.mode == "set" <==> m.corpus.Some?)
    && (m.corpus.Some? ==> m.corpus.value.size == |m.corpus.value.maskList|)
  }

  /** `dict() if mask_config is None else mask_config`. */
  function ConfigOf(maskConfig: Option<Config>): Config
  {
    if maskConfig.Some? then maskConfig.value else map[]
  }

  /** `LoadMask.__init__` and `_init_info`. Only the `set` mode reads
      anything: the manifest and then the `io_backend`, `flag` and
      `file_client_kwargs` settings. Any other mode, known or not, is
      accepted as it is. An empty manifest is accepted too. The defaults are
      the `bbox` mode and no configuration, which stands for an empty one. */
  method NewMaskLoader(io: Io, mode: string := "bbox", maskConfig: Option<Config> := None)
    returns (r: Result<MaskLoader, Error>)
    ensures r.Ok? ==> Valid(r.value) && r.value.mode == mode && r.value.config == ConfigOf(maskConfig)
    ensures mode != "set" ==> r == Ok(MaskLoader(mode, ConfigOf(maskConfig), None))
    ensures mode == "set" && "mask_list_file" !in ConfigOf(maskConfig) ==> r == Err(MissingKey("mask_list_file"))
    ensures mode == "set" && "mask_list_file" in ConfigOf(maskConfig) ==>
              var c := ConfigOf(maskConfig);
              var text := io.readText(c["mask_list_file"]);
              && (text.Err? ==> r == Err(Raised(text.error)))
              && (text.Ok? && Manifest.Lines(text.value) != [] ==>
                    && ("prefix" !in c ==> r == Err(MissingKey("prefix")))
                    && ("prefix" in c && PathText(c["prefix"]).Err? ==> r == Err(PathText(c["prefix"]).error)))
              && (text.Ok? && (Manifest.Lines(text.value) != [] ==> "prefix" in c && PathText(c["prefix"]).Ok?) ==>
                    && ("io_backend" !in c ==> r == Err(MissingKey("io_backend")))
                    && ("io_backend" in c && "flag" !in c ==> r == Err(MissingKey("flag")))
                    && ("io_backend" in c && "flag" in c && "file_client_kwargs" !in c ==>
                          r == Err(MissingKey("file_client_kwargs"))))
    ensures mode == "set" ==>
              var c := ConfigOf(maskConfig);
              (r.Ok? <==>
                 && "mask_list_file" in c
                 && io.readText(c["mask_list_file"]).Ok?
                 && (Manifest.Lines(io.readText(c["mask_list_file"]).value) != [] ==>
                       "prefix" in c && PathText(c["prefix"]).Ok?)
                 && "io_backend" in c && "flag" in c && "file_client_kwargs" in c)
    ensures mode == "set" && r.Ok? ==>
              var c := ConfigOf(maskConfig);
              var lines := Manifest.Lines(io.readText(c["mask_list_file"]).value);
              var corpus := r.value.corpus.value;
              && |corpus.maskList| == |lines|
              && (forall i :: 0 <= i < |lines| ==>
                    corpus.maskList[i] == Manifest.Entry(PathText(c["prefix"]).value, lines[i]))
              && corpus.ioBackend == c["io_backend"]
              && corpus.flag == c["flag"]
              && corpus.clientOptions == c["file_client_kwargs"]
              && corpus.client.None?
  {
    var c := ConfigOf(maskConfig);
    if mode != "set" {
      return Ok(MaskLoader(mode, c, None));
    }
    if "mask_list_file" !in c {
      return Err(MissingKey("mask_list_file"));
    }
    var text := io.readText(c["mask_list_file"]);
    if text.Err? {
      return Err(Raised(text.error));
    }
    var masks := Manifest.ReadMaskList(c, text.value);
    if masks.Err? {
      return Err(masks.error);
    }
    if "io_backend" !in c {
      return Err(MissingKey("io_backend"));
    }
    if "flag" !in c {
      return Err(MissingKey("flag"));
    }
    if "file_client_kwargs" !in c {
      return Err(MissingKey("file_client_kwargs"));
    }
    var corpus := MaskCorpus(masks.value, |masks.value|, c["io_backend"], c["flag"], c["file_client_kwargs"], None);
    r := Ok(MaskLoader(mode, c, Some(corpus)));
  }

  /** The channel normalisation of a drawn mask: a two-dimensional array
      gains a trailing axis, any other keeps only channel 0 as
      `mask[:, :, 0:1]`, which needs at least three axes. */
  function SingleChannel(img: Image): (r: Result<Image, Error>)
    ensures r.Err? <==> |img.shape| < 2
    ensures r.Err? ==> r.error == NoAxis
    ensures r.Ok? ==> |r.value.shape| >= 3 && r.value.shape[..2] == img.shape[..2]
    ensures |img.shape| == 2 ==> r == Ok(Image(img.shape + [1], img.pixels))
    ensures |img.shape| >= 3 ==>
              && r.value.shape[2] == (if img.shape[2] == 0 then 0 else 1)
              && r.value.shape[3..] == img.shape[3..]
              && r.value.pixels == FirstChannel(img.pixels)
  {
    if |img.shape| == 2 then Ok(Image(img.shape + [1], img.pixels))
    else if |img.shape| < 2 then Err(NoAxis)
    else
      var channels := if img.shape[2] == 0 then 0 else 1;
      Ok(Image(img.shape[..2] + [channels] + img.shape[3..], FirstChannel(img.pixels)))
  }

  /** Every mask a decoder can produce, a grey (H, W) or an (H, W, C) array
      with C > 0, comes out as (H, W, 1). */
  lemma SingleChannelShape(img: Image)
    requires |img.shape| == 2 || (|img.shape| == 3 && img.shape[2] > 0)
    ensures SingleChannel(img).Ok?
    ensures SingleChannel(img).value.shape == img.shape[..2] + [1]
  {
    var r := SingleChannel(img).value;
    assert r.shape == r.shape[..2] + r.shape[2..];
  }

  /** `_get_random_mask_from_set`, with `draw` the index numpy's
      `randint(0, mask_set_size)` returns; it lies in [0, mask_set_size)
      whenever that range is not empty. */
  function DrawFromSet(io: Io, corpus: MaskCorpus, draw: nat): (r: (MaskCorpus, Result<Image, Error>))
    requires corpus.size == |corpus.maskList|
    requires corpus.size > 0 ==> draw < corpus.size
    ensures r.0 == corpus.(client := r.0.client)
    ensures Reuses(io, corpus.ioBackend, corpus.clientOptions, corpus.client, r.0.client)
    ensures r.1.Err? ==> !r.1.error.NotImplemented?
    ensures r.0.client.None? ==> r.1 == Err(Raised(io.connect(corpus.ioBackend, corpus.clientOptions).error))
    ensures r.0.client.Some? && corpus.size == 0 ==> r.1 == Err(EmptyRange)
    ensures r.0.client.Some? && corpus.size > 0 ==>
              var loaded := Load(io, r.0.client.value, corpus.maskList[draw], corpus.flag);
              && (loaded.Err? ==> r.1 == Err(loaded.error))
              && (loaded.Ok? ==> r.1 == SingleChannel(loaded.value))
    ensures r.1.Ok? <==>
              && r.0.client.Some? && corpus.size > 0
              && Load(io, r.0.client.value, corpus.maskList[draw], corpus.flag).Ok?
              && |Load(io, r.0.client.value, corpus.maskList[draw], corpus.flag).value.shape| >= 2
    ensures r.1.Ok? ==>
              r.1 == SingleChannel(Load(io, r.0.client.value, corpus.maskList[draw], corpus.flag).value)
  {
    var acquired := Acquire(io, corpus.client, corpus.ioBackend, corpus.clientOptions);
    var state := corpus.(client := acquired.0);
    if acquired.1.Err? then (state, Err(acquired.1.error))
    else if corpus.size == 0 then (state, Err(EmptyRange))
    else
      match Load(io, acquired.1.value, corpus.maskList[draw], corpus.flag)
      case Err(e) => (state, Err(e))
      case Ok(raw) => (state, SingleChannel(raw))
  }

  /** The keys a successful call writes. */
  function MaskKeys(mode: string): set<string>
  {
    if mode == "bbox" then {"mask", "mask_bbox"} else {"mask"}
  }

  /** The `bbox` branch: a box drawn from the configuration, then the mask
      of that box over the configured `img_shape`. */
  function BboxMask(io: Io, config: Config): (r: Result<(Value, Image), Error>)
    ensures io.randomBbox(config).Err? ==> r == Err(Raised(io.randomBbox(config).error))
    ensures io.randomBbox(config).Ok? && "img_shape" !in config ==> r == Err(MissingKey("img_shape"))
    ensures io.randomBbox(config).Ok? && "img_shape" in config ==>
              var box := io.randomBbox(config).value;
              var mask := io.bboxToMask(config["img_shape"], box);
              && (mask.Err? ==> r == Err(Raised(mask.error)))
              && (mask.Ok? ==> r == Ok((box, mask.value)))
  {
    match io.randomBbox(config)
    case Err(f) => Err(Raised(f))
    case Ok(box) =>
      if "img_shape" !in config then Err(MissingKey("img_shape"))
      else
        match io.bboxToMask(config["img_shape"], box)
        case Err(f) => Err(Raised(f))
        case Ok(mask) => Ok((box, mask))
  }

  /** `LoadMask.__call__`: the four-way dispatch. */
  function CallMask(io: Io, m: MaskLoader, rec: Record, draw: nat): (r: Step<MaskLoader>)
    requires Valid(m)
    requires m.corpus.Some? && m.corpus.value.size > 0 ==> draw < m.corpus.value.size
    ensures Valid(r.state) && r.state.mode == m.mode && r.state.config == m.config
    ensures m.mode != "set" ==> r.state == m
    ensures m.mode == "set" ==>
              && r.state.corpus.value == m.corpus.value.(client := r.state.corpus.value.client)
              && Reuses(io, m.corpus.value.ioBackend, m.corpus.value.clientOptions,
                        m.corpus.value.client, r.state.corpus.value.client)
    ensures r.error.Some? ==> r.record == rec
    ensures r.error.None? ==> WritesExactly(rec, r.record, MaskKeys(m.mode)) && r.record["mask"].VImage?
    ensures m.mode !in MaskModes <==> r.error == Some(NotImplemented(m.mode))
    ensures r.error.Some? && r.error.value.NotImplemented? ==> r.error.value.mode == m.mode
    ensures m.mode == "bbox" ==>
              var box := io.randomBbox(m.config);
              && (box.Err? ==> r.error == Some(Raised(box.error)))
              && (box.Ok? && "img_shape" !in m.config ==> r.error == Some(MissingKey("img_shape")))
              && (box.Ok? && "img_shape" in m.config && io.bboxToMask(m.config["img_shape"], box.value).Err? ==>
                    r.error == Some(Raised(io.bboxToMask(m.config["img_shape"], box.value).error)))
    ensures m.mode == "irregular" && io.irregularMask(m.config).Err? ==>
              r.error == Some(Raised(io.irregularMask(m.config).error))
    ensures m.mode == "ff" && io.brushStrokeMask(m.config).Err? ==>
              r.error == Some(Raised(io.brushStrokeMask(m.config).error))
    ensures m.mode == "set" && DrawFromSet(io, m.corpus.value, draw).1.Err? ==>
              r.error == Some(DrawFromSet(io, m.corpus.value, draw).1.error)
    ensures m.mode == "bbox" && r.error.None? ==>
              && io.randomBbox(m.config).Ok? && "img_shape" in m.config
              && r.record["mask_bbox"] == io.randomBbox(m.config).value
              && io.bboxToMask(m.config["img_shape"], io.randomBbox(m.config).value).Ok?
              && r.record["mask"] == VImage(io.bboxToMask(m.config["img_shape"], io.randomBbox(m.config).value).value)
    ensures m.mode == "irregular" && r.error.None? ==>
              io.irregularMask(m.config).Ok? && r.record["mask"] == VImage(io.irregularMask(m.config).value)
    ensures m.mode == "ff" && r.error.None? ==>
              io.brushStrokeMask(m.config).Ok? && r.record["mask"] == VImage(io.brushStrokeMask(m.config).value)
    ensures m.mode == "set" && r.error.None? ==>
              && DrawFromSet(io, m.corpus.value, draw).1.Ok?
              && r.record["mask"] == VImage(DrawFromSet(io, m.corpus.value, draw).1.value)
  {
    if m.mode == "bbox" then
      match BboxMask(io, m.config)
      case Err(e) => Step(m, rec, Some(e))
      case Ok((box, mask)) => Step(m, rec["mask_bbox" := box]["mask" := VImage(mask)], None)
    else if m.mode == "irregular" then
      match io.irregularMask(m.config)
      case Err(f) => Step(m, rec, Some(Raised(f)))
      case Ok(mask) => Step(m, rec["mask" := VImage(mask)], None)
    else if m.mode == "set" then
      var drawn := DrawFromSet(io, m.corpus.value, draw);
      var state := m.(corpus := Some(drawn.0));
      match drawn.1
      case Err(e) => Step(state, rec, Some(e))
      case Ok(mask) => Step(state, rec["mask" := VImage(mask)], None)
    else if m.mode == "ff" then
      match io.brushStrokeMask(m.config)
      case Err(f) => Step(m, rec, Some(Raised(f)))
      case Ok(mask) => Step(m, rec["mask" := VImage(mask)], None)
    else
      Step(m, rec, Some(NotImplemented(m.mode)))
  }

  /** A corpus built from an empty manifest is accepted at construction but
      every draw from it fails once the client is there. */
  lemma EmptyCorpusFailsAtDraw(io: Io, m: MaskLoader, rec: Record, draw: nat)
    requires Valid(m) && m.mode == "set" && m.corpus.value.size == 0
    ensures var r := CallMask(io, m, rec, draw);
            r.state.corpus.value.client.Some? ==> r.error == Some(EmptyRange)
  {
  }

  /** In `set` mode, a successful draw of a grey or multi-channel mask file
      writes a mask of the file's height and width with one channel. */
  lemma SetModeMaskShape(io: Io, m: MaskLoader, rec: Record, draw: nat)
    requires Valid(m) && m.mode == "set"
    requires m.corpus.value.size > 0 ==> draw < m.corpus.value.size
    requires CallMask(io, m, rec, draw).error.None?
    ensures var r := CallMask(io, m, rec, draw);
            var raw := Load(io, r.state.corpus.value.client.value, m.corpus.value.maskList[draw], m.corpus.value.flag).value;
            |raw.shape| == 2 || (|raw.shape| == 3 && raw.shape[2] > 0) ==>
              r.record["mask"].img.shape == raw.shape[..2] + [1]
  {
    var r := CallMask(io, m, rec, draw);
    var drawn := DrawFromSet(io, m.corpus.value, draw);
    var raw := Load(io, drawn.0.client.value, m.corpus.value.maskList[draw], m.corpus.value.flag).value;
    if |raw.shape| == 2 || (|raw.shape| == 3 && raw.shape[2] > 0) {
      SingleChannelShape(raw);
    }
  }
}
