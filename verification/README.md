# Loading stages of the mmedit data pipeline, in Dafny

This project models the bookkeeping of the loading stages in
`mmedit/datasets/pipelines/loading.py`. Each stage takes the sample record
(a string-keyed mapping) and updates it, or raises:

- `LoadImageFromFile` loads one image and adds a channel axis to a grey decode.
- `LoadImageFromFileList` loads a list of images, keeping them aligned with their paths.
- `LoadAlpha` loads an alpha matte.
- `RandomLoadResizeBg` draws a background from a directory listing and resizes it to `img_shape`.
- `LoadMask` writes a hole mask in one of four modes, `bbox`, `irregular`, `ff` or `set`.
  In `set` mode the mask is drawn from a corpus listed by a manifest file.

Each stage is a pure function, or a method where the source loops. It returns
`Step(state, record, error)`:

- `state` is the stage object afterwards. Only its lazily built storage client can change.
- `record` is the record afterwards. Python mutates it in place, so it exists after a failure too.
- `error` is the exception raised, if any.

All I/O is passed in through the `Io` datatype (`oracles.dfy`). It bundles the
client constructor, `get`, the image decoder, `str()` of arbitrary objects,
the bicubic resize, reading the manifest file and the four mask-geometry
routines. Each of them except `str()` is a total function that returns a
value or a `Fault`; a stage propagates that fault unchanged as `Raised`.
`str()` is a total function to text that cannot fail. The random indices that
numpy draws become a `draw` parameter. It must lie in the range numpy draws
from whenever that range is not empty. Images are abstract: they carry a
shape and a token for their pixels.

Files and modules:

- `values.dfy`, module `Values`: records, values, images, errors, and the shape encoding.
- `oracles.dfy`, module `Oracles`: the collaborators, `str()`, `pathlib.Path()` and fetch-then-decode.
- `paths.dfy`, module `Paths`: `joinpath` and `.name`.
- `lazy_client.dfy`, module `LazyClient`: the `None`-until-first-use client shared by every stage.
- `image_loaders.dfy`, module `ImageLoaders`: the single, list and alpha loaders.
- `background.dfy`, module `Background`: the background sampler.
- `manifest.dfy`, module `Manifest`: the `set`-mode manifest parser.
- `mask_loader.dfy`, module `MaskLoading`: construction, the set-mode draw and the mode dispatch.

Where the code does something one might not expect, the model follows the code:

- An empty manifest, or an empty background directory, is accepted at construction. It fails only when an index is drawn, as numpy's `randint` over an empty range.
- An unknown `mask_mode` is accepted at construction. It raises `NotImplementedError` only when the loader is called.
- A manifest entry is the stripped line's text before its first `' '`, not before any whitespace. A blank line still gives an entry: the prefix itself.
- `prefix` is looked up only while the manifest's lines are being read, so a missing `prefix` with an empty manifest is no error.
- The alpha loader reads `{key}_path` but always writes `alpha`. It adds no channel axis. It inherits the default key `gt`, so a loader built with the defaults reads `gt_path`, not the `alpha_path` its class documentation names.
- Every stage builds its client before it looks at the record, so a client built in a call that then fails is kept.

## Model

| member | source | states |
|---|---|---|
| Values.ShapeValueRoundTrip | mmedit/datasets/pipelines/loading.py:49 | a shape stored in the record as a tuple of ints reads back as the same shape; the stored shapes are exactly the tuples of non-negative ints |
| Values.Unpack2 | mmedit/datasets/pipelines/loading.py:161 | `h, w = v` succeeds exactly when v iterates to two items and then yields them in order; a non-iterable value raises TypeError and any other length raises ValueError |
| Values.Items | mmedit/datasets/pipelines/loading.py:161 | an array with at least one axis iterates over its rows, shape[0] of them, each the array without its first axis; a 0-d array cannot be iterated |
| Values.UnpackArray | mmedit/datasets/pipelines/loading.py:161 | an array stored under img_shape unpacks into h, w exactly when its first axis has length two, giving its two rows; a 0-d array raises TypeError |
| Oracles.Load | mmedit/datasets/pipelines/loading.py:42-43 | a failed fetch raises the fetch's own fault and, after a successful fetch, a failed decode raises the decoder's own fault; the load succeeds exactly when both steps do, and then gives the decoded image |
| Paths.Join | mmedit/datasets/pipelines/loading.py:163 | the joined path ends with the name; an absolute name replaces the directory, an empty name leaves it, an empty directory gives the name alone, and otherwise exactly one '/' separates them, none added after a directory already ending in '/' |
| Paths.Name | mmedit/datasets/pipelines/loading.py:127 | the name is the longest suffix without '/', that is, the text after the last '/' |
| Paths.NameAfterSlash | mmedit/datasets/pipelines/loading.py:127 | appending a segment without '/' to a path that is empty or ends in '/' makes that segment the name |
| Paths.NameOfJoin | mmedit/datasets/pipelines/loading.py:163 | joining a single non-empty segment onto any directory and then taking the name returns that segment |
| LazyClient.Acquire | mmedit/datasets/pipelines/loading.py:39-40 | a cached client is reused as is; an empty cache is filled by building the client, and stays empty, with the error raised, if building fails |
| LazyClient.BuiltAtMostOnce | mmedit/datasets/pipelines/loading.py:36-40 | over any run of calls on one instance the client is built at most once, and once built it is the same client at every later call |
| LazyClient.BuiltClientIsConnected | mmedit/datasets/pipelines/loading.py:253-255 | any client held by a run that started with none is the one built from the instance's backend and options |
| ImageLoaders.NewImageLoader | mmedit/datasets/pipelines/loading.py:25-36 | construction keeps the given arguments, defaulting to the disk backend, key 'gt', the 'color' flag and no original copy, and builds no client |
| ImageLoaders.DefaultLoader | mmedit/datasets/pipelines/loading.py:25-36 | a loader built with the defaults uses the disk backend, key 'gt' and the 'color' flag, keeps no original copy, and so writes exactly gt, gt_path and gt_ori_shape |
| ImageLoaders.WriteLoaded | mmedit/datasets/pipelines/loading.py:47-51 | the writes of a successful load set exactly `{key}`, `{key}_path`, `{key}_ori_shape` and, only when asked for, `ori_{key}`, to the given values, leaving every other key alone |
| ImageLoaders.AddChannelAxis | mmedit/datasets/pipelines/loading.py:44-45 | a two-dimensional decode (H, W) becomes (H, W, 1) over the same pixels; any other rank is kept as is |
| ImageLoaders.ChannelLast | mmedit/datasets/pipelines/loading.py:43-45 | every two- or three-dimensional decode leaves the loader three-dimensional with its height and width kept, and normalising again changes nothing |
| ImageLoaders.LoadImage | mmedit/datasets/pipelines/loading.py:38-53 | on success it writes exactly `{key}` (the normalised image), `{key}_path` (str of the path), `{key}_ori_shape` (the stored image's shape) and, only when save_original_img is set, `ori_{key}` (the same image), and leaves every other key alone; a failed client build raises the backend's fault, a missing path key raises KeyError, and a failed fetch or decode raises that step's fault, each leaving the record unchanged; the client is reused or built once |
| ImageLoaders.LoadImageIdempotent | mmedit/datasets/pipelines/loading.py:41-51 | loading a record a second time with the loader the first call left changes neither the record nor the loader |
| ImageLoaders.Strs | mmedit/datasets/pipelines/loading.py:88 | the list of path strings has the input's length and holds str of each input at the same position |
| ImageLoaders.FirstFailure | mmedit/datasets/pipelines/loading.py:94-96 | the index found is the first path that fails to load: every earlier path loads, and the index is the list's length when every path loads |
| ImageLoaders.LoadAll | mmedit/datasets/pipelines/loading.py:94-101 | the loop succeeds exactly when every path loads, and then yields aligned lists of the normalised images and their shapes; otherwise it raises the fault of the first path that fails |
| ImageLoaders.LoadImageList | mmedit/datasets/pipelines/loading.py:79-110 | a failed client build raises the backend's fault; a path value that is not a list (a tuple included) raises TypeError naming its type; it succeeds exactly when every listed image loads, and otherwise raises the fault of the first path that fails; then the image, path and shape lists have the input's length and order, with path[i] = str(input[i]), image[i] the normalised decode of that path and shape[i] its shape; only the loader's keys are written, and any failure leaves the record unchanged |
| ImageLoaders.WriteAlpha | mmedit/datasets/pipelines/loading.py:129-133 | the alpha writes set exactly alpha, img_name, ori_alpha, ori_shape and img_shape, with alpha and ori_alpha both the decoded matte and ori_shape and img_shape both its shape |
| ImageLoaders.PathKeyNotAlphaKey | mmedit/datasets/pipelines/loading.py:124-133 | no `{key}_path` is one of the alpha loader's output keys, so the path is never rewritten |
| ImageLoaders.LoadAlpha | mmedit/datasets/pipelines/loading.py:121-134 | it succeeds exactly when the client, the path key, the decode and pathlib's Path of the path succeed and the matte's first dimension is positive; a failed client build, fetch or decode raises that fault, a path that is not a str or path raises TypeError, a 0-d matte raises IndexError and a zero height raises the assertion naming the path's final segment, each writing nothing; on success it writes only the five alpha keys, with no channel axis added, img_name the final path segment and `{key}_path` untouched |
| ImageLoaders.LoadAlphaIdempotent | mmedit/datasets/pipelines/loading.py:121-134 | loading the same matte again with the loader the first call left changes nothing |
| ImageLoaders.DefaultAlphaReadsGtPath | mmedit/datasets/pipelines/loading.py:26-27 | an alpha loader built with the defaults looks up gt_path: a record without it raises KeyError for gt_path and is left as it was, whatever alpha_path holds |
| Background.NewBgSampler | mmedit/datasets/pipelines/loading.py:150-156 | construction keeps the directory listing as given, even an empty one, and the given backend, flag and options, defaulting to the disk backend and the 'color' flag, and builds no client |
| Background.DefaultSampler | mmedit/datasets/pipelines/loading.py:150 | a sampler built with the defaults uses the disk backend and the 'color' flag |
| Background.SampleBackground | mmedit/datasets/pipelines/loading.py:158-168 | a failed client build raises the backend's fault; a missing img_shape raises KeyError and one that does not unpack into exactly (h, w) raises the unpacking error; an empty listing fails the draw; otherwise the file at bg_dir joined with bg_list[idx] is loaded and resized to (w, h), width first, and a failed fetch, decode or resize raises that fault; on success only `bg` is added, and every failure leaves the record unchanged |
| Background.DrawnFileName | mmedit/datasets/pipelines/loading.py:163 | the drawn file's final path segment is the listing entry at the drawn index |
| Background.UnpackShape | mmedit/datasets/pipelines/loading.py:161 | a stored shape unpacks into (h, w) exactly when it is two-dimensional, giving its height and width in that order |
| Background.AlphaThenBackground | mmedit/datasets/pipelines/loading.py:161-166 | after the alpha loader, a two-dimensional matte (H, W) gives h = H and w = W, so the background is resized to (W, H); a matte of any other rank makes the sampler's unpacking fail |
| Background.SampleBackgroundIdempotent | mmedit/datasets/pipelines/loading.py:158-168 | drawing the same index again, with the sampler the first call left, changes nothing |
| Manifest.TrimLeft | mmedit/datasets/pipelines/loading.py:242 | the result is the longest suffix not starting with whitespace; everything removed is whitespace |
| Manifest.TrimRight | mmedit/datasets/pipelines/loading.py:242 | the result is the longest prefix not ending with whitespace; everything removed is whitespace |
| Manifest.Strip | mmedit/datasets/pipelines/loading.py:242 | the stripped line is no longer than the line and neither starts nor ends with whitespace |
| Manifest.StripIsSlice | mmedit/datasets/pipelines/loading.py:242 | the stripped line is the slice of the line between its leading and its trailing whitespace, and only whitespace lies outside that slice |
| Manifest.FirstToken | mmedit/datasets/pipelines/loading.py:242-243 | the token is the prefix before the first ' ', or the whole text when there is none |
| Manifest.Lines | mmedit/datasets/pipelines/loading.py:241 | every line is non-empty and only the empty file has no lines |
| Manifest.LinesConcat | mmedit/datasets/pipelines/loading.py:241 | the lines put back together are the file |
| Manifest.LinesWellFormed | mmedit/datasets/pipelines/loading.py:241 | every line but the last ends with '\n' and no line holds a '\n' elsewhere |
| Manifest.LinesCount | mmedit/datasets/pipelines/loading.py:241 | the number of lines is the number of '\n' plus one for an unterminated last line, so blank lines count like any other |
| Manifest.BlankLineEntry | mmedit/datasets/pipelines/loading.py:241-245 | a blank or whitespace-only line still yields an entry, the prefix itself |
| Manifest.ReadMaskList | mmedit/datasets/pipelines/loading.py:238-246 | each manifest line contributes exactly one entry, in file order: prefix joined with the stripped line's text before its first ' '; an empty manifest gives an empty list without reading prefix, and otherwise a missing or non-path prefix raises |
| MaskLoading.NewMaskLoader | mmedit/datasets/pipelines/loading.py:227-250 | the mode defaults to 'bbox' and the configuration to an empty one; a mode other than 'set', known or not, is accepted with nothing read; in 'set' mode a missing mask_list_file, a failed read, a missing or non-path prefix (only when the manifest has a line), and then a missing io_backend, flag or file_client_kwargs each raise, in that order; success comes exactly when none of these happens, and the corpus then lists one path per manifest line, mask_set_size equals its length and no client is built |
| MaskLoading.SingleChannel | mmedit/datasets/pipelines/loading.py:261-264 | a two-dimensional mask gains a trailing axis; a mask with three or more axes keeps only channel 0 as `[:, :, 0:1]`, with H and W kept; fewer than two axes raise IndexError |
| MaskLoading.SingleChannelShape | mmedit/datasets/pipelines/loading.py:260-266 | every grey (H, W) or (H, W, C) decode with C > 0 becomes (H, W, 1) |
| MaskLoading.DrawFromSet | mmedit/datasets/pipelines/loading.py:252-266 | the client is reused or built once, and a failed build raises its fault; an empty corpus fails the draw; otherwise the mask at the drawn index is loaded with the corpus flag, a failed fetch or decode raises that fault, and the decode is normalised to one channel; only the client changes |
| MaskLoading.BboxMask | mmedit/datasets/pipelines/loading.py:270-271 | a failed box draw raises its fault; then a missing img_shape raises KeyError; then a failed bbox2mask raises its fault; otherwise it gives the drawn box and its mask |
| MaskLoading.CallMask | mmedit/datasets/pipelines/loading.py:268-283 | bbox writes exactly mask and mask_bbox, and irregular, ff and set write exactly mask; a geometry routine's failure, a missing img_shape in bbox mode and a failed set-mode draw raise that error; it raises NotImplementedError naming the mode exactly when the mode is none of the four; every failure leaves the record unchanged; the loader stays valid and only a set-mode client can change |
| MaskLoading.EmptyCorpusFailsAtDraw | mmedit/datasets/pipelines/loading.py:257 | a set-mode loader built from an empty manifest fails at every draw once its client exists |
| MaskLoading.SetModeMaskShape | mmedit/datasets/pipelines/loading.py:275-282 | a successful set-mode call on a grey or multi-channel mask file writes a mask of that file's height and width with one channel |

## Left out

- Storage backends, `mmcv.imfrombytes`, `mmcv.scandir`, `mmcv.imresize`, opening the manifest and `str()` of arbitrary objects: these are I/O or foreign code, so they are parameters in `Io`. Construction of the background sampler takes the listing as given.
- `random_bbox`, `bbox2mask`, `get_irregular_mask` and `brush_stroke_mask` are not part of this model. They are opaque functions of the configuration, so box bounds, stroke drawing and area ratios are not modelled.
- Random draws are a parameter constrained to the drawn range. Uniformity is statistical and cannot be stated here.
- Pixel values, bicubic interpolation, and copy versus aliasing (`img.copy()`) are not modelled: images carry only a shape and a token.
- `__repr__`, the `PIPELINES` registry decorator, and `assert` being disabled under `python -O` are left out.
- `mask_config` that is not a dict is left out. The configuration is typed as a mapping, so the `isinstance` assertion in `__init__` cannot fail.
- Paths.Join and Paths.Name do not apply pathlib's normalisation: duplicate or trailing slashes and `.` segments are not removed, so `Name("a/b/")` is empty where pathlib gives `b`.
- Manifest.Strip treats only ASCII and Latin-1 whitespace as whitespace. Python's other Unicode whitespace is not stripped.
- The manifest is read whole, after newline translation. A decoding error part-way through the file is a failure of the read as a whole.
- Arrays are iterated by rows only as far as unpacking needs: a row carries the remaining shape and a token, not its pixel values.
- `str()` of an object that is not a str or a path is modelled as never raising, although a user-defined `__str__` could raise.
- NewImageLoader, NewBgSampler: the `**kwargs` mapping passed to the client is an abstract value with no default of its own; an empty mapping is whatever value the caller passes.
- The `save_original_img` flag and the key are typed as a boolean and a string. Python's truthiness and the str() of other key objects are not modelled.
