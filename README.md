# gdtools font metrics: a Dafny model

gdtools measures strings of text for R graphics devices. It does this
without drawing them. A metric context (`CairoContext`) holds a Cairo
context on an off-screen PDF surface, a FreeType library handle and a face
cache. The cache is a map from a resolution key to a Cairo font face that
owns a FreeType face. `setFont` derives the key from the request. On a miss,
it asks Fontconfig for the face index inside the given file, or for the file
and face index matching a font name; it then loads the face and caches it.
It then sets the face and the size on the Cairo context. `getExtents`
turns Cairo's text extents into width, height, ascent and descent. The
destructor shuts Fontconfig down and releases every cached face. Three entry
points (`str_extents`, `str_metrics`, `str_metrics_from_file`) build a
context and set one font. `str_extents` and `str_metrics_from_file` measure
each input string and give missing values for NA strings; `str_metrics`
measures only the first element.

The model has three modules:

- `Native` (native.dfy) holds the handles, the error kinds and the native
  libraries. The libraries are a value of type `Library`. Each of its
  fields is a total function: match a font, look up a face index, open a
  face, attach the finalizer, measure text. Every proof therefore holds
  whatever Cairo, FreeType and Fontconfig answer, including failure.
- `Cairo` (cairo_context.dfy) models src/CairoContext.cpp. The class
  `CairoContext` has the fields the source updates in place:
  - the cache `fonts`;
  - the active face and size;
  - a log `calls` of the native calls that load or release faces;
  - a `live` flag for the object's lifetime.
  `CacheFont` and `SetFont` are specified by pure step functions on the
  `State` record (`CacheFontStep`, `SetFontStep`), and the cache
  properties are proved as lemmas about those step functions. `Destroy`
  states its new call log directly.
- `FontMetrics` (font_metrics.dfy) models src/font_metrics.cpp. The three
  entry points are methods. `StrExtents` and `StrMetricsFromFile` fill
  freshly allocated arrays in a `for` loop. `StrMetrics` measures a single
  string, with no array and no loop. An R string element is an
  `Option<string>`; `None` is NA. A missing numeric value is `None` too.
  The parameters carry the source's defaults: font name "sans", size 12,
  bold and italic off, fallback "M", and no font file for `SetFont`.

Metrics are `real`, an idealisation of `double`.

Three behaviours of the code that a caller might not expect:

- `str_metrics` does not test its first element for NA.
  `Rf_translateCharUTF8` turns NA into the two characters "NA", so the
  model measures the string "NA" (`FontMetrics.Translated`). It does not
  return missing values for that element.
- A request by font file is keyed by the path alone, without bold and
  italic. A second request for the same file in another style reuses the
  face loaded at the first style's face index, and its own index is never
  looked up (`Cairo.FileKeyIgnoresStyle`).
- `str_metrics_from_file` reports height as ascent + descent. `str_extents`
  reports the raw ink-box height. For the Cairo path, `Cairo.Metrics`
  proves that the two agree over the reals. The file-based context is
  opaque, so nothing ties its height to its box.

## Model

| member | source | states |
|---|---|---|
| `Cairo.NameKeyRoundTrip` | src/CairoContext.cpp:113-116 | A name key `fontname + " %d %d"` can be read back: it yields exactly the name, the bold flag and the italic flag it was built from. |
| `Cairo.NameKeyInjective` | src/CairoContext.cpp:113-117 | Two requests resolved by name share a cache entry only if they agree on name, bold and italic. |
| `Cairo.CacheKey` | src/CairoContext.cpp:104-116 | With a non-empty font file, the key is exactly the file path. Otherwise the key encodes the name and both style flags, recoverably. The key has no size argument. |
| `Cairo.FileKeyMeetsNameKey` | src/CairoContext.cpp:104-116 | File keys and name keys share one namespace. For every name and style, a request for a font file whose path equals that name's key gets the same cache key as the name itself, whatever name and style the file request carries. |
| `Cairo.FileKeyIgnoresStyle` | src/CairoContext.cpp:105-111 | Once a font file is cached, a request for the same file with any other name, style or size is a hit. It makes no native call, leaves the cache unchanged, and keeps the face loaded at the index looked up for the first style. |
| `Cairo.FindFontFile` | src/CairoContext.cpp:85-100 | Succeeds exactly when Fontconfig returns a match whose file entry is a non-empty path. On success it returns that path and the match's face index. Otherwise it fails with the "unable to match" error. |
| `Cairo.CacheFontOutcomes` | src/CairoContext.cpp:54-73 | cacheFont fails with "unable to open" exactly when FreeType cannot open the file at the index. It fails with "unable to handle" exactly when the face opened but Cairo refused the finalizer. In that case both the Cairo face and the FreeType face are released. A failure inserts nothing. Success adds one fresh face under the key. The active face and size are never touched. |
| `Cairo.CacheFontValid` | src/CairoContext.cpp:54-73 | cacheFont on a key that is not cached keeps the cache invariant. The new face has a fresh id, and no entry (in particular not the active face's) is replaced. |
| `Cairo.CairoContext.CacheFont` | src/CairoContext.cpp:54-73 | Called only on a miss, as setFont does after a failed lookup. Updates the cache, the id counter and the call log exactly as `CacheFontStep` prescribes, and keeps the invariant. |
| `Cairo.SetFontHit` | src/CairoContext.cpp:102-126 | On a hit, setFont makes no native call: no index lookup, no match and no load. It leaves the cache unchanged and only selects the cached face and the requested size. |
| `Cairo.SetFontMiss` | src/CairoContext.cpp:104-122 | A miss succeeds exactly when the request resolves (given file at the looked-up index, or a Fontconfig match) and the load succeeds. Otherwise it fails with that step's error. On success, exactly one entry is added (a fresh face of the resolved file), the cache grows by one, and that face and the size become active. On failure the cache, the face and the size are unchanged. |
| `Cairo.SetFontSelects` | src/CairoContext.cpp:124-125 | After a successful setFont, the key is cached, the active face is that key's entry, and the active size is the requested one. |
| `Cairo.SetFontIdempotent` | src/CairoContext.cpp:102-126 | Repeating a successful setFont with the same arguments leaves the whole state unchanged, the call log included. |
| `Cairo.SetFontSizeIndependent` | src/CairoContext.cpp:102-126 | Two requests that differ only in size have the same outcome. They make the same native calls and reach the same cache and the same active face. |
| `Cairo.SetFontValid` | src/CairoContext.cpp:102-126 | setFont keeps the cache invariant: cached faces come from distinct loads with ids already handed out, and the active face is a cached one. |
| `Cairo.CairoContext.SetFont` | src/CairoContext.cpp:102-126 | Updates the context exactly as `SetFontStep` prescribes and keeps the invariant. |
| `Cairo.Metrics` | src/CairoContext.cpp:132-136 | width = x advance, height = box height, ascent = −y bearing, descent = height + y bearing. Hence ascent + descent = height. |
| `Cairo.MeasuredIn` | src/CairoContext.cpp:128-139 | A string measured with a context's face and size has ascent + descent equal to its height. |
| `Cairo.CairoContext.GetExtents` | src/CairoContext.cpp:128-139 | getExtents reads the context without changing it. It measures Cairo's extents of the string with the active face's file (Cairo's default face when none is set) at the active size, and maps them through `Metrics`. Its metrics satisfy ascent + descent = height. |
| `Cairo.ContextWithFont` | src/CairoContext.cpp:23-126 | A fresh context fails with the Fontconfig or FreeType initialisation error when that library fails to start. Otherwise setting a font succeeds exactly when the request resolves and loads. The active face is then the first load, of the resolved file, at the requested size. |
| `Cairo.NewContext` | src/CairoContext.cpp:23-31 | Construction fails with the Fontconfig error if FcInit fails, or else with the FreeType error if FreeType fails. Otherwise it yields a live context with an empty cache, Cairo's default face and size 10. |
| `Cairo.CairoContext.constructor` | src/CairoContext.cpp:23-26 | A constructed context is live and has an empty cache, no face of its own, the default size and an empty call log. |
| `Cairo.CairoContext.Destroy` | src/CairoContext.cpp:39-52 | Shuts Fontconfig down first. It then releases every cached face exactly once, releases nothing else, and leaves the context no longer live. |
| `Cairo.ReleaseFaces` | src/CairoContext.cpp:42-46 | The release loop issues one Cairo release per cache entry, and only for cached faces. Each cached face occurs exactly once in the log. |
| `Cairo.ReleasedOnce` | src/CairoContext.cpp:42-46 | Walking the cache's keys without repetition, when faces are distinct, releases each face of a visited key exactly once. |
| `FontMetrics.OpenWithFont` | src/font_metrics.cpp:27-28 | Constructing a context and setting its font fails exactly as `ContextWithFont` says, with its error. On success it yields a fresh live context whose state is the one `ContextWithFont` gives. |
| `FontMetrics.StrExtents` | src/font_metrics.cpp:23-45 | The matrix is newly allocated. Fails exactly when the context or its one font cannot be set up, with that error. Otherwise returns an n × 2 matrix, one row per input in input order. An NA row is NA in both columns. Every other row is the (width, height) of that string, measured with the same font and size. |
| `FontMetrics.StrMetrics` | src/font_metrics.cpp:55-71 | For a non-empty input, measures only the first element (NA reads as "NA"). It returns exactly its width, ascent and descent, or the setup error. |
| `FontMetrics.StrMetricsFromFile` | src/font_metrics.cpp:75-112 | Fails exactly when the file-based context cannot be set up. Otherwise returns the input unchanged as `text` and four columns of length n. An NA row is NA in all four. Every other row copies width, ascent and descent and reports height as ascent + descent. |

## Left out

- Cairo, FreeType and Fontconfig are parameters (`Native.Library`) and are
  not modelled. This covers surface and context creation and destruction,
  `FcInit`, `FcFini`, `FT_Init_FreeType`, `FT_New_Face`, face wrapping,
  pattern queries and `cairo_text_extents`. Their answers are taken as
  deterministic functions of their arguments. The Fontconfig helpers in
  sys_fonts.cpp are not part of this model; they appear only through the
  `findMatch` and `findFontIndex` fields.
- `FontFileContext` (construction, candidate-file search, fallback glyph,
  measurement) is not part of this model. It is an opaque value with an
  `open` service that may fail and an `extents` service.
- Version printing with `Rprintf` in the constructor has no effect the
  model observes.
- R marshalling (Rcpp vectors, matrix and data frame, UTF-8 translation) is
  reduced to sequences of `Option` values and plain strings. Integer style
  flags become `true` when non-zero.
- IEEE-754 rounding is not modelled. The identity ascent + descent = height
  holds only over the reals.
- Native lifetime details are not modelled: the stack-local user-data key,
  the surface leaked when construction stops, and the FreeType library
  handle that is never released. These concern the foreign libraries'
  memory, not the cache.
- Concurrency is not modelled; the source is single-threaded.
- `Cairo.CairoContext.Destroy` releases the cached faces in an unspecified
  order. `std::map` iterates in ascending key order, and the model does not
  fix that order.
- `Cairo.CairoContext.Destroy` logs one Cairo release per face. It does not
  log the FreeType release that the attached finalizer performs.
- `Cairo.FindFontFile` takes the face index the match reports. When the
  match has no index entry, the source leaves the index uninitialised; the
  model uses whatever integer the `findMatch` oracle returns.
- `FontMetrics.StrExtents` and `FontMetrics.StrMetrics` do not prove sign
  facts such as non-negative width and height or positive ascent. These
  depend on the fonts and on Cairo, which are parameters here.
- `FontMetrics.StrMetrics` requires a non-empty input. The source reads
  `x[0]` unchecked, but only after `setFont`. So with an empty input, a
  setup error is still reported first; otherwise the read is out of
  bounds and has no defined result. The model covers neither empty-input
  case.
- Before any `setFont`, `getExtents` measures with Cairo's default face;
  the model passes `None` to `textExtents` for it.
