/** The measurement entry points of src/font_metrics.cpp. Each one sets a font
    once. str_extents and str_metrics_from_file then walk the input strings in
    order, and a missing (NA) string gives a missing value in every numeric
    column of its row; str_metrics measures only the first element. Strings
    are R character elements: None stands for NA. */
module FontMetrics {
  import opened Native
  import opened Cairo

  /** The character data of an R string element: NA reads as "NA". */
  function Translated(x: Option<string>): string
  {
    if x.Some? then x.value else "NA"
  }

  /** The state of the Cairo-based entry points' context after its one
      setFont, from `fontname`, size and style in a fresh context, or the
      error that stopped the setup. A logical flag is true when non-zero. */
  function CairoSetup(lib: Library, fontname: string, fontsize: real, bold: int, italic: int): Result<State, Error>
  {
    ContextWithFont(lib, fontname, fontsize, bold != 0, italic != 0, "")
  }

  /** The setup every Cairo-based entry point starts with: construct a
      context and set its one font. When setFont stops the call, the context
      is torn down as its destructor would be on leaving the scope. */
  method OpenWithFont(lib: Library, fontname: string, fontsize: real, bold: int, italic: int)
    returns (r: Result<CairoContext, Error>)
    ensures r.Failure? ==> CairoSetup(lib, fontname, fontsize, bold, italic) == Failure(r.error)
    ensures r.Success? ==>
      fresh(r.value) && r.value.lib == lib && r.value.live && r.value.Valid()
      && CairoSetup(lib, fontname, fontsize, bold, italic) == Success(r.value.Snapshot())
  {
    var made := NewContext(lib);
    if made.Failure? {
      return Failure(made.error);
    }
    var cc := made.value;
    var o := cc.SetFont(fontname, fontsize, bold != 0, italic != 0);
    if o.Fail? {
      cc.Destroy();
      return Failure(o.error);
    }
    r := Success(cc);
  }

  /** str_extents: an n x 2 matrix of (width, height), one row per input in
      input order, all measured with the one font set before the loop. */
  method StrExtents(lib: Library, x: seq<Option<string>>, fontname: string := "sans",
                    fontsize: real := 12.0, bold: int := 0, italic: int := 0)
    returns (r: Result<array2<Option<real>>, Error>)
    ensures r.Success? ==> fresh(r.value)
    ensures var font := CairoSetup(lib, fontname, fontsize, bold, italic);
      (r.Failure? <==> font.Failure?) && (r.Failure? ==> r.error == font.error)
    ensures var font := CairoSetup(lib, fontname, fontsize, bold, italic);
      r.Success? ==>
        r.value.Length0 == |x| && r.value.Length1 == 2
        && forall i :: 0 <= i < |x| ==>
             (x[i].None? ==> r.value[i, 0].None? && r.value[i, 1].None?)
             && (x[i].Some? ==>
                   r.value[i, 0] == Some(MeasuredIn(lib, font.value, x[i].value).width)
                   && r.value[i, 1] == Some(MeasuredIn(lib, font.value, x[i].value).height))
  {
    var n := |x|;
    var setUp := OpenWithFont(lib, fontname, fontsize, bold, italic);
    if setUp.Failure? {
      return Failure(setUp.error);
    }
    var cc := setUp.value;
    ghost var font := CairoSetup(lib, fontname, fontsize, bold, italic);
    var out := new Option<real>[n, 2]((i, j) => Some(0.0));
    for i := 0 to n
      invariant cc.live && cc.Valid() && cc.Snapshot() == font.value
      invariant forall k :: 0 <= k < i ==>
                  (x[k].None? ==> out[k, 0].None? && out[k, 1].None?)
                  && (x[k].Some? ==>
                        out[k, 0] == Some(MeasuredIn(lib, font.value, x[k].value).width)
                        && out[k, 1] == Some(MeasuredIn(lib, font.value, x[k].value).height))
    {
      if x[i].None? {
        out[i, 0] := None;
        out[i, 1] := None;
      } else {
        var fm := cc.GetExtents(x[i].value);
        assert fm == MeasuredIn(lib, font.value, x[i].value);
        out[i, 0] := Some(fm.width);
        out[i, 1] := Some(fm.height);
      }
    }
    cc.Destroy();
    r := Success(out);
  }

  /** The named vector str_metrics returns. */
  datatype WidthAscentDescent = WidthAscentDescent(width: real, ascent: real, descent: real)

  /** str_metrics: width, ascent and descent of the first string only. The
      first element is read without a missing-value test. */
  method StrMetrics(lib: Library, x: seq<Option<string>>, fontname: string := "sans",
                    fontsize: real := 12.0, bold: int := 0, italic: int := 0)
    returns (r: Result<WidthAscentDescent, Error>)
    requires |x| > 0
    ensures var font := CairoSetup(lib, fontname, fontsize, bold, italic);
      (font.Failure? ==> r == Failure(font.error))
      && (font.Success? ==>
            var fm := MeasuredIn(lib, font.value, Translated(x[0]));
            r == Success(WidthAscentDescent(fm.width, fm.ascent, fm.descent)))
  {
    var setUp := OpenWithFont(lib, fontname, fontsize, bold, italic);
    if setUp.Failure? {
      return Failure(setUp.error);
    }
    var cc := setUp.value;
    var fm := cc.GetExtents(Translated(x[0]));
    cc.Destroy();
    r := Success(WidthAscentDescent(fm.width, fm.ascent, fm.descent));
  }

  /** The file-based measuring context. Its source is not part of this model,
      so both of its services are opaque: `open` gives the error, if any, of
      constructing it from the candidate files and setting size, style and
      fallback glyph; `extents` measures a string with that configuration. */
  datatype FontFileContext = FontFileContext(
    open: (seq<string>, real, int, int, string) -> Option<string>,
    extents: (seq<string>, real, int, int, string, string) -> FontMetric)

  /** The data frame str_metrics_from_file returns. */
  datatype MetricsTable = MetricsTable(
    text: seq<Option<string>>,
    width: seq<Option<real>>,
    ascent: seq<Option<real>>,
    descent: seq<Option<real>>,
    height: seq<Option<real>>)

  /** str_metrics_from_file: four numeric columns of length |x| plus the input
      as the text column. A measured row copies width, ascent and descent and
      reports ascent + descent as its height. */
  method StrMetricsFromFile(ffc: FontFileContext, x: seq<Option<string>>, fontfiles: seq<string>,
                            fontsize: real := 12.0, bold: int := 0, italic: int := 0,
                            fallback: string := "M")
    returns (r: Result<MetricsTable, Error>)
    ensures var failed := ffc.open(fontfiles, fontsize, bold, italic, fallback);
      (failed.Some? ==> r == Failure(FileFontError(failed.value)))
      && (failed.None? ==> r.Success?)
    ensures r.Success? ==>
      var t := r.value;
      t.text == x
      && |t.width| == |x| && |t.ascent| == |x| && |t.descent| == |x| && |t.height| == |x|
      && forall i :: 0 <= i < |x| ==>
           (x[i].None? ==> t.width[i].None? && t.ascent[i].None? && t.descent[i].None? && t.height[i].None?)
           && (x[i].Some? ==>
                 var fm := ffc.extents(fontfiles, fontsize, bold, italic, fallback, x[i].value);
                 t.width[i] == Some(fm.width) && t.ascent[i] == Some(fm.ascent)
                 && t.descent[i] == Some(fm.descent) && t.height[i] == Some(fm.ascent + fm.descent))
  {
    var failed := ffc.open(fontfiles, fontsize, bold, italic, fallback);
    if failed.Some? {
      return Failure(FileFontError(failed.value));
    }
    var n := |x|;
    var width := new Option<real>[n](_ => Some(0.0));
    var ascent := new Option<real>[n](_ => Some(0.0));
    var descent := new Option<real>[n](_ => Some(0.0));
    var height := new Option<real>[n](_ => Some(0.0));
    for i := 0 to n
      invariant forall k :: 0 <= k < i ==>
                  (x[k].None? ==> width[k].None? && ascent[k].None? && descent[k].None? && height[k].None?)
                  && (x[k].Some? ==>
                        var fm := ffc.extents(fontfiles, fontsize, bold, italic, fallback, x[k].value);
                        width[k] == Some(fm.width) && ascent[k] == Some(fm.ascent)
                        && descent[k] == Some(fm.descent) && height[k] == Some(fm.ascent + fm.descent))
    {
      if x[i].None? {
        width[i] := None;
        ascent[i] := None;
        descent[i] := None;
        height[i] := None;
      } else {
        var fm := ffc.extents(fontfiles, fontsize, bold, italic, fallback, x[i].value);
        width[i] := Some(fm.width);
        ascent[i] := Some(fm.ascent);
        descent[i] := Some(fm.descent);
        height[i] := Some(fm.ascent + fm.descent);
      }
    }
    r := Success(MetricsTable(x, width[..], ascent[..], descent[..], height[..]));
  }
}
